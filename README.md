# Chord transposer: key catalog and key navigator

The chord transposer is a single-page widget for guitarists. It shows one
major key at a time and, for that key, displays:

- the seven diatonic chords with their Roman-numeral degrees;
- the relative minor;
- two pentatonic scale starting positions, given as root-note frets on the
  low-E and A strings;
- the vi–IV–I–V progression.

The widget also defines a key-signature lookup and a circle-of-fifths
lookup. Both are referenced only from a block of markup that is commented
out (chord-transposer.tsx:242-255), so the widget as written shows neither.
The model includes them as the catalog defines them.

Arrows step through the twelve keys, wrapping at both ends. Two preview
panels show the nearest natural (sharp-free) key on either side.

The project models two parts of the widget:

- **The key catalog** (module `KeyCatalog` in `catalog.dfy`). This covers the
  chord-family table, the key list drawn from it, the Roman numerals, and
  the four labelled lookups. Each lookup falls back to `"Unknown"`, or to an
  Unknown/Unknown pair, for a name it does not list. The tables are written
  as `match` expressions on the key name.
  - Beside the tables, the module gives reference definitions:
    - the pitch class a note name spells;
    - the circle-of-fifths hour of semitone `i`;
    - the fret that sounds a pitch class on the low-E and A strings;
    - the key signature belonging to an hour.
  - Module `CatalogProofs` (`catalog_proofs.dfy`) proves that the key list,
    the key signatures, the clock labels and the pentatonic labels agree,
    row by row, with those reference definitions. The chord-family and
    relative-minor tables are not checked against a reference definition;
    the contracts of `ChordFamily`, `RelativeMinor` and `CommonProgression`
    state how they relate to each other.
- **The key navigator** (module `Navigation` in `navigator.dfy`).
  - Class `Navigator` holds the index of the key on show. Its methods are
    the two arrows and the two natural-key searches, all written as in the
    widget: the searches are imperative loops.
  - Each search is proved equal to a recursive specification function,
    `Search`. `Search` is stated over any list of twelve names, so its
    "nothing found" case is not vacuous.
  - Lemmas establish what `Search` finds on the widget's own key list.

The widget's own state is one integer index, so the index is the only
field of the class. The catalog's tables are constants, so they are pure
functions.

Search behaviour. The widget's search loops keep stepping past sharp keys
until they reach a natural key or come back round to the current index. They
yield nothing only if the key they stop on is itself sharp. A simpler reading
of the widget would return nothing as soon as the first neighbour is sharp.
The source code does not behave that way, and the model follows the code.
`NaturalNeighbourNearest` shows what the code does with the widget's key
list: it always finds a key, at most two steps away.

## Model

| member | source | states |
|---|---|---|
| `KeyCatalog.ChordFamily` | chord-transposer.tsx:9-22 | every listed key has seven chords; the first chord is the key itself; each chord's quality (trailing `m` minor, trailing `°` diminished, otherwise major) is the one its Roman numeral announces: I, IV and V major, ii, iii and vi minor, vii° diminished |
| `KeyCatalog.KeysDistinct` | chord-transposer.tsx:24-25 | the key list holds twelve distinct names and there are seven Roman numerals |
| `CatalogProofs.KeysInSemitoneOrder` | chord-transposer.tsx:9-24 | the name at index `i` of the key list spells the root `i` semitones above C, and the next key round the list (B to C included) is one semitone higher, modulo 12 |
| `KeyCatalog.KeySignature` | chord-transposer.tsx:27-43 | the signature lookup answers `"Unknown"` exactly for a name that is not one of the twelve keys; a listed key's label ends in an accidental sign, ♯ or ♭ |
| `KeyCatalog.RelativeMinor` | chord-transposer.tsx:45-61 | the relative minor is the sixth chord (vi) of the key's own chord family, and `"Unknown"` exactly for an unlisted name |
| `KeyCatalog.CirclePosition` | chord-transposer.tsx:63-79 | the circle-of-fifths lookup answers `"Unknown"` exactly for an unlisted name |
| `KeyCatalog.PentatonicPositions` | chord-transposer.tsx:81-97 | for an unlisted name, both positions are `"Unknown"`; for a listed key, neither is |
| `KeyCatalog.CircleHour` | chord-transposer.tsx:63-79 | the hour of semitone `i` is in 1..12, and seven semitones per hour from C lead back to `i` |
| `KeyCatalog.RootFret` | chord-transposer.tsx:81-97 | the fret in 1..12 on a string tuned to `open` sounds pitch class `pitch` |
| `CatalogProofs.TableRow` | chord-transposer.tsx:24-97 | for the key at index `i`: its name spells pitch class `i`; its clock label is that of hour `CircleHour(i)`; its signature is the one that hour carries; its two pentatonic labels name fret `(i+7)%12+1` on the E string and `(i+2)%12+1` on the A string, each with its ordinal suffix |
| `CatalogProofs.CircleOfFifths` | chord-transposer.tsx:27-79 | hour `p` holds the key `7p mod 12` semitones above C, so 12 o'clock holds C; no other key shows that hour; that key's signature has `p` sharps, except F at 11 (one flat) and C at 12 (none) |
| `CatalogProofs.HourLabelInjective` | chord-transposer.tsx:63-79 | two different hours never share a clock label |
| `CatalogProofs.PentatonicRoots` | chord-transposer.tsx:81-97 | both position labels name frets in 1..12 at which the key's root sounds, on the open-E string and on the open-A string |
| `KeyCatalog.CommonProgression` | chord-transposer.tsx:282-290 | the progression has four chords, and chord `j` is the chord of the key's family at the degree whose Roman numeral is the `j`-th of vi, IV, I, V; so it opens on the relative minor, its third chord is the tonic, and only the first chord is minor |
| `CatalogProofs.SharpKeys` | chord-transposer.tsx:111-129 | the keys the search loops treat as sharp (`IsSharp`, the definition of the loops' `.includes("#")` test) are exactly those at indices 1, 3, 6, 8 and 10: the black keys C#, D#, F#, G# and A# |
| `Navigation.Next` | chord-transposer.tsx:141-143 | stepping forward stays in range and wraps from the last key to the first |
| `Navigation.Prev` | chord-transposer.tsx:137-139 | stepping backward stays in range and wraps from the first key to the last |
| `Navigation.NextPrevInverse` | chord-transposer.tsx:137-143 | the two arrows undo each other |
| `Navigation.FullCycle` | chord-transposer.tsx:137-143 | twelve presses of either arrow return to the starting key, and no smaller positive number of presses does |
| `Navigation.WalkCovers` | chord-transposer.tsx:106-130 | within one full cycle, a walk in either direction reaches every index |
| `Navigation.Search` | chord-transposer.tsx:106-130 | the recursive form of both search loops; a result, when there is one, is a natural name of the list searched |
| `Navigation.NaturalNeighbour` | chord-transposer.tsx:132-133 | the preview search on the widget's key list from the current index; a preview key, when there is one, is natural |
| `Navigation.SearchFinds` | chord-transposer.tsx:106-130 | if the search loop finds a name, it is the first natural name at or after its starting step, and every candidate before it is sharp; it finds nothing exactly when every candidate round to the current index is sharp |
| `Navigation.SearchSound` | chord-transposer.tsx:106-130 | for any twelve-name list, a search result is a natural name of the list; there is no result exactly when every name is sharp |
| `Navigation.NaturalNeighbourSound` | chord-transposer.tsx:132-133 | on the widget's key list, a preview key is a natural key of the list |
| `Navigation.NoAdjacentSharps` | chord-transposer.tsx:9-24 | no two neighbouring entries of the key list are both sharp, the wrap from B to C included |
| `Navigation.NaturalNeighbourNearest` | chord-transposer.tsx:106-130 | on the widget's key list, a search always finds a natural key: the neighbour itself if that is natural, otherwise the key one step beyond it |
| `Navigation.NaturalNeighbourExamples` | chord-transposer.tsx:106-130 | left of C# is C, right of C# is D, right of E is F, right of B is C (wrapping), and left of C is B (wrapping) |
| `Navigation.PreviewChords` | chord-transposer.tsx:132-135 | a preview panel exists exactly when a preview key does; the preview key is one of the twelve keys and the panel shows its whole chord family: seven chords, the first of which is the preview key, each of the quality its Roman numeral announces |
| `Navigation.Navigator.constructor` | chord-transposer.tsx:100-102 | the widget opens on index 0, the key C |
| `Navigation.Navigator.CurrentKey` | chord-transposer.tsx:102 | the key on show, read from the key list at the current index, is one of the twelve keys |
| `Navigation.Navigator.GoToPreviousKey` | chord-transposer.tsx:137-139 | the index moves one key back, wrapping from C to B, and stays in range |
| `Navigation.Navigator.GoToNextKey` | chord-transposer.tsx:141-143 | the index moves one key on, wrapping from B to C, and stays in range |
| `Navigation.Navigator.PreviousNaturalKey` | chord-transposer.tsx:106-117 | the backward loop returns what `Search` specifies for the current index |
| `Navigation.Navigator.NextNaturalKey` | chord-transposer.tsx:119-130 | the forward loop returns what `Search` specifies for the current index |

## Left out

- The rendered markup, styling, icons and links (chord-transposer.tsx:145 onward). The model keeps only the values that markup reads: the current key, its chords, the pentatonic positions, the relative minor, the previews and the progression. It also keeps the key-signature and circle-of-fifths lookups, which only commented-out markup reads.
- React's state hook. The index is a field of `Navigator`, and each `setCurrentKeyIndex` update is a method that reassigns it.
- JavaScript's property lookup on plain objects. For names such as `"constructor"` or `"toString"`, the widget's `signatures[key] || "Unknown"` would find an inherited property instead of falling back. The model treats every name outside the twelve keys as unlisted. The widget only ever passes one of the twelve keys.
- KeyCatalog.ChordFamily: requires a listed key name, as the widget's direct index into the chord-family table does. For another name the widget would yield `undefined`, which no caller in the widget produces.
- The circle-of-fifths hour, key signature and pentatonic frets are proved row by row against their reference definitions (`TableRow`). The reference definitions are not derived from music theory: no scale construction. The chord spellings of each family are not checked against a scale either, beyond their qualities, their first entry and the relative minor.
- `Search` is stated over any list of twelve names, whereas the widget's list is fixed. The arrows and loops always use the widget's list.
