/**
 * The key catalog of the chord transposer: constant tables over the twelve
 * major keys (their diatonic chord families, key signatures, relative minors,
 * circle-of-fifths positions and pentatonic starting frets) and the lookups on
 * them. Every lookup except the chord-family index falls back to "Unknown"
 * for a name that is not in its table.
 */
module KeyCatalog {

  /** The twelve key names in the order the chord-family table lists them,
      which is the order `Object.keys` yields: semitone ascent from C. */
  const Keys: seq<string> := ["C", "C#", "D", "D#", "E", "F", "F#", "G", "G#", "A", "A#", "B"]

  /** Labels of the seven scale degrees, one per chord of a family. */
  const RomanNumerals: seq<string> := ["I", "ii", "iii", "IV", "V", "vi", "vii°"]

  /** The two pentatonic scale starting positions shown for a key. */
  datatype Positions = Positions(position1: string, position2: string)

  /** The fallback every labelled lookup gives for a name it does not list. */
  const Unknown: string := "Unknown"

  // ---------------------------------------------------------------------------
  // Reading chord symbols and degree labels

  /** A key or chord name is "sharp" when it contains the sharp marker. */
  predicate IsSharp(name: string): (sharp: bool)
    ensures sharp <==> exists k :: 0 <= k < |name| && name[k] == '#'
  {
    '#' in name
  }

  datatype Quality = Major | Minor | Diminished

  /** The quality a chord symbol spells: a trailing `m` is minor, a trailing `°`
      diminished, anything else major. */
  function ChordQuality(chord: string): Quality {
    if |chord| > 0 && chord[|chord| - 1] == 'm' then Minor
    else if |chord| > 0 && chord[|chord| - 1] == '°' then Diminished
    else Major
  }

  /** The quality a Roman numeral denotes: a trailing `°` is diminished, a
      lower-case numeral minor, an upper-case one major. */
  function NumeralQuality(numeral: string): Quality {
    if |numeral| > 0 && numeral[|numeral| - 1] == '°' then Diminished
    else if |numeral| > 0 && 'a' <= numeral[0] <= 'z' then Minor
    else Major
  }

  /** Semitones of a natural note letter above C. */
  function LetterPitch(c: char): int {
    match c
    case 'C' => 0
    case 'D' => 2
    case 'E' => 4
    case 'F' => 5
    case 'G' => 7
    case 'A' => 9
    case 'B' => 11
    case _ => 0
  }

  /** Net accidentals of a spelling: one up per `#`, one down per `b`. */
  function Accidentals(s: string): int {
    if s == [] then 0
    else (if s[0] == '#' then 1 else if s[0] == 'b' then -1 else 0) + Accidentals(s[1..])
  }

  /** Pitch class (0 = C) of the root a note or chord symbol spells. */
  function PitchClass(name: string): int
    requires |name| > 0
  {
    (LetterPitch(name[0]) + Accidentals(name[1..])) % 12
  }

  // ---------------------------------------------------------------------------
  // The lookups. Each table of the widget is an object literal keyed by key
  // name; here each is a match on the name, with `Unknown` for any other name.

  /** The chord family of a key: the direct table index, made only with a
      listed key name. Its seven chords have the qualities the seven Roman
      numerals announce, and the first one is the key itself. */
  function ChordFamily(key: string): (chords: seq<string>)
    requires key in Keys
    ensures |chords| == |RomanNumerals|
    ensures chords[0] == key
    ensures forall d :: 0 <= d < |chords| ==> ChordQuality(chords[d]) == NumeralQuality(RomanNumerals[d])
  {
    match key
    case "C"  => ["C", "Dm", "Em", "F", "G", "Am", "B°"]
    case "C#" => ["C#", "D#m", "E#m", "F#", "G#", "A#m", "B#°"]
    case "D"  => ["D", "Em", "F#m", "G", "A", "Bm", "C#°"]
    case "D#" => ["D#", "E#m", "F##m", "G#", "A#", "B#m", "C##°"]
    case "E"  => ["E", "F#m", "G#m", "A", "B", "C#m", "D#°"]
    case "F"  => ["F", "Gm", "Am", "Bb", "C", "Dm", "E°"]
    case "F#" => ["F#", "G#m", "A#m", "B", "C#", "D#m", "E#°"]
    case "G"  => ["G", "Am", "Bm", "C", "D", "Em", "F#°"]
    case "G#" => ["G#", "A#m", "B#m", "C#", "D#", "E#m", "F##°"]
    case "A"  => ["A", "Bm", "C#m", "D", "E", "F#m", "G#°"]
    case "A#" => ["A#", "B#m", "C##m", "D#", "E#", "F##m", "G##°"]
    case "B"  => ["B", "C#m", "D#m", "E", "F#", "G#m", "A#°"]
    case _ => assert false; []
  }

  /** The key signature label, `Unknown` exactly for an unlisted name; a
      listed key's label ends in an accidental sign ("No ♯/♭" included). */
  function KeySignature(key: string): (text: string)
    ensures text == Unknown <==> key !in Keys
    ensures key in Keys ==> |text| > 0 && (text[|text| - 1] == '♯' || text[|text| - 1] == '♭')
  {
    match key
    case "C" => "No ♯/♭"
    case "C#" => "7 ♯"
    case "D" => "2 ♯"
    case "D#" => "9 ♯"
    case "E" => "4 ♯"
    case "F" => "1 ♭"
    case "F#" => "6 ♯"
    case "G" => "1 ♯"
    case "G#" => "8 ♯"
    case "A" => "3 ♯"
    case "A#" => "10 ♯"
    case "B" => "5 ♯"
    case _ => Unknown
  }

  /** The relative minor: the vi chord of the key's own family, `Unknown`
      exactly for an unlisted name. */
  function RelativeMinor(key: string): (minor: string)
    ensures minor == Unknown <==> key !in Keys
    ensures key in Keys ==> minor == ChordFamily(key)[5]
  {
    match key
    case "C" => "Am"
    case "C#" => "A#m"
    case "D" => "Bm"
    case "D#" => "B#m"
    case "E" => "C#m"
    case "F" => "Dm"
    case "F#" => "D#m"
    case "G" => "Em"
    case "G#" => "E#m"
    case "A" => "F#m"
    case "A#" => "F##m"
    case "B" => "G#m"
    case _ => Unknown
  }

  /** The circle-of-fifths clock label, `Unknown` exactly for an unlisted name. */
  function CirclePosition(key: string): (text: string)
    ensures text == Unknown <==> key !in Keys
  {
    match key
    case "C" => "12 o'clock"
    case "G" => "1 o'clock"
    case "D" => "2 o'clock"
    case "A" => "3 o'clock"
    case "E" => "4 o'clock"
    case "B" => "5 o'clock"
    case "F#" => "6 o'clock"
    case "C#" => "7 o'clock"
    case "G#" => "8 o'clock"
    case "D#" => "9 o'clock"
    case "A#" => "10 o'clock"
    case "F" => "11 o'clock"
    case _ => Unknown
  }

  /** The pentatonic starting positions: both `Unknown` exactly for an
      unlisted name. */
  function PentatonicPositions(key: string): (p: Positions)
    ensures p.position1 == Unknown <==> key !in Keys
    ensures p.position2 == Unknown <==> key !in Keys
  {
    match key
    case "C"  => Positions("8th fret (E string)", "3rd fret (A string)")
    case "C#" => Positions("9th fret (E string)", "4th fret (A string)")
    case "D"  => Positions("10th fret (E string)", "5th fret (A string)")
    case "D#" => Positions("11th fret (E string)", "6th fret (A string)")
    case "E"  => Positions("12th fret (E string)", "7th fret (A string)")
    case "F"  => Positions("1st fret (E string)", "8th fret (A string)")
    case "F#" => Positions("2nd fret (E string)", "9th fret (A string)")
    case "G"  => Positions("3rd fret (E string)", "10th fret (A string)")
    case "G#" => Positions("4th fret (E string)", "11th fret (A string)")
    case "A"  => Positions("5th fret (E string)", "12th fret (A string)")
    case "A#" => Positions("6th fret (E string)", "1st fret (A string)")
    case "B"  => Positions("7th fret (E string)", "2nd fret (A string)")
    case _ => Positions(Unknown, Unknown)
  }

  /** The degree labels of the progression the widget reads out, vi-IV-I-V. */
  const ProgressionNumerals: seq<string> := ["vi", "IV", "I", "V"]

  /** The vi-IV-I-V progression of a key: chord `j` is the chord of the key's
      family at the degree labelled `ProgressionNumerals[j]`, so it opens on
      the relative minor, its third chord is the tonic, and only the first
      chord is minor. */
  function CommonProgression(key: string): (chords: seq<string>)
    requires key in Keys
    ensures |chords| == |ProgressionNumerals|
    ensures forall j :: 0 <= j < |chords| ==>
      exists d :: 0 <= d < |RomanNumerals| && RomanNumerals[d] == ProgressionNumerals[j] && chords[j] == ChordFamily(key)[d]
    ensures chords[0] == RelativeMinor(key)
    ensures chords[2] == key
    ensures forall j :: 0 <= j < |chords| ==> ChordQuality(chords[j]) == (if j == 0 then Minor else Major)
  {
    var c := ChordFamily(key);
    assert RomanNumerals[5] == ProgressionNumerals[0] && RomanNumerals[3] == ProgressionNumerals[1];
    assert RomanNumerals[0] == ProgressionNumerals[2] && RomanNumerals[4] == ProgressionNumerals[3];
    [c[5], c[3], c[0], c[4]]
  }

  // ---------------------------------------------------------------------------
  // Reference definitions for the labelled tables

  function Digit(n: nat): char
    requires n < 10
  {
    "0123456789"[n]
  }

  /** Decimal digits of a natural number. */
  function Decimal(n: nat): string
    decreases n
  {
    if n < 10 then [Digit(n)] else Decimal(n / 10) + [Digit(n % 10)]
  }

  /** Hour on the circle of fifths of the key with semitone index `i`:
      seven semitones per hour, with C at 12 o'clock. */
  function CircleHour(i: nat): (hour: nat)
    requires i < 12
    ensures 1 <= hour <= 12
    ensures (7 * hour) % 12 == i
  {
    var h := (7 * i) % 12;
    if h == 0 then 12 else h
  }

  function HourLabel(hour: nat): string {
    Decimal(hour) + " o'clock"
  }

  /** English ordinal suffix for the fret numbers 1..12. */
  function OrdinalSuffix(n: nat): (suffix: string)
    ensures |suffix| == 2
  {
    if n == 1 then "st" else if n == 2 then "nd" else if n == 3 then "rd" else "th"
  }

  /** "<n><suffix> fret (<string> string)", spelled out character by character. */
  function FretLabel(fret: nat, stringName: char): string
    requires 1 <= fret <= 12
  {
    var o := OrdinalSuffix(fret);
    if fret < 10 then
      [Digit(fret), o[0], o[1], ' ', 'f', 'r', 'e', 't', ' ', '(', stringName, ' ', 's', 't', 'r', 'i', 'n', 'g', ')']
    else
      [Digit(fret / 10), Digit(fret % 10), o[0], o[1], ' ', 'f', 'r', 'e', 't', ' ', '(', stringName, ' ', 's', 't', 'r', 'i', 'n', 'g', ')']
  }

  /** Pitch classes of the open low-E and A strings of a guitar. */
  const OpenE: nat := 4
  const OpenA: nat := 9

  /** The fret in 1..12 on a string tuned to `open` that sounds pitch class `pitch`. */
  function RootFret(open: nat, pitch: nat): (fret: nat)
    requires open < 12 && pitch < 12
    ensures 1 <= fret <= 12
    ensures (open + fret) % 12 == pitch
  {
    (pitch + 11 - open) % 12 + 1
  }

  /** The key signature a key at hour `p` of the circle of fifths carries:
      one sharp per hour from G at 1 o'clock to A# at 10, one flat for F at
      11, no accidentals for C at 12. */
  function SignatureForHour(p: nat): string {
    if p == 12 then "No ♯/♭" else if p == 11 then "1 ♭" else Decimal(p) + " ♯"
  }

  // ---------------------------------------------------------------------------
  // Consistency of the tables

  /** The key list holds twelve distinct names. */
  lemma KeysDistinct()
    ensures |Keys| == 12 && |RomanNumerals| == 7
    ensures forall i, j :: 0 <= i < j < |Keys| ==> Keys[i] != Keys[j]
  {
  }
}
