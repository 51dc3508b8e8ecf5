/**
 * The key navigator of the chord transposer: the index of the key on show,
 * the arrows that step it round the key list, and the searches for the
 * nearest natural (sharp-free) key on either side that the preview panels
 * display.
 */
module Navigation {
  import opened KeyCatalog

  datatype Option<T> = None | Some(value: T)

  datatype Direction = Backward | Forward

  // ---------------------------------------------------------------------------
  // Moving round the key list

  /** One step forward, wrapping from the last key to the first. */
  function Next(i: nat): (j: nat)
    requires i < |Keys|
    ensures j < |Keys|
    ensures j == if i == |Keys| - 1 then 0 else i + 1
  {
    (i + 1) % |Keys|
  }

  /** One step backward, wrapping from the first key to the last. */
  function Prev(i: nat): (j: nat)
    requires i < |Keys|
    ensures j < |Keys|
    ensures j == if i == 0 then |Keys| - 1 else i - 1
  {
    (i - 1 + |Keys|) % |Keys|
  }

  function Step(i: nat, dir: Direction): (j: nat)
    requires i < |Keys|
    ensures j < |Keys|
  {
    match dir
    case Forward => Next(i)
    case Backward => Prev(i)
  }

  /** The index `d` steps away from `i` in direction `dir`. */
  function Walk(i: nat, dir: Direction, d: nat): (j: nat)
    requires i < |Keys|
    ensures j < |Keys|
  {
    if d == 0 then i else Step(Walk(i, dir, d - 1), dir)
  }

  /** Walking forward is addition of the step count modulo the key count. */
  lemma {:induction false} WalkForward(i: nat, d: nat)
    requires i < |Keys|
    ensures Walk(i, Forward, d) == (i + d) % |Keys|
  {
    if d > 0 {
      WalkForward(i, d - 1);
      ModStep(i + d - 1);
    }
  }

  /** Walking backward is subtraction of the step count modulo the key count. */
  lemma {:induction false} WalkBackward(i: nat, d: nat)
    requires i < |Keys|
    ensures Walk(i, Backward, d) == (i - d) % |Keys|
  {
    if d > 0 {
      WalkBackward(i, d - 1);
      ModStep(i - d);
    }
  }

  /** The residue of `n + 1` from the residue of `n`, modulo the key count. */
  lemma ModStep(n: int)
    ensures (n + 1) % |Keys| == if n % |Keys| == |Keys| - 1 then 0 else n % |Keys| + 1
  {
  }

  /** The two arrows undo each other. */
  lemma NextPrevInverse(i: nat)
    requires i < |Keys|
    ensures Prev(Next(i)) == i
    ensures Next(Prev(i)) == i
  {
  }

  /** Twelve presses of an arrow come back to the starting key, and no smaller
      positive number of presses does. */
  lemma FullCycle(i: nat, dir: Direction, d: nat)
    requires i < |Keys|
    ensures Walk(i, dir, |Keys|) == i
    ensures 0 < d < |Keys| ==> Walk(i, dir, d) != i
  {
    if dir == Forward {
      WalkForward(i, |Keys|);
      WalkForward(i, d);
    } else {
      WalkBackward(i, |Keys|);
      WalkBackward(i, d);
    }
  }

  /** Every index is reached within one full cycle, in either direction. */
  lemma WalkCovers(i: nat, dir: Direction, k: nat)
    requires i < |Keys| && k < |Keys|
    ensures exists e :: 1 <= e <= |Keys| && Walk(i, dir, e) == k
  {
    var e: nat := if dir == Forward then (if k > i then k - i else k + |Keys| - i)
                  else (if i > k then i - k else i + |Keys| - k);
    WalkTo(i, dir, e, k);
  }

  /** The witness of `WalkCovers`: the step count that lands on `k`. */
  lemma WalkTo(i: nat, dir: Direction, e: nat, k: nat)
    requires i < |Keys| && k < |Keys|
    requires e == if dir == Forward then (if k > i then k - i else k + |Keys| - i)
                   else (if i > k then i - k else i + |Keys| - k)
    ensures 1 <= e <= |Keys| && Walk(i, dir, e) == k
  {
    assert |Keys| == 12;
    if dir == Forward {
      WalkForward(i, e);
      assert i + e == k || i + e == k + |Keys|;
    } else {
      WalkBackward(i, e);
      assert i - e == k || i - e == k - |Keys|;
    }
  }

  // ---------------------------------------------------------------------------
  // The natural-key searches. The loop is stated over any list `names` of
  // twelve key names, so that the case in which it finds nothing is not
  // vacuous, and then applied to the key list itself.

  /** The search loop, from the candidate `d` steps away from `cur` on: it
      stops on the first natural name, or on `cur` itself after a full cycle,
      and yields nothing if the name it stopped on is sharp. */
  function Search(names: seq<string>, cur: nat, dir: Direction, d: nat): (r: Option<string>)
    requires |names| == |Keys| && cur < |Keys| && 1 <= d <= |Keys|
    ensures r.Some? ==> r.value in names && !IsSharp(r.value)
    decreases |Keys| - d
  {
    var j := Walk(cur, dir, d);
    if !IsSharp(names[j]) then Some(names[j])
    else if j == cur then None
    else FullCycle(cur, dir, d); Search(names, cur, dir, d + 1)
  }

  /** The nearest natural key on the `dir` side of the key at `cur`. */
  function NaturalNeighbour(cur: nat, dir: Direction): (r: Option<string>)
    requires cur < |Keys|
    ensures r.Some? ==> !IsSharp(r.value)
  {
    Search(Keys, cur, dir, 1)
  }

  /** Every candidate from step `from` up to, not including, step `to` is sharp. */
  ghost predicate SharpBetween(names: seq<string>, cur: nat, dir: Direction, from: nat, to: nat)
    requires |names| == |Keys| && cur < |Keys|
  {
    forall e :: from <= e < to ==> IsSharp(names[Walk(cur, dir, e)])
  }

  /** What the search from step `d` finds: the first natural name at step `d`
      or beyond, every candidate before it being sharp; or nothing, exactly
      when every candidate from step `d` round to `cur` itself is sharp. */
  lemma {:induction false} SearchFinds(names: seq<string>, cur: nat, dir: Direction, d: nat)
    requires |names| == |Keys| && cur < |Keys| && 1 <= d <= |Keys|
    ensures Search(names, cur, dir, d).Some? ==>
      exists e :: d <= e <= |Keys| && Search(names, cur, dir, d) == Some(names[Walk(cur, dir, e)])
        && !IsSharp(names[Walk(cur, dir, e)]) && SharpBetween(names, cur, dir, d, e)
    ensures Search(names, cur, dir, d).None? <==> SharpBetween(names, cur, dir, d, |Keys| + 1)
    decreases |Keys| - d
  {
    FullCycle(cur, dir, d);
    var j := Walk(cur, dir, d);
    if !IsSharp(names[j]) {
      assert SharpBetween(names, cur, dir, d, d);
      assert !SharpBetween(names, cur, dir, d, |Keys| + 1);
    } else if j != cur {
      SearchFinds(names, cur, dir, d + 1);
      if Search(names, cur, dir, d).Some? {
        var e :| d + 1 <= e <= |Keys| && Search(names, cur, dir, d + 1) == Some(names[Walk(cur, dir, e)])
          && !IsSharp(names[Walk(cur, dir, e)]) && SharpBetween(names, cur, dir, d + 1, e);
        assert SharpBetween(names, cur, dir, d, e);
      } else {
        assert SharpBetween(names, cur, dir, d, |Keys| + 1);
      }
    }
  }

  /** A search yields a natural name of the list, and yields nothing exactly
      when every name of the list is sharp. */
  lemma SearchSound(names: seq<string>, cur: nat, dir: Direction)
    requires |names| == |Keys| && cur < |Keys|
    ensures Search(names, cur, dir, 1).Some? ==>
      Search(names, cur, dir, 1).value in names && !IsSharp(Search(names, cur, dir, 1).value)
    ensures Search(names, cur, dir, 1).None? <==> forall k :: 0 <= k < |names| ==> IsSharp(names[k])
  {
    SearchFinds(names, cur, dir, 1);
    if Search(names, cur, dir, 1).None? {
      forall k | 0 <= k < |names|
        ensures IsSharp(names[k])
      {
        WalkCovers(cur, dir, k);
        var e :| 1 <= e <= |Keys| && Walk(cur, dir, e) == k;
      }
    }
  }

  /** One pass of the search loop: past a sharp candidate other than `cur`
      the search goes on from the next step, which is still within a cycle. */
  lemma SearchAdvance(names: seq<string>, cur: nat, dir: Direction, d: nat, j: nat, key: string)
    requires |names| == |Keys| && cur < |Keys| && 1 <= d <= |Keys|
    requires j == Walk(cur, dir, d) && key == names[j]
    requires IsSharp(key) && j != cur
    ensures d < |Keys|
    ensures Walk(cur, dir, d + 1) == Step(j, dir)
    ensures Search(names, cur, dir, d) == Search(names, cur, dir, d + 1)
  {
    FullCycle(cur, dir, d);
  }

  /** Where the search loop stops on `key`, its result is read off that key. */
  lemma SearchStop(names: seq<string>, cur: nat, dir: Direction, d: nat, key: string)
    requires |names| == |Keys| && cur < |Keys| && 1 <= d <= |Keys|
    requires key == names[Walk(cur, dir, d)]
    requires !(IsSharp(key) && Walk(cur, dir, d) != cur)
    ensures Search(names, cur, dir, d) == if IsSharp(key) then None else Some(key)
  {
  }

  /** On the widget's key list a preview, when there is one, names a natural
      key of the list. */
  lemma NaturalNeighbourSound(cur: nat, dir: Direction)
    requires cur < |Keys|
    ensures NaturalNeighbour(cur, dir).Some? ==>
      NaturalNeighbour(cur, dir).value in Keys && !IsSharp(NaturalNeighbour(cur, dir).value)
  {
    SearchSound(Keys, cur, dir);
  }

  /** The chord family shown in a preview panel: that of the preview key,
      and no panel when there is no preview key. */
  function PreviewChords(cur: nat, dir: Direction): (chords: Option<seq<string>>)
    requires cur < |Keys|
    ensures chords.Some? <==> NaturalNeighbour(cur, dir).Some?
    ensures chords.Some? ==> |chords.value| == |RomanNumerals| && chords.value[0] == NaturalNeighbour(cur, dir).value
    ensures chords.Some? ==>
      NaturalNeighbour(cur, dir).value in Keys && chords.value == ChordFamily(NaturalNeighbour(cur, dir).value)
  {
    match NaturalNeighbour(cur, dir)
    case None => None
    case Some(k) => NaturalNeighbourSound(cur, dir); Some(ChordFamily(k))
  }

  /** No two neighbouring keys of the key list, the first and last included,
      are both sharp. */
  lemma NoAdjacentSharps(k: nat)
    requires k < |Keys|
    ensures IsSharp(Keys[k]) ==> !IsSharp(Keys[Next(k)]) && !IsSharp(Keys[Prev(k)])
  {
    if k == 0 {
      assert Keys[0] == "C";
    } else if k == 1 {
      assert Keys[1] == "C#" && Keys[0] == "C" && Keys[2] == "D";
    } else if k == 2 {
      assert Keys[2] == "D";
    } else if k == 3 {
      assert Keys[3] == "D#" && Keys[2] == "D" && Keys[4] == "E";
    } else if k == 4 {
      assert Keys[4] == "E";
    } else if k == 5 {
      assert Keys[5] == "F";
    } else if k == 6 {
      assert Keys[6] == "F#" && Keys[5] == "F" && Keys[7] == "G";
    } else if k == 7 {
      assert Keys[7] == "G";
    } else if k == 8 {
      assert Keys[8] == "G#" && Keys[7] == "G" && Keys[9] == "A";
    } else if k == 9 {
      assert Keys[9] == "A";
    } else if k == 10 {
      assert Keys[10] == "A#" && Keys[9] == "A" && Keys[11] == "B";
    } else {
      assert Keys[11] == "B";
    }
  }

  /** For the key list of the widget a search always finds a key: the
      neighbour itself when it is natural, otherwise the key one step beyond
      it, which is natural. */
  lemma NaturalNeighbourNearest(cur: nat, dir: Direction)
    requires cur < |Keys|
    ensures var n1, n2 := Walk(cur, dir, 1), Walk(cur, dir, 2);
      NaturalNeighbour(cur, dir) == if IsSharp(Keys[n1]) then Some(Keys[n2]) else Some(Keys[n1])
    ensures NaturalNeighbour(cur, dir).Some? && !IsSharp(NaturalNeighbour(cur, dir).value)
  {
    var n1 := Walk(cur, dir, 1);
    FullCycle(cur, dir, 1);
    NoAdjacentSharps(n1);
    NextPrevInverse(n1);
    if IsSharp(Keys[n1]) {
      assert Walk(cur, dir, 2) == Step(n1, dir);
      assert Search(Keys, cur, dir, 1) == Search(Keys, cur, dir, 2);
    }
  }

  /** The previews the key list produces at the ends of the sharp runs. */
  lemma NaturalNeighbourExamples()
    ensures NaturalNeighbour(1, Backward) == Some("C")
    ensures NaturalNeighbour(1, Forward) == Some("D")
    ensures NaturalNeighbour(4, Forward) == Some("F")
    ensures NaturalNeighbour(11, Forward) == Some("C")
    ensures NaturalNeighbour(0, Backward) == Some("B")
  {
    NaturalNeighbourNearest(1, Backward);
    NaturalNeighbourNearest(1, Forward);
    NaturalNeighbourNearest(4, Forward);
    NaturalNeighbourNearest(11, Forward);
    NaturalNeighbourNearest(0, Backward);
  }

  // ---------------------------------------------------------------------------
  // The widget's navigation state

  /** The index of the key on show and the operations on it. */
  class Navigator {
    var idx: nat

    ghost predicate Valid()
      reads this
    {
      idx < |Keys|
    }

    /** The widget opens on the first key of the list, C. */
    constructor()
      ensures Valid() && idx == 0
      ensures CurrentKey() == "C"
    {
      idx := 0;
    }

    /** The key on show. */
    function CurrentKey(): (key: string)
      reads this
      requires Valid()
      ensures key in Keys
    {
      Keys[idx]
    }

    /** The left arrow: one key back, wrapping from C to B. */
    method GoToPreviousKey()
      requires Valid()
      modifies this
      ensures Valid() && idx == Prev(old(idx))
    {
      idx := (idx - 1 + |Keys|) % |Keys|;
    }

    /** The right arrow: one key on, wrapping from B to C. */
    method GoToNextKey()
      requires Valid()
      modifies this
      ensures Valid() && idx == Next(old(idx))
    {
      idx := (idx + 1) % |Keys|;
    }

    /** The preview to the left: walks back over sharp keys until it meets a
        natural key or comes round to the current one. */
    method PreviousNaturalKey() returns (r: Option<string>)
      requires Valid()
      ensures r == Search(Keys, idx, Backward, 1)
    {
      var prevIndex := Prev(idx);
      var prevKey := Keys[prevIndex];
      ghost var d := 1;
      while IsSharp(prevKey) && prevIndex != idx
        invariant 1 <= d <= |Keys|
        invariant prevIndex == Walk(idx, Backward, d) && prevKey == Keys[prevIndex]
        invariant Search(Keys, idx, Backward, d) == Search(Keys, idx, Backward, 1)
        decreases |Keys| - d
      {
        SearchAdvance(Keys, idx, Backward, d, prevIndex, prevKey);
        prevIndex := Prev(prevIndex);
        prevKey := Keys[prevIndex];
        d := d + 1;
      }
      r := if IsSharp(prevKey) then None else Some(prevKey);
      SearchStop(Keys, idx, Backward, d, prevKey);
    }

    /** The preview to the right: walks on over sharp keys until it meets a
        natural key or comes round to the current one. */
    method NextNaturalKey() returns (r: Option<string>)
      requires Valid()
      ensures r == Search(Keys, idx, Forward, 1)
    {
      var nextIndex := Next(idx);
      var nextKey := Keys[nextIndex];
      ghost var d := 1;
      while IsSharp(nextKey) && nextIndex != idx
        invariant 1 <= d <= |Keys|
        invariant nextIndex == Walk(idx, Forward, d) && nextKey == Keys[nextIndex]
        invariant Search(Keys, idx, Forward, d) == Search(Keys, idx, Forward, 1)
        decreases |Keys| - d
      {
        SearchAdvance(Keys, idx, Forward, d, nextIndex, nextKey);
        nextIndex := Next(nextIndex);
        nextKey := Keys[nextIndex];
        d := d + 1;
      }
      r := if IsSharp(nextKey) then None else Some(nextKey);
      SearchStop(Keys, idx, Forward, d, nextKey);
    }
  }
}
