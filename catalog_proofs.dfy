/**
 * Proofs that the literal tables of the key catalog agree with each other
 * and with the reference definitions of KeyCatalog: semitone order of the
 * key list, circle-of-fifths hours, key signatures and pentatonic frets.
 *
 * The checks are made key by key: each one-key lemma below evaluates one
 * table entry on literal arguments, and the dispatchers `PitchRow`,
 * `LabelRow` and `FretRow` select them by index. A single case split per
 * table over a symbolic index is far more expensive for the verifier,
 * because every string comparison in the tables is then left symbolic.
 */
module CatalogProofs {
  import opened KeyCatalog

  // Four lemmas per key, each checking the entries of one key name in one
  // table against the reference definitions on literal arguments.

  lemma PitchC()
    ensures Keys[0] == "C" && PitchClass("C") == 0
    ensures CircleHour(0) == 12 && RootFret(OpenE, 0) == 8 && RootFret(OpenA, 0) == 3
  {
  }

  lemma CircleC()
    ensures CirclePosition("C") == HourLabel(12)
  {
  }

  lemma SignatureC()
    ensures KeySignature("C") == SignatureForHour(12)
  {
  }

  lemma FretsC()
    ensures PentatonicPositions("C") == Positions(FretLabel(8, 'E'), FretLabel(3, 'A'))
  {
  }

  lemma PitchCSharp()
    ensures Keys[1] == "C#" && PitchClass("C#") == 1
    ensures CircleHour(1) == 7 && RootFret(OpenE, 1) == 9 && RootFret(OpenA, 1) == 4
  {
  }

  lemma CircleCSharp()
    ensures CirclePosition("C#") == HourLabel(7)
  {
  }

  lemma SignatureCSharp()
    ensures KeySignature("C#") == SignatureForHour(7)
  {
  }

  lemma FretsCSharp()
    ensures PentatonicPositions("C#") == Positions(FretLabel(9, 'E'), FretLabel(4, 'A'))
  {
  }

  lemma PitchD()
    ensures Keys[2] == "D" && PitchClass("D") == 2
    ensures CircleHour(2) == 2 && RootFret(OpenE, 2) == 10 && RootFret(OpenA, 2) == 5
  {
  }

  lemma CircleD()
    ensures CirclePosition("D") == HourLabel(2)
  {
  }

  lemma SignatureD()
    ensures KeySignature("D") == SignatureForHour(2)
  {
  }

  lemma FretsD()
    ensures PentatonicPositions("D") == Positions(FretLabel(10, 'E'), FretLabel(5, 'A'))
  {
  }

  lemma PitchDSharp()
    ensures Keys[3] == "D#" && PitchClass("D#") == 3
    ensures CircleHour(3) == 9 && RootFret(OpenE, 3) == 11 && RootFret(OpenA, 3) == 6
  {
  }

  lemma CircleDSharp()
    ensures CirclePosition("D#") == HourLabel(9)
  {
  }

  lemma SignatureDSharp()
    ensures KeySignature("D#") == SignatureForHour(9)
  {
  }

  lemma FretsDSharp()
    ensures PentatonicPositions("D#") == Positions(FretLabel(11, 'E'), FretLabel(6, 'A'))
  {
  }

  lemma PitchE()
    ensures Keys[4] == "E" && PitchClass("E") == 4
    ensures CircleHour(4) == 4 && RootFret(OpenE, 4) == 12 && RootFret(OpenA, 4) == 7
  {
  }

  lemma CircleE()
    ensures CirclePosition("E") == HourLabel(4)
  {
  }

  lemma SignatureE()
    ensures KeySignature("E") == SignatureForHour(4)
  {
  }

  lemma FretsE()
    ensures PentatonicPositions("E") == Positions(FretLabel(12, 'E'), FretLabel(7, 'A'))
  {
  }

  lemma PitchF()
    ensures Keys[5] == "F" && PitchClass("F") == 5
    ensures CircleHour(5) == 11 && RootFret(OpenE, 5) == 1 && RootFret(OpenA, 5) == 8
  {
  }

  lemma CircleF()
    ensures CirclePosition("F") == HourLabel(11)
  {
  }

  lemma SignatureF()
    ensures KeySignature("F") == SignatureForHour(11)
  {
  }

  lemma FretsF()
    ensures PentatonicPositions("F") == Positions(FretLabel(1, 'E'), FretLabel(8, 'A'))
  {
  }

  lemma PitchFSharp()
    ensures Keys[6] == "F#" && PitchClass("F#") == 6
    ensures CircleHour(6) == 6 && RootFret(OpenE, 6) == 2 && RootFret(OpenA, 6) == 9
  {
  }

  lemma CircleFSharp()
    ensures CirclePosition("F#") == HourLabel(6)
  {
  }

  lemma SignatureFSharp()
    ensures KeySignature("F#") == SignatureForHour(6)
  {
  }

  lemma FretsFSharp()
    ensures PentatonicPositions("F#") == Positions(FretLabel(2, 'E'), FretLabel(9, 'A'))
  {
  }

  lemma PitchG()
    ensures Keys[7] == "G" && PitchClass("G") == 7
    ensures CircleHour(7) == 1 && RootFret(OpenE, 7) == 3 && RootFret(OpenA, 7) == 10
  {
  }

  lemma CircleG()
    ensures CirclePosition("G") == HourLabel(1)
  {
  }

  lemma SignatureG()
    ensures KeySignature("G") == SignatureForHour(1)
  {
  }

  lemma FretsG()
    ensures PentatonicPositions("G") == Positions(FretLabel(3, 'E'), FretLabel(10, 'A'))
  {
  }

  lemma PitchGSharp()
    ensures Keys[8] == "G#" && PitchClass("G#") == 8
    ensures CircleHour(8) == 8 && RootFret(OpenE, 8) == 4 && RootFret(OpenA, 8) == 11
  {
  }

  lemma CircleGSharp()
    ensures CirclePosition("G#") == HourLabel(8)
  {
  }

  lemma SignatureGSharp()
    ensures KeySignature("G#") == SignatureForHour(8)
  {
  }

  lemma FretsGSharp()
    ensures PentatonicPositions("G#") == Positions(FretLabel(4, 'E'), FretLabel(11, 'A'))
  {
  }

  lemma PitchA()
    ensures Keys[9] == "A" && PitchClass("A") == 9
    ensures CircleHour(9) == 3 && RootFret(OpenE, 9) == 5 && RootFret(OpenA, 9) == 12
  {
  }

  lemma CircleA()
    ensures CirclePosition("A") == HourLabel(3)
  {
  }

  lemma SignatureA()
    ensures KeySignature("A") == SignatureForHour(3)
  {
  }

  lemma FretsA()
    ensures PentatonicPositions("A") == Positions(FretLabel(5, 'E'), FretLabel(12, 'A'))
  {
  }

  lemma PitchASharp()
    ensures Keys[10] == "A#" && PitchClass("A#") == 10
    ensures CircleHour(10) == 10 && RootFret(OpenE, 10) == 6 && RootFret(OpenA, 10) == 1
  {
  }

  lemma CircleASharp()
    ensures CirclePosition("A#") == HourLabel(10)
  {
  }

  lemma SignatureASharp()
    ensures KeySignature("A#") == SignatureForHour(10)
  {
  }

  lemma FretsASharp()
    ensures PentatonicPositions("A#") == Positions(FretLabel(6, 'E'), FretLabel(1, 'A'))
  {
  }

  lemma PitchB()
    ensures Keys[11] == "B" && PitchClass("B") == 11
    ensures CircleHour(11) == 5 && RootFret(OpenE, 11) == 7 && RootFret(OpenA, 11) == 2
  {
  }

  lemma CircleB()
    ensures CirclePosition("B") == HourLabel(5)
  {
  }

  lemma SignatureB()
    ensures KeySignature("B") == SignatureForHour(5)
  {
  }

  lemma FretsB()
    ensures PentatonicPositions("B") == Positions(FretLabel(7, 'E'), FretLabel(2, 'A'))
  {
  }

  /** The name at index `i` spells semitone `i`, and the frets that sound
      semitone `i` on the two strings, in closed form. */
  lemma PitchRow(i: nat)
    requires i < |Keys|
    ensures |Keys[i]| > 0 && PitchClass(Keys[i]) == i
    ensures RootFret(OpenE, i) == (i + 7) % 12 + 1 && RootFret(OpenA, i) == (i + 2) % 12 + 1
  {
    if i == 0 {
      PitchC();
    } else if i == 1 {
      PitchCSharp();
    } else if i == 2 {
      PitchD();
    } else if i == 3 {
      PitchDSharp();
    } else if i == 4 {
      PitchE();
    } else if i == 5 {
      PitchF();
    } else if i == 6 {
      PitchFSharp();
    } else if i == 7 {
      PitchG();
    } else if i == 8 {
      PitchGSharp();
    } else if i == 9 {
      PitchA();
    } else if i == 10 {
      PitchASharp();
    } else if i == 11 {
      PitchB();
    }
  }

  /** The clock label and the key signature of the key at index `i`. */
  lemma LabelRow(i: nat)
    requires i < |Keys|
    ensures CirclePosition(Keys[i]) == HourLabel(CircleHour(i))
    ensures KeySignature(Keys[i]) == SignatureForHour(CircleHour(i))
  {
    if i == 0 {
      PitchC();
      CircleC();
      SignatureC();
    } else if i == 1 {
      PitchCSharp();
      CircleCSharp();
      SignatureCSharp();
    } else if i == 2 {
      PitchD();
      CircleD();
      SignatureD();
    } else if i == 3 {
      PitchDSharp();
      CircleDSharp();
      SignatureDSharp();
    } else if i == 4 {
      PitchE();
      CircleE();
      SignatureE();
    } else if i == 5 {
      PitchF();
      CircleF();
      SignatureF();
    } else if i == 6 {
      PitchFSharp();
      CircleFSharp();
      SignatureFSharp();
    } else if i == 7 {
      PitchG();
      CircleG();
      SignatureG();
    } else if i == 8 {
      PitchGSharp();
      CircleGSharp();
      SignatureGSharp();
    } else if i == 9 {
      PitchA();
      CircleA();
      SignatureA();
    } else if i == 10 {
      PitchASharp();
      CircleASharp();
      SignatureASharp();
    } else if i == 11 {
      PitchB();
      CircleB();
      SignatureB();
    }
  }

  /** The pentatonic positions of the key at index `i`. */
  lemma FretRow(i: nat)
    requires i < |Keys|
    ensures PentatonicPositions(Keys[i]) == Positions(FretLabel(RootFret(OpenE, i), 'E'), FretLabel(RootFret(OpenA, i), 'A'))
  {
    if i == 0 {
      PitchC();
      FretsC();
    } else if i == 1 {
      PitchCSharp();
      FretsCSharp();
    } else if i == 2 {
      PitchD();
      FretsD();
    } else if i == 3 {
      PitchDSharp();
      FretsDSharp();
    } else if i == 4 {
      PitchE();
      FretsE();
    } else if i == 5 {
      PitchF();
      FretsF();
    } else if i == 6 {
      PitchFSharp();
      FretsFSharp();
    } else if i == 7 {
      PitchG();
      FretsG();
    } else if i == 8 {
      PitchGSharp();
      FretsGSharp();
    } else if i == 9 {
      PitchA();
      FretsA();
    } else if i == 10 {
      PitchASharp();
      FretsASharp();
    } else if i == 11 {
      PitchB();
      FretsB();
    }
  }

  /** The entries of every labelled table for the key at index `i` are those
      the reference definitions give for semitone `i`. */
  lemma TableRow(i: nat)
    requires i < |Keys|
    ensures |Keys[i]| > 0 && PitchClass(Keys[i]) == i
    ensures CirclePosition(Keys[i]) == HourLabel(CircleHour(i))
    ensures KeySignature(Keys[i]) == SignatureForHour(CircleHour(i))
    ensures RootFret(OpenE, i) == (i + 7) % 12 + 1 && RootFret(OpenA, i) == (i + 2) % 12 + 1
    ensures PentatonicPositions(Keys[i]) == Positions(FretLabel(RootFret(OpenE, i), 'E'), FretLabel(RootFret(OpenA, i), 'A'))
  {
    PitchRow(i);
    LabelRow(i);
    FretRow(i);
  }

  /** Hour `p` of the circle of fifths holds the key 7 * p semitones above C
      (so 12 o'clock holds C), no other key shares that hour, and that key's
      signature has `p` sharps unless it is F (one flat) or C (none). */
  lemma CircleOfFifths(p: nat)
    requires 1 <= p <= 12
    ensures CirclePosition(Keys[(7 * p) % 12]) == HourLabel(p)
    ensures KeySignature(Keys[(7 * p) % 12]) == SignatureForHour(p)
    ensures forall i :: 0 <= i < |Keys| && CirclePosition(Keys[i]) == HourLabel(p) ==> i == (7 * p) % 12
  {
    var i := (7 * p) % 12;
    TableRow(i);
    HourOfFifth(p);
    forall j | 0 <= j < |Keys| && CirclePosition(Keys[j]) == HourLabel(p)
      ensures j == i
    {
      TableRow(j);
      HourLabelInjective(CircleHour(j), p);
    }
  }

  /** Seven semitones is a fifth and 7 * 7 = 1 (mod 12), so the key 7 * p
      semitones above C sits at hour `p`. */
  lemma HourOfFifth(p: nat)
    requires 1 <= p <= 12
    ensures CircleHour((7 * p) % 12) == p
  {
    var i := (7 * p) % 12;
    var q := (7 * p) / 12;
    assert 7 * p == 12 * q + i;
    assert 7 * i == p + 12 * (4 * p - 7 * q);
    assert (7 * i) % 12 == p % 12;
  }

  /** The decimal spelling of an hour: one digit up to 9, two from 10. */
  lemma HourDigits(n: nat)
    requires 1 <= n <= 12
    ensures Decimal(n) == if n < 10 then [Digit(n)] else [Digit(1), Digit(n - 10)]
  {
  }

  /** Different hours have different labels. */
  lemma HourLabelInjective(h1: nat, h2: nat)
    requires 1 <= h1 <= 12 && 1 <= h2 <= 12
    requires HourLabel(h1) == HourLabel(h2)
    ensures h1 == h2
  {
    HourDigits(h1);
    HourDigits(h2);
    assert Decimal(h1) == HourLabel(h1)[..|Decimal(h1)|];
    assert Decimal(h2) == HourLabel(h2)[..|Decimal(h2)|];
  }

  /** Each pentatonic starting position names the fret, in 1..12, at which
      the key's root sounds on the low-E and on the A string. */
  lemma PentatonicRoots(i: nat)
    requires i < |Keys|
    ensures var f1, f2 := RootFret(OpenE, i), RootFret(OpenA, i);
      && 1 <= f1 <= 12 && (OpenE + f1) % 12 == PitchClass(Keys[i])
      && 1 <= f2 <= 12 && (OpenA + f2) % 12 == PitchClass(Keys[i])
      && PentatonicPositions(Keys[i]) == Positions(FretLabel(f1, 'E'), FretLabel(f2, 'A'))
  {
    TableRow(i);
  }

  /** The key list ascends by one semitone per entry from C: the root the
      name at index `i` spells is `i` semitones above C, and the next key
      round the list, B to C included, is one semitone higher. */
  lemma KeysInSemitoneOrder(i: nat)
    requires i < |Keys|
    ensures PitchClass(Keys[i]) == i
    ensures PitchClass(Keys[(i + 1) % |Keys|]) == (PitchClass(Keys[i]) + 1) % 12
  {
    TableRow(i);
    TableRow((i + 1) % |Keys|);
  }

  /** The sharp keys, those the natural-key searches step over, are the five
      black keys C#, D#, F#, G# and A#. */
  lemma SharpKeys(i: nat)
    requires i < |Keys|
    ensures IsSharp(Keys[i]) <==> i in {1, 3, 6, 8, 10}
  {
    if i == 0 {
      assert Keys[0] == "C";
    } else if i == 1 {
      assert Keys[1] == "C#";
    } else if i == 2 {
      assert Keys[2] == "D";
    } else if i == 3 {
      assert Keys[3] == "D#";
    } else if i == 4 {
      assert Keys[4] == "E";
    } else if i == 5 {
      assert Keys[5] == "F";
    } else if i == 6 {
      assert Keys[6] == "F#";
    } else if i == 7 {
      assert Keys[7] == "G";
    } else if i == 8 {
      assert Keys[8] == "G#";
    } else if i == 9 {
      assert Keys[9] == "A";
    } else if i == 10 {
      assert Keys[10] == "A#";
    } else if i == 11 {
      assert Keys[11] == "B";
    }
  }
}
