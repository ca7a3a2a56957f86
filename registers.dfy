/** The registers a C-instruction writes, as letters and as the three
    destination bits. */
module Registers {
  /** The destination bit of a register letter: A is 4, D is 2, M is 1. */
  function LetterBit(c: char): bv3 {
    if c == 'A' then 4 else if c == 'D' then 2 else if c == 'M' then 1 else 0
  }

  predicate IsRegisterLetter(c: char) {
    c == 'A' || c == 'D' || c == 'M'
  }

  /** The bits of a run of register letters, in any order and with repeats. */
  function DestinationBits(letters: string): bv3 {
    if letters == [] then 0
    else DestinationBits(letters[..|letters| - 1]) | LetterBit(letters[|letters| - 1])
  }

  /** Length of the leading run of register letters. */
  function LetterRun(s: string): (n: nat)
    ensures n <= |s|
    ensures forall i :: 0 <= i < n ==> IsRegisterLetter(s[i])
    ensures n < |s| ==> !IsRegisterLetter(s[n])
  {
    if s == [] || !IsRegisterLetter(s[0]) then 0 else 1 + LetterRun(s[1..])
  }

  /** Register letters always set some bit. */
  lemma {:induction false} DestinationBitsNonzero(letters: string)
    requires forall i :: 0 <= i < |letters| ==> IsRegisterLetter(letters[i])
    ensures DestinationBits(letters) != 0 <==> letters != []
  {
    if letters != [] {
      var c := letters[|letters| - 1];
      assert LetterBit(c) != 0;
    }
  }

  /** The letters of the registers set in `destination`, in A, D, M order. */
  function DestinationLetters(destination: bv3): string {
    (if destination & 4 != 0 then "A" else "")
    + (if destination & 2 != 0 then "D" else "")
    + (if destination & 1 != 0 then "M" else "")
  }

  /** Printing the registers of a destination and reading them back gives
      the destination. */
  lemma DestinationLettersBits(destination: bv3)
    ensures DestinationBits(DestinationLetters(destination)) == destination
  {
    var a := if destination & 4 != 0 then "A" else "";
    var d := if destination & 2 != 0 then "D" else "";
    var m := if destination & 1 != 0 then "M" else "";
    DestinationBitsSnoc(a, d);
    DestinationBitsSnoc(a + d, m);
    OneLetterBits(a, 'A');
    OneLetterBits(d, 'D');
    OneLetterBits(m, 'M');
    BitsOfFlags(destination);
  }

  /** No letter or one letter. */
  lemma OneLetterBits(s: string, c: char)
    requires s == [] || s == [c]
    ensures DestinationBits(s) == if s == [] then 0 else LetterBit(c)
  {
    if s != [] {
      assert s[..0] == [];
    }
  }

  /** A destination is the union of its three bits. */
  lemma BitsOfFlags(destination: bv3)
    ensures (if destination & 4 != 0 then LetterBit('A') else 0)
          | (if destination & 2 != 0 then LetterBit('D') else 0)
          | (if destination & 1 != 0 then LetterBit('M') else 0) == destination
  {}

  /** Appending at most one letter adds that letter's bit. */
  lemma DestinationBitsSnoc(s: string, t: string)
    requires |t| <= 1
    ensures DestinationBits(s + t) == DestinationBits(s) | DestinationBits(t)
  {
    if t != [] {
      assert (s + t)[..|s + t| - 1] == s;
      assert DestinationBits(t) == 0 | LetterBit(t[0]);
    } else {
      assert s + t == s;
    }
  }

  /** The printed registers are register letters, and there are none
      exactly when the destination is 0. */
  lemma DestinationLettersAreLetters(destination: bv3)
    ensures DestinationLetters(destination) == [] <==> destination == 0
    ensures forall i :: 0 <= i < |DestinationLetters(destination)| ==>
              IsRegisterLetter(DestinationLetters(destination)[i])
  {
    var letters := DestinationLetters(destination);
    assert |letters| <= 3;
    assert destination == 0 ==> destination & 4 == 0 && destination & 2 == 0 && destination & 1 == 0;
    assert destination != 0 ==> destination & 4 != 0 || destination & 2 != 0 || destination & 1 != 0;
  }

  lemma {:induction false} LetterRunIs(s: string, k: nat)
    requires k <= |s|
    requires forall i :: 0 <= i < k ==> IsRegisterLetter(s[i])
    requires k < |s| ==> !IsRegisterLetter(s[k])
    ensures LetterRun(s) == k
    decreases k
  {
    if k > 0 {
      LetterRunIs(s[1..], k - 1);
    }
  }
}
