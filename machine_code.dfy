/** Hack machine instructions as the assembler writes them: 16 characters
    of '0' and '1'. An A-instruction is '0' and a 15-bit value; a
    C-instruction is "111", a 7-bit computation, a 3-bit destination and a
    3-bit jump condition. */
module MachineCode {
  import opened Options
  import opened Strings
  import opened Registers

  // ---------------------------------------------------------------------
  // Mnemonic tables
  // ---------------------------------------------------------------------

  /** The 28 computation mnemonics, in table order ... */
  const ComputationNames: seq<string> := [
    "0", "1", "-1", "D", "A", "!D", "!A", "-D", "-A", "D+1", "A+1", "D-1", "A-1", "D+A",
    "D-A", "A-D", "D&A", "D|A", "M", "!M", "-M", "M+1", "M-1", "D+M", "D-M", "M-D",
    "D&M", "D|M"]

  /** ... and their 7-bit codes (the `a` bit first), entry by entry. */
  const ComputationBits: seq<nat> := [
    42, 63, 58, 12, 48, 13, 49, 15, 51, 31, 55, 14, 50, 2, 19, 7, 0, 21, 112, 113, 115,
    119, 114, 66, 83, 71, 64, 85]

  /** The jump conditions, indexed by their 3-bit code; code 0 is the empty
      mnemonic (no jump). */
  const JumpCodes: seq<string> := ["", "JGT", "JEQ", "JGE", "JLT", "JNE", "JLE", "JMP"]

  /** Position of the first table entry named `mnemonic` at or after
      `from`, or the table size. */
  function FindComputation(mnemonic: string, from: nat): (k: nat)
    requires from <= 28
    ensures from <= k <= 28
    ensures k < 28 ==> ComputationNames[k] == mnemonic
    ensures forall i :: from <= i < k ==> ComputationNames[i] != mnemonic
    decreases 28 - from
  {
    if from == 28 || ComputationNames[from] == mnemonic then from
    else FindComputation(mnemonic, from + 1)
  }

  /** The code of a computation mnemonic, if the table has it. */
  function ComputationCode(mnemonic: string): Option<nat> {
    var k := FindComputation(mnemonic, 0);
    if k < 28 then Some(ComputationBits[k]) else None
  }

  /** Position of the first table entry with code `code` at or after
      `from`, or the table size. */
  function FindMnemonic(code: nat, from: nat): (k: nat)
    requires from <= 28
    ensures from <= k <= 28
    ensures k < 28 ==> ComputationBits[k] == code
    ensures forall i :: from <= i < k ==> ComputationBits[i] != code
    decreases 28 - from
  {
    if from == 28 || ComputationBits[from] == code then from
    else FindMnemonic(code, from + 1)
  }

  /** The mnemonic of a computation code; empty for a code not in the table. */
  function ComputationMnemonic(code: nat): string {
    var k := FindMnemonic(code, 0);
    if k < 28 then ComputationNames[k] else ""
  }

  /** Position of the jump mnemonic, or 8 when there is none. */
  function FindJump(mnemonic: string, from: nat): (k: nat)
    requires from <= |JumpCodes|
    ensures from <= k <= |JumpCodes|
    ensures k < |JumpCodes| ==> JumpCodes[k] == mnemonic
    ensures forall i :: from <= i < k ==> JumpCodes[i] != mnemonic
    decreases |JumpCodes| - from
  {
    if from == |JumpCodes| || JumpCodes[from] == mnemonic then from
    else FindJump(mnemonic, from + 1)
  }

  function JumpCode(mnemonic: string): Option<nat> {
    var k := FindJump(mnemonic, 0);
    if k < |JumpCodes| then Some(k) else None
  }

  /** Every computation code fits in seven bits. */
  lemma ComputationCodesFit()
    ensures forall i :: 0 <= i < 28 ==> ComputationBits[i] < 128
  {
  }

  /** No two computations share a code. */
  lemma ComputationCodesDistinct()
    ensures forall i, j :: 0 <= i < j < 28 ==> ComputationBits[i] != ComputationBits[j]
  {
  }

  /** No two computations share a mnemonic. */
  lemma ComputationNamesDistinct()
    ensures forall i, j :: 0 <= i < j < 28 ==> ComputationNames[i] != ComputationNames[j]
  {
  }

  /** Each table entry is found by its mnemonic and by its code: reading a
      mnemonic and printing the code back are inverse on the table. */
  lemma ComputationRoundTrip(i: nat)
    requires i < 28
    ensures ComputationCode(ComputationNames[i]) == Some(ComputationBits[i])
    ensures ComputationMnemonic(ComputationBits[i]) == ComputationNames[i]
  {
    FoundByName(i);
    FoundByCode(i);
  }

  lemma FoundByName(i: nat)
    requires i < 28
    ensures FindComputation(ComputationNames[i], 0) == i
  {
    ComputationNamesDistinct();
  }

  lemma FoundByCode(i: nat)
    requires i < 28
    ensures FindMnemonic(ComputationBits[i], 0) == i
  {
    ComputationCodesDistinct();
  }

  /** A mnemonic the table has is an entry of it, its code fits in seven
      bits, and printing that code gives the mnemonic back. */
  lemma ComputationCodeCases(mnemonic: string)
    ensures ComputationCode(mnemonic).Some? <==> exists i :: 0 <= i < 28 && ComputationNames[i] == mnemonic
    ensures ComputationCode(mnemonic).Some? ==>
              ComputationCode(mnemonic).value < 128
              && ComputationMnemonic(ComputationCode(mnemonic).value) == mnemonic
  {
    var k := FindComputation(mnemonic, 0);
    if k < 28 {
      ComputationCodesFit();
      FoundByCode(k);
    }
  }

  /** Reading a jump mnemonic gives its position in the table. */
  lemma JumpRoundTrip(j: nat)
    requires j < 8
    ensures JumpCode(JumpCodes[j]) == Some(j)
  {
    assert forall i, k :: 0 <= i < k < 8 ==> JumpCodes[i] != JumpCodes[k];
    FindJumpIs(JumpCodes[j], j);
  }

  /** No mnemonic contains the '=' or ';' that separate the fields of a
      C-instruction. */
  lemma MnemonicsHaveNoSeparators()
    ensures forall i :: 0 <= i < 28 ==> '=' !in ComputationNames[i] && ';' !in ComputationNames[i]
    ensures forall j :: 0 <= j < 8 ==> '=' !in JumpCodes[j] && ';' !in JumpCodes[j]
  {
  }

  // ---------------------------------------------------------------------
  // A-instructions
  // ---------------------------------------------------------------------

  /** The A-instruction loading `value`: a '0' and the low 15 bits of the
      value, so values from 32768 on lose their top bit. */
  function AMachine(value: nat): (r: string)
    ensures |r| == 16 && IsBinary(r) && r[0] == '0'
    ensures FromBinary(r) == value % 32768
  {
    var r := "0" + Bits(value % 32768, 15);
    Pow2Values();
    FromBinaryBits(value % 32768, 15);
    LeadingZero(Bits(value % 32768, 15));
    r
  }

  /** The mnemonic form of an A-instruction: its 15-bit value in decimal. */
  function AAssembly(value: nat): (r: string)
    ensures |r| > 1 && r[0] == '@' && AllDigits(r[1..]) && ParseDecimal(r[1..]) == value % 32768
  {
    ParseNatToString(value % 32768);
    var r := "@" + NatToString(value % 32768);
    assert r[1..] == NatToString(value % 32768);
    r
  }

  /** A leading '0' does not change the value of a binary string. */
  lemma {:induction false} LeadingZero(s: string)
    ensures FromBinary("0" + s) == FromBinary(s)
    decreases |s|
  {
    if s != [] {
      var t := "0" + s;
      assert t[..|t| - 1] == "0" + s[..|s| - 1];
      LeadingZero(s[..|s| - 1]);
    }
  }

  // ---------------------------------------------------------------------
  // C-instructions
  // ---------------------------------------------------------------------

  /** A C-instruction under construction: its three fields start at zero
      and each setter overwrites or extends one of them. */
  class CInstruction {
    var computation: nat
    var destination: bv3
    var jump: nat

    ghost predicate Valid()
      reads this
    {
      computation < 128 && jump < 8
    }

    constructor()
      ensures Valid() && computation == 0 && destination == 0 && jump == 0
    {
      computation := 0;
      destination := 0;
      jump := 0;
    }

    /** Looks the mnemonic up in the table; an unknown mnemonic leaves the
        computation as it was. */
    method SetComputation(mnemonic: string) returns (found: bool)
      requires Valid()
      modifies this
      ensures Valid()
      ensures found == ComputationCode(mnemonic).Some?
      ensures computation == if found then ComputationCode(mnemonic).value else old(computation)
      ensures destination == old(destination) && jump == old(jump)
    {
      ComputationCodesFit();
      for i := 0 to 28
        invariant FindComputation(mnemonic, i) == FindComputation(mnemonic, 0)
      {
        if ComputationNames[i] == mnemonic {
          computation := ComputationBits[i];
          return true;
        }
      }
      return false;
    }

    /** Sets the bit of each letter in turn; at the first letter that is
        not a register it stops and reports failure, keeping the bits
        already set. */
    method SetDestination(letters: string) returns (ok: bool)
      requires Valid()
      modifies this
      ensures Valid()
      ensures ok <==> LetterRun(letters) == |letters|
      ensures destination == old(destination) | DestinationBits(letters[..LetterRun(letters)])
      ensures computation == old(computation) && jump == old(jump)
    {
      for i := 0 to |letters|
        invariant destination == old(destination) | DestinationBits(letters[..i])
        invariant computation == old(computation) && jump == old(jump)
        invariant forall k :: 0 <= k < i ==> IsRegisterLetter(letters[k])
      {
        assert letters[..i + 1][..i] == letters[..i];
        if letters[i] == 'A' {
          destination := destination | 4;
        } else if letters[i] == 'D' {
          destination := destination | 2;
        } else if letters[i] == 'M' {
          destination := destination | 1;
        } else {
          LetterRunIs(letters, i);
          return false;
        }
      }
      LetterRunIs(letters, |letters|);
      assert letters[..|letters|] == letters;
      return true;
    }

    /** Looks the mnemonic up among the eight jump conditions (the empty
        mnemonic is code 0); an unknown one leaves the jump as it was. */
    method SetJump(mnemonic: string) returns (found: bool)
      requires Valid()
      modifies this
      ensures Valid()
      ensures found == JumpCode(mnemonic).Some?
      ensures jump == if found then JumpCode(mnemonic).value else old(jump)
      ensures computation == old(computation) && destination == old(destination)
    {
      var i := 0;
      while i < 8 && JumpCodes[i] != mnemonic
        invariant i <= 8
        invariant forall k :: 0 <= k < i ==> JumpCodes[k] != mnemonic
      {
        i := i + 1;
      }
      FindJumpIs(mnemonic, i);
      if i == 8 {
        return false;
      }
      jump := i;
      return true;
    }

    /** The 16 machine-code characters: "111", then the computation, the
        destination and the jump, each most significant bit first. */
    function ToMachine(): (r: string)
      requires Valid()
      reads this
      ensures |r| == 16 && IsBinary(r) && r[..3] == "111"
      ensures FromBinary(r[3..10]) == computation
      ensures FromBinary(r[10..13]) == destination as nat
      ensures FromBinary(r[13..]) == jump
    {
      CMachine(computation, destination, jump)
    }

    /** The mnemonic form: the destination registers in A, D, M order and
        '=' when there are any, the computation, and ';' with the jump when
        there is one. */
    function ToAssembly(): string
      requires Valid()
      reads this
    {
      CAssembly(computation, destination, jump)
    }
  }

  function CMachine(computation: nat, destination: bv3, jump: nat): (r: string)
    requires computation < 128 && jump < 8
    ensures |r| == 16 && IsBinary(r) && r[..3] == "111"
    ensures FromBinary(r[3..10]) == computation
    ensures FromBinary(r[10..13]) == destination as nat
    ensures FromBinary(r[13..]) == jump
  {
    var c, d, j := Bits(computation, 7), Bits(destination as nat, 3), Bits(jump, 3);
    var r := "111" + c + d + j;
    Pow2Values();
    CFieldsAt("111", c, d, j);
    FromBinaryBits(computation, 7);
    FromBinaryBits(destination as nat, 3);
    FromBinaryBits(jump, 3);
    r
  }

  /** Where the four parts of a C-instruction word lie. */
  lemma CFieldsAt(prefix: string, c: string, d: string, j: string)
    requires |prefix| == 3 && |c| == 7 && |d| == 3 && |j| == 3
    requires IsBinary(prefix) && IsBinary(c) && IsBinary(d) && IsBinary(j)
    ensures var r := prefix + c + d + j;
      |r| == 16 && IsBinary(r) && r[..3] == prefix && r[3..10] == c && r[10..13] == d && r[13..] == j
  {
    var r := prefix + c + d + j;
    assert r[..3] == prefix && r[3..10] == c && r[10..13] == d && r[13..] == j;
    forall i | 0 <= i < 16 ensures r[i] == '0' || r[i] == '1' {
      if i < 3 { assert r[i] == prefix[i]; }
      else if i < 10 { assert r[i] == c[i - 3]; }
      else if i < 13 { assert r[i] == d[i - 10]; }
      else { assert r[i] == j[i - 13]; }
    }
  }

  function CAssembly(computation: nat, destination: bv3, jump: nat): string
    requires jump < 8
  {
    (if destination != 0 then DestinationLetters(destination) + "=" else "")
    + ComputationMnemonic(computation)
    + (if jump != 0 then ";" + JumpCodes[jump] else "")
  }

  lemma {:induction false} FindJumpIs(mnemonic: string, k: nat)
    requires k <= 8
    requires forall i :: 0 <= i < k ==> JumpCodes[i] != mnemonic
    requires k < 8 ==> JumpCodes[k] == mnemonic
    ensures FindJump(mnemonic, 0) == k
  {
    FindJumpFrom(mnemonic, 0, k);
  }

  lemma {:induction false} FindJumpFrom(mnemonic: string, from: nat, k: nat)
    requires from <= k <= 8
    requires forall i :: from <= i < k ==> JumpCodes[i] != mnemonic
    requires k < 8 ==> JumpCodes[k] == mnemonic
    ensures FindJump(mnemonic, from) == k
    decreases k - from
  {
    if from < k {
      FindJumpFrom(mnemonic, from + 1, k);
    }
  }
}
