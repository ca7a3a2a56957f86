/** The Hack assembler: lines are trimmed, a first pass binds each label to
    the address of the instruction after it, and a second pass turns every
    instruction into 16 characters of machine code, giving each new
    variable the next free cell from 16 on. */
module Assembler {
  import opened Options
  import opened Strings
  import opened Registers
  import opened MachineCode

  // ---------------------------------------------------------------------
  // C-instruction text
  // ---------------------------------------------------------------------

  /** `s.find(c)`, with `|s|` for "not found". */
  function IndexOf(s: string, c: char): (k: nat)
    ensures k <= |s|
    ensures forall i :: 0 <= i < k ==> s[i] != c
    ensures k < |s| ==> s[k] == c
  {
    if s == [] || s[0] == c then 0 else 1 + IndexOf(s[1..], c)
  }

  datatype CFields = CFields(computation: nat, destination: bv3, jump: nat)

  /** The fields a C-instruction line sets: the text before the first '='
      (if any) names the destination registers, as far as it is made of
      register letters; the text up to the next ';' is the computation; the
      text after that ';' is the jump. Unknown mnemonics leave their field
      at zero. */
  function CFieldsOf(line: string): (f: CFields)
    ensures f.computation < 128 && f.jump < 8
  {
    var rest := AfterDestination(line);
    CFields(ComputationField(rest), DestinationField(line), JumpField(rest))
  }

  function DestinationField(line: string): bv3 {
    var eq := IndexOf(line, '=');
    if eq < |line| then DestinationBits(line[..eq][..LetterRun(line[..eq])]) else 0
  }

  /** The line without its `dest=` part. */
  function AfterDestination(line: string): string {
    var eq := IndexOf(line, '=');
    if eq < |line| then line[eq + 1..] else line
  }

  function ComputationField(rest: string): (c: nat)
    ensures c < 128
  {
    var semi := IndexOf(rest, ';');
    ComputationCodeCases(rest[..semi]);
    ComputationCode(rest[..semi]).GetOr(0)
  }

  function JumpField(rest: string): (j: nat)
    ensures j < 8
  {
    JumpAfter(rest, IndexOf(rest, ';'))
  }

  /** The jump named after the ';' at `semi`, if there is one. */
  function JumpAfter(rest: string, semi: nat): (j: nat)
    requires semi <= |rest|
    ensures j < 8
  {
    if semi < |rest| then JumpCode(rest[semi + 1..]).GetOr(0) else 0
  }

  lemma JumpAfterIs(rest: string, semi: nat)
    requires semi < |rest|
    ensures JumpAfter(rest, semi) == JumpCode(rest[semi + 1..]).GetOr(0)
  {}

  /** Encodes a C-instruction line as the assembler does, through a
      CInstruction whose setters' failures are ignored. */
  method EncodeC(line: string) returns (machine: string)
    ensures var f := CFieldsOf(line); machine == CMachine(f.computation, f.destination, f.jump)
  {
    var instruction := new CInstruction();
    var view := line;
    var found := IndexOf(view, '=');
    if found < |view| {
      var _ := instruction.SetDestination(view[..found]);
      view := view[found + 1..];
    }
    assert instruction.destination == DestinationField(line);
    assert view == AfterDestination(line);
    ghost var rest := view;
    found := IndexOf(view, ';');
    var _ := instruction.SetComputation(view[..found]);
    assert instruction.computation == ComputationField(rest);
    if found < |view| {
      view := view[found + 1..];
      var _ := instruction.SetJump(view);
      assert instruction.jump == JumpCode(view).GetOr(0);
      JumpAfterIs(rest, found);
    } else {
      assert instruction.jump == JumpAfter(rest, found);
    }
    machine := instruction.ToMachine();
  }

  /** A C-instruction written out: `dest=` when there is a destination, the
      computation, and `;jump` when the jump is not code 0. */
  function CText(dest: string, computation: string, jump: nat): string
    requires jump < 8
  {
    (if dest != [] then dest + "=" else "") + computation + (if jump != 0 then ";" + JumpCodes[jump] else "")
  }

  /** The part of a C-instruction after its destination. */
  function CRest(computation: string, jump: nat): string
    requires jump < 8
  {
    computation + (if jump != 0 then ";" + JumpCodes[jump] else "")
  }

  /** `IndexOf` is pinned down by its contract. */
  lemma IndexOfIs(s: string, c: char, k: nat)
    requires k <= |s|
    requires forall i :: 0 <= i < k ==> s[i] != c
    requires k < |s| ==> s[k] == c
    ensures IndexOf(s, c) == k
  {
  }

  /** The `dest=` part of a line is read as the bits of its letters, and
      reading goes on after the '='. */
  lemma DestinationPart(dest: string, rest: string)
    requires forall k :: 0 <= k < |dest| ==> IsRegisterLetter(dest[k])
    requires '=' !in rest
    ensures var line := (if dest != [] then dest + "=" else "") + rest;
            AfterDestination(line) == rest && DestinationField(line) == DestinationBits(dest)
  {
    if dest != [] {
      LettersThenRest(dest, rest);
      assert (if dest != [] then dest + "=" else "") + rest == dest + "=" + rest;
    } else {
      NoDestination(rest);
      assert (if dest != [] then dest + "=" else "") + rest == rest;
    }
  }

  lemma LettersThenRest(dest: string, rest: string)
    requires dest != []
    requires forall k :: 0 <= k < |dest| ==> IsRegisterLetter(dest[k])
    requires '=' !in rest
    ensures AfterDestination(dest + "=" + rest) == rest
    ensures DestinationField(dest + "=" + rest) == DestinationBits(dest)
  {
    SplitAtEquals(dest, rest);
    LetterRunIs(dest, |dest|);
    assert dest[..|dest|] == dest;
  }

  /** The first '=' of `dest=rest` is the one after `dest`. */
  lemma SplitAtEquals(dest: string, rest: string)
    requires forall k :: 0 <= k < |dest| ==> IsRegisterLetter(dest[k])
    ensures var line := dest + "=" + rest;
            IndexOf(line, '=') == |dest| && line[..|dest|] == dest && line[|dest| + 1..] == rest
  {
    var line := dest + "=" + rest;
    assert forall k :: 0 <= k < |dest| ==> line[k] == dest[k];
    assert line[|dest|] == '=';
    IndexOfIs(line, '=', |dest|);
    assert line[..|dest|] == dest;
    assert line[|dest| + 1..] == rest;
  }

  lemma NoDestination(rest: string)
    requires '=' !in rest
    ensures AfterDestination(rest) == rest && DestinationField(rest) == 0
  {
    IndexOfIs(rest, '=', |rest|);
  }

  /** A table computation followed by an optional jump is read back as its
      code and the jump's code. */
  lemma RestPart(i: nat, jump: nat)
    requires i < 28 && jump < 8
    ensures '=' !in CRest(ComputationNames[i], jump)
    ensures ComputationField(CRest(ComputationNames[i], jump)) == ComputationBits[i]
    ensures JumpField(CRest(ComputationNames[i], jump)) == jump
  {
    var name := ComputationNames[i];
    MnemonicsHaveNoSeparators();
    ComputationRoundTrip(i);
    JumpRoundTrip(jump);
    RestFields(name, JumpCodes[jump], jump != 0);
    assert CRest(name, jump) == name + (if jump != 0 then ";" + JumpCodes[jump] else "");
  }

  /** Where the ';' of a computation and an optional jump falls. */
  lemma RestFields(name: string, jumpText: string, hasJump: bool)
    requires '=' !in name && ';' !in name && '=' !in jumpText
    ensures var rest := name + (if hasJump then ";" + jumpText else "");
            && '=' !in rest
            && IndexOf(rest, ';') == (if hasJump then |name| else |rest|)
            && rest[..IndexOf(rest, ';')] == name
            && (hasJump ==> rest[IndexOf(rest, ';') + 1..] == jumpText)
  {
    var rest := name + (if hasJump then ";" + jumpText else "");
    assert forall k :: 0 <= k < |name| ==> rest[k] == name[k];
    if hasJump {
      assert rest[|name|] == ';';
      IndexOfIs(rest, ';', |name|);
      assert rest[..|name|] == name;
      assert rest[|name| + 1..] == jumpText;
    } else {
      assert rest == name;
      IndexOfIs(rest, ';', |rest|);
    }
  }

  /** Reading a well-formed C-instruction gives the code of its computation,
      the bits of its destination letters (in any order, with repeats) and
      the code of its jump. */
  lemma CTextRoundTrip(dest: string, i: nat, jump: nat)
    requires forall k :: 0 <= k < |dest| ==> IsRegisterLetter(dest[k])
    requires i < 28 && jump < 8
    ensures CFieldsOf(CText(dest, ComputationNames[i], jump))
            == CFields(ComputationBits[i], DestinationBits(dest), jump)
  {
    var rest := CRest(ComputationNames[i], jump);
    RestPart(i, jump);
    FieldsAfterDestination(dest, rest);
    CTextSplit(dest, ComputationNames[i], jump);
  }

  lemma CTextSplit(dest: string, computation: string, jump: nat)
    requires jump < 8
    ensures CText(dest, computation, jump)
            == (if dest != [] then dest + "=" else "") + CRest(computation, jump)
  {
  }

  /** A line is read as its destination letters followed by the rest. */
  lemma FieldsAfterDestination(dest: string, rest: string)
    requires forall k :: 0 <= k < |dest| ==> IsRegisterLetter(dest[k])
    requires '=' !in rest
    ensures CFieldsOf((if dest != [] then dest + "=" else "") + rest)
            == CFields(ComputationField(rest), DestinationBits(dest), JumpField(rest))
  {
    DestinationPart(dest, rest);
  }

  /** Printing the fields read from a well-formed C-instruction gives the
      same text, except that the destination registers come out in A, D, M
      order and once each. */
  lemma CTextReprint(dest: string, i: nat, jump: nat)
    requires forall k :: 0 <= k < |dest| ==> IsRegisterLetter(dest[k])
    requires i < 28 && jump < 8
    ensures CAssembly(ComputationBits[i], DestinationBits(dest), jump)
            == CText(DestinationLetters(DestinationBits(dest)), ComputationNames[i], jump)
  {
    ComputationRoundTrip(i);
    DestinationLettersAreLetters(DestinationBits(dest));
  }

  /** Printing the fields of a C-instruction whose computation is in the
      table and reading the text back gives the same fields. */
  lemma CAssemblyRoundTrip(i: nat, destination: bv3, jump: nat)
    requires i < 28 && jump < 8
    ensures CFieldsOf(CAssembly(ComputationBits[i], destination, jump))
            == CFields(ComputationBits[i], destination, jump)
  {
    var letters := DestinationLetters(destination);
    DestinationLettersBits(destination);
    DestinationLettersAreLetters(destination);
    CTextReprint(letters, i, jump);
    CTextRoundTrip(letters, i, jump);
  }

  // ---------------------------------------------------------------------
  // Trimming
  // ---------------------------------------------------------------------

  /** Copies the characters of `buffer` that are not spaces or tabs, up to
      the first `//`. */
  method TrimLine(buffer: string) returns (line: string)
    ensures line == RemoveBlanks(StripComment(buffer))
  {
    line := "";
    var i := 0;
    while i < |buffer|
      invariant i <= |buffer|
      invariant forall k :: 0 <= k < i ==> !CommentAt(buffer, k)
      invariant line == RemoveBlanks(buffer[..i])
    {
      assert buffer[..i + 1][..i] == buffer[..i];
      if IsBlank(buffer[i]) {
        i := i + 1;
        continue;
      }
      if CommentAt(buffer, i) {
        break;
      }
      line := line + [buffer[i]];
      i := i + 1;
    }
    assert i == CommentStart(buffer);
  }

  /** The trimmed lines of a file, with the lines left empty dropped. */
  function TrimmedLines(raw: seq<string>): (lines: seq<string>)
    ensures |lines| <= |raw|
  {
    if raw == [] then []
    else
      var line := RemoveBlanks(StripComment(raw[|raw| - 1]));
      TrimmedLines(raw[..|raw| - 1]) + (if line == [] then [] else [line])
  }

  /** Every trimmed line is non-empty and has no spaces or tabs. */
  lemma {:induction false} TrimmedLinesWellFormed(raw: seq<string>)
    ensures forall k :: 0 <= k < |TrimmedLines(raw)| ==>
              TrimmedLines(raw)[k] != [] && NoBlanks(TrimmedLines(raw)[k])
    decreases |raw|
  {
    if raw != [] {
      TrimmedLinesWellFormed(raw[..|raw| - 1]);
    }
  }

  /** A line that is already trimmed, and has no `//`, is kept as it is;
      a line of blanks or a comment line is dropped. */
  lemma TrimmedLineCases(raw: seq<string>, line: string)
    ensures NoBlanks(line) && line != [] && CommentStart(line) == |line| ==>
              TrimmedLines(raw + [line]) == TrimmedLines(raw) + [line]
    ensures (forall i :: 0 <= i < |line| ==> IsBlank(line[i])) ==>
              TrimmedLines(raw + [line]) == TrimmedLines(raw)
    ensures CommentStart(line) == 0 ==> TrimmedLines(raw + [line]) == TrimmedLines(raw)
  {
    assert (raw + [line])[..|raw|] == raw;
    if NoBlanks(line) && CommentStart(line) == |line| {
      assert line[..|line|] == line;
      RemoveBlanksKeeps(line);
    }
    assert line[..|line|] == line;
    RemoveBlanksEmpty(line);
  }

  /** Reads the lines of a file, keeping the non-empty trimmed ones. */
  method TrimAll(raw: seq<string>) returns (lines: seq<string>)
    ensures lines == TrimmedLines(raw)
  {
    lines := [];
    for i := 0 to |raw|
      invariant lines == TrimmedLines(raw[..i])
    {
      assert raw[..i + 1][..i] == raw[..i];
      var line := TrimLine(raw[i]);
      if line != [] {
        lines := lines + [line];
      }
    }
    assert raw[..|raw|] == raw;
  }

  // ---------------------------------------------------------------------
  // Symbols and the first pass
  // ---------------------------------------------------------------------

  /** The symbols every program starts with. */
  const Predefined: map<string, nat> := map[
    "R0" := 0, "R1" := 1, "R2" := 2, "R3" := 3, "R4" := 4,
    "R5" := 5, "R6" := 6, "R7" := 7, "R8" := 8, "R9" := 9,
    "R10" := 10, "R11" := 11, "R12" := 12, "R13" := 13, "R14" := 14,
    "R15" := 15, "SCREEN" := 16384, "KBD" := 24576, "SP" := 0, "LCL" := 1,
    "ARG" := 2, "THIS" := 3, "THAT" := 4]

  /** Every predefined address is a 16-bit word. */
  lemma PredefinedFit()
    ensures forall name :: name in Predefined ==> Predefined[name] < 65536
  {
  }

  /** A `(name)` line, which declares a label rather than an instruction. */
  predicate IsLabel(line: string) {
    line != [] && line[0] == '(' && line[|line| - 1] == ')'
  }

  function LabelName(line: string): string
    requires IsLabel(line)
  {
    line[1..|line| - 1]
  }

  /** The number of instructions (lines that are not labels). */
  function InstructionCount(lines: seq<string>): (n: nat)
    ensures n <= |lines|
  {
    if lines == [] then 0
    else InstructionCount(lines[..|lines| - 1]) + (if IsLabel(lines[|lines| - 1]) then 0 else 1)
  }

  /** The symbol table after the first pass: the predefined symbols, with
      each label bound, in order, to the 16-bit count of the instructions
      before it. */
  function LabelTable(lines: seq<string>): map<string, nat>
  {
    if lines == [] then Predefined
    else
      var init := lines[..|lines| - 1];
      var line := lines[|lines| - 1];
      if IsLabel(line) then LabelTable(init)[LabelName(line) := InstructionCount(init) % 65536]
      else LabelTable(init)
  }

  /** Binds every label to the address of the instruction after it, with a
      16-bit counter. */
  method FirstPass(lines: seq<string>) returns (table: map<string, nat>)
    ensures table == LabelTable(lines)
  {
    table := Predefined;
    var counter := 0;
    for i := 0 to |lines|
      invariant table == LabelTable(lines[..i])
      invariant counter == InstructionCount(lines[..i]) % 65536
    {
      assert lines[..i + 1][..i] == lines[..i];
      if IsLabel(lines[i]) {
        table := table[LabelName(lines[i]) := counter];
      } else {
        counter := (counter + 1) % 65536;
      }
    }
    assert lines[..|lines|] == lines;
  }

  /** Every address in the table is a 16-bit word. */
  lemma {:induction false} LabelTableFits(lines: seq<string>)
    ensures forall name :: name in LabelTable(lines) ==> LabelTable(lines)[name] < 65536
    decreases |lines|
  {
    if lines == [] {
      PredefinedFit();
    } else {
      LabelTableFits(lines[..|lines| - 1]);
    }
  }

  /** The table holds exactly the predefined symbols and the labels. */
  lemma {:induction false} LabelTableDomain(lines: seq<string>, name: string)
    ensures name in LabelTable(lines) <==>
              name in Predefined
              || exists k :: 0 <= k < |lines| && IsLabel(lines[k]) && LabelName(lines[k]) == name
    decreases |lines|
  {
    if lines != [] {
      var init := lines[..|lines| - 1];
      LabelTableDomain(init, name);
      assert forall k :: 0 <= k < |init| ==> init[k] == lines[k];
    }
  }

  /** A label that is not declared again further on is bound to the number
      of instructions before it, modulo 2^16. */
  lemma {:induction false} LabelAddress(lines: seq<string>, k: nat)
    requires k < |lines| && IsLabel(lines[k])
    requires forall j :: k < j < |lines| && IsLabel(lines[j]) ==> LabelName(lines[j]) != LabelName(lines[k])
    ensures LabelName(lines[k]) in LabelTable(lines)
    ensures LabelTable(lines)[LabelName(lines[k])] == InstructionCount(lines[..k]) % 65536
    decreases |lines|
  {
    var init := lines[..|lines| - 1];
    if k < |lines| - 1 {
      assert init[k] == lines[k];
      assert init[..k] == lines[..k];
      LabelAddress(init, k);
    } else {
      assert init == lines[..k];
    }
  }

  /** A predefined symbol that no label redeclares keeps its address. */
  lemma {:induction false} PredefinedKept(lines: seq<string>, name: string)
    requires name in Predefined
    requires forall j :: 0 <= j < |lines| && IsLabel(lines[j]) ==> LabelName(lines[j]) != name
    ensures name in LabelTable(lines) && LabelTable(lines)[name] == Predefined[name]
    decreases |lines|
  {
    if lines != [] {
      var init := lines[..|lines| - 1];
      assert forall j :: 0 <= j < |init| ==> init[j] == lines[j];
      PredefinedKept(init, name);
    }
  }

  // ---------------------------------------------------------------------
  // The second pass
  // ---------------------------------------------------------------------

  /** The state of the second pass: the machine code written so far, the
      symbol table and the address the next new variable gets. */
  datatype Pass = Pass(output: seq<string>, table: map<string, nat>, nextVariable: nat)

  /** An A-instruction whose value is all digits (the empty value counts)
      but is empty or larger than 65535: it is reported and writes
      nothing. */
  predicate RejectedConstant(line: string) {
    line != [] && !IsLabel(line) && line[0] == '@' && AllDigits(line[1..])
    && (line[1..] == [] || ParseDecimal(line[1..]) > 65535)
  }

  /** One line of the second pass. Labels write nothing. An A-instruction
      with a digit value writes that value when it fits in 16 bits; one
      with a symbol writes the symbol's address, first giving an unknown
      symbol the next variable address (a 16-bit counter). Anything else
      is a C-instruction. */
  function Step(p: Pass, line: string): Pass
    requires line != []
  {
    if IsLabel(line) then p
    else if line[0] == '@' then AStep(p, line[1..])
    else Emit(p, CWord(line))
  }

  /** An A-instruction with value `value` (the text after '@'). */
  function AStep(p: Pass, value: string): Pass {
    if AllDigits(value) then
      if value != [] && ParseDecimal(value) <= 65535 then Emit(p, AMachine(ParseDecimal(value)))
      else p
    else if value in p.table then Emit(p, AMachine(p.table[value]))
    else Emit(Pass(p.output, p.table[value := p.nextVariable], Increment16(p.nextVariable)), AMachine(p.nextVariable))
  }

  /** The three kinds of line. */
  lemma StepCases(p: Pass, line: string)
    requires line != []
    ensures IsLabel(line) ==> Step(p, line) == p
    ensures !IsLabel(line) && line[0] == '@' ==> Step(p, line) == AStep(p, line[1..])
    ensures !IsLabel(line) && line[0] != '@' ==> Step(p, line) == p.(output := p.output + [CWord(line)])
  {}

  /** The three cases of an A-instruction. */
  lemma AStepCases(p: Pass, value: string)
    ensures AllDigits(value) && value != [] && ParseDecimal(value) <= 65535 ==>
              AStep(p, value) == p.(output := p.output + [AMachine(ParseDecimal(value))])
    ensures AllDigits(value) && !(value != [] && ParseDecimal(value) <= 65535) ==> AStep(p, value) == p
    ensures !AllDigits(value) && value in p.table ==>
              AStep(p, value) == p.(output := p.output + [AMachine(p.table[value])])
    ensures !AllDigits(value) && value !in p.table ==>
              AStep(p, value) == Pass(p.output + [AMachine(p.nextVariable)],
                                      p.table[value := p.nextVariable], Increment16(p.nextVariable))
  {}

  /** Writes one word. */
  function Emit(p: Pass, word: string): Pass {
    p.(output := p.output + [word])
  }

  /** The machine code of a C-instruction line. */
  function CWord(line: string): (r: string)
    ensures |r| == 16 && IsBinary(r)
  {
    var f := CFieldsOf(line);
    CMachine(f.computation, f.destination, f.jump)
  }

  /** One step keeps what was written and adds at most one word, none on
      a label. */
  lemma StepExtends(p: Pass, line: string)
    requires line != []
    ensures var out := Step(p, line).output;
            |p.output| <= |out| <= |p.output| + 1 && out[..|p.output|] == p.output
            && (IsLabel(line) ==> out == p.output)
  {
  }

  /** The word a step writes is 16 binary digits. */
  lemma StepWritesWord(p: Pass, line: string)
    requires line != []
    ensures var out := Step(p, line).output;
            |out| == |p.output| + 1 ==> |out[|p.output|]| == 16 && IsBinary(out[|p.output|])
  {
  }

  /** Every instruction but a rejected constant writes a word. */
  lemma StepWritesInstruction(p: Pass, line: string)
    requires line != []
    requires !IsLabel(line) && !RejectedConstant(line)
    ensures |Step(p, line).output| == |p.output| + 1
  {
  }

  /** Of the instructions, exactly the rejected constants leave the pass
      as it was. */
  lemma StepSkipsOnlyRejected(p: Pass, line: string)
    requires line != [] && !IsLabel(line)
    ensures Step(p, line) == p <==> RejectedConstant(line)
  {
    if !RejectedConstant(line) {
      StepWritesInstruction(p, line);
    }
  }

  /** A constant above 65535 is reported and writes nothing. */
  lemma StepRejectsConstant(p: Pass, value: nat)
    requires value > 65535
    ensures Step(p, "@" + NatToString(value)) == p
  {
    var line := "@" + NatToString(value);
    assert line[1..] == NatToString(value);
    ParseNatToString(value);
  }

  /** One step keeps the symbols already in the table, and gives at most
      one new symbol the next variable address. */
  lemma StepTable(p: Pass, line: string)
    requires line != []
    ensures var q := Step(p, line);
            (forall name :: name in p.table ==> name in q.table && q.table[name] == p.table[name])
            && (forall name :: name in q.table && name !in p.table ==> q.table[name] == p.nextVariable)
            && (forall a, b :: a in q.table && a !in p.table && b in q.table && b !in p.table ==> a == b)
            && (q.nextVariable == p.nextVariable || q.nextVariable == Increment16(p.nextVariable))
            && (q.nextVariable == p.nextVariable ==> q.table.Keys == p.table.Keys)
  {
    if !IsLabel(line) && line[0] == '@' {
      AStepTable(p, line[1..]);
    }
  }

  lemma AStepTable(p: Pass, value: string)
    ensures var q := AStep(p, value);
            (forall name :: name in p.table ==> name in q.table && q.table[name] == p.table[name])
            && (forall name :: name in q.table && name !in p.table ==> name == value && q.table[name] == p.nextVariable)
            && (q.nextVariable == p.nextVariable || q.nextVariable == Increment16(p.nextVariable))
            && (q.nextVariable == p.nextVariable ==> q.table.Keys == p.table.Keys)
  {
  }

  /** An A-instruction with a symbol writes the symbol's address in the
      table after the step: the one it had, or the next variable address
      for a new symbol. */
  lemma StepSymbol(p: Pass, value: string)
    requires !AllDigits(value)
    ensures var q := Step(p, "@" + value);
            value in q.table && q.output == p.output + [AMachine(q.table[value])]
            && (value in p.table ==> q.table == p.table && q.nextVariable == p.nextVariable)
            && (value !in p.table ==> q.table[value] == p.nextVariable)
  {
    var line := "@" + value;
    assert line[1..] == value;
    assert !IsLabel(line);
  }

  /** The second pass over `lines`, from state `start`. */
  function Run(lines: seq<string>, start: Pass): Pass
    requires forall k :: 0 <= k < |lines| ==> lines[k] != []
  {
    if lines == [] then start
    else Step(Run(lines[..|lines| - 1], start), lines[|lines| - 1])
  }

  /** The second pass as the assembler starts it: no output, the table of
      the first pass, variables from address 16. */
  function SecondPassOf(lines: seq<string>, labels: map<string, nat>): Pass
    requires forall k :: 0 <= k < |lines| ==> lines[k] != []
  {
    Run(lines, Pass([], labels, 16))
  }

  /** Writes the machine code of every instruction, in order. */
  method SecondPass(lines: seq<string>, labels: map<string, nat>) returns (output: seq<string>)
    requires forall k :: 0 <= k < |lines| ==> lines[k] != []
    ensures output == SecondPassOf(lines, labels).output
  {
    output := [];
    var table := labels;
    var variableAddress := 16;
    for i := 0 to |lines|
      invariant Pass(output, table, variableAddress) == Run(lines[..i], Pass([], labels, 16))
    {
      var next := AssembleLine(Pass(output, table, variableAddress), lines[i]);
      output, table, variableAddress := next.output, next.table, next.nextVariable;
      RunSnoc(lines, i, Pass([], labels, 16));
    }
    assert lines[..|lines|] == lines;
  }

  /** One iteration of the second pass: a label writes nothing, an
      A-instruction is handled by AInstruction, and a C-instruction writes
      its encoding. */
  method AssembleLine(p: Pass, line: string) returns (q: Pass)
    requires line != []
    ensures q == Step(p, line)
  {
    StepCases(p, line);
    if IsLabel(line) {
      q := p;
    } else if line[0] == '@' {
      q := AInstruction(p, line[1..]);
    } else {
      var machine := EncodeC(line);
      assert machine == CWord(line);
      q := p.(output := p.output + [machine]);
    }
  }

  /** An A-instruction: a constant writes itself when it fits in 16 bits; a
      symbol writes its address, a new symbol being bound first to the next
      variable address. */
  method AInstruction(p: Pass, value: string) returns (q: Pass)
    ensures q == AStep(p, value)
  {
    var output, table, variableAddress := p.output, p.table, p.nextVariable;
    AStepCases(p, value);
    if AllDigits(value) {
      if value != [] && ParseDecimal(value) <= 65535 {
        output := output + [AMachine(ParseDecimal(value))];
      }
      q := Pass(output, table, variableAddress);
    } else {
      if value !in table {
        table := table[value := variableAddress];
        variableAddress := Increment16(variableAddress);
        assert table[value] == p.nextVariable;
      }
      output := output + [AMachine(table[value])];
      q := Pass(output, table, variableAddress);
    }
  }

  lemma RunSnoc(lines: seq<string>, i: nat, start: Pass)
    requires i < |lines|
    requires forall k :: 0 <= k < |lines| ==> lines[k] != []
    ensures Run(lines[..i + 1], start) == Step(Run(lines[..i], start), lines[i])
  {
    assert lines[..i + 1][..i] == lines[..i];
  }

  /** Every word is 16 binary digits. */
  predicate AllWords(output: seq<string>) {
    forall k :: 0 <= k < |output| ==> |output[k]| == 16 && IsBinary(output[k])
  }

  /** The second pass writes only 16-digit binary words. */
  lemma {:induction false} RunWritesWords(lines: seq<string>, start: Pass)
    requires forall k :: 0 <= k < |lines| ==> lines[k] != []
    requires AllWords(start.output)
    ensures AllWords(Run(lines, start).output)
    decreases |lines|
  {
    if lines != [] {
      var init := lines[..|lines| - 1];
      RunWritesWords(init, start);
      StepKeepsWords(Run(init, start), lines[|lines| - 1]);
    }
  }

  lemma StepKeepsWords(p: Pass, line: string)
    requires line != [] && AllWords(p.output)
    ensures AllWords(Step(p, line).output)
  {
    StepExtends(p, line);
    StepWritesWord(p, line);
    WordsExtend(p.output, Step(p, line).output);
  }

  lemma WordsExtend(before: seq<string>, after: seq<string>)
    requires AllWords(before)
    requires |before| <= |after| <= |before| + 1 && after[..|before|] == before
    requires |after| == |before| + 1 ==> |after[|before|]| == 16 && IsBinary(after[|before|])
    ensures AllWords(after)
  {
    forall k | 0 <= k < |after|
      ensures |after[k]| == 16 && IsBinary(after[k])
    {
      if k < |before| {
        assert after[k] == after[..|before|][k];
      }
    }
  }

  /** The output extends the starting output, and holds one word per
      instruction when no constant is rejected. */
  lemma {:induction false} RunWordCount(lines: seq<string>, start: Pass)
    requires forall k :: 0 <= k < |lines| ==> lines[k] != []
    ensures var out := Run(lines, start).output;
            |start.output| <= |out| <= |start.output| + InstructionCount(lines)
            && out[..|start.output|] == start.output
    ensures (forall k :: 0 <= k < |lines| ==> !RejectedConstant(lines[k])) ==>
              |Run(lines, start).output| == |start.output| + InstructionCount(lines)
    decreases |lines|
  {
    if lines != [] {
      var init := lines[..|lines| - 1];
      assert forall k :: 0 <= k < |init| ==> init[k] == lines[k];
      RunWordCount(init, start);
      var p := Run(init, start);
      var line := lines[|lines| - 1];
      StepExtends(p, line);
      if !IsLabel(line) && !RejectedConstant(line) {
        StepWritesInstruction(p, line);
      }
      var out := Step(p, line).output;
      assert out[..|start.output|] == out[..|p.output|][..|start.output|];
    }
  }

  /** A symbol already in the table keeps its address. */
  lemma {:induction false} RunKeepsTable(lines: seq<string>, start: Pass, name: string)
    requires forall k :: 0 <= k < |lines| ==> lines[k] != []
    requires name in start.table
    ensures name in Run(lines, start).table && Run(lines, start).table[name] == start.table[name]
    decreases |lines|
  {
    if lines != [] {
      RunKeepsTable(lines[..|lines| - 1], start, name);
      StepTable(Run(lines[..|lines| - 1], start), lines[|lines| - 1]);
    }
  }

  /** The symbols added to `base` have distinct addresses from 16 up to
      (not including) the next variable address. */
  ghost predicate FreshVariables(p: Pass, base: map<string, nat>) {
    (forall name :: name in base ==> name in p.table)
    && (forall name :: name in p.table && name !in base ==> 16 <= p.table[name] < p.nextVariable)
    && (forall a, b :: a in p.table && b in p.table && a !in base && b !in base && a != b ==>
          p.table[a] != p.table[b])
  }

  /** While the variable counter does not wrap, every new variable gets an
      address of its own, above the predefined registers. */
  lemma {:induction false} RunAllocatesFresh(lines: seq<string>, start: Pass, base: map<string, nat>)
    requires forall k :: 0 <= k < |lines| ==> lines[k] != []
    requires FreshVariables(start, base) && 16 <= start.nextVariable
    requires start.nextVariable + |lines| < 65536
    ensures FreshVariables(Run(lines, start), base)
    ensures start.nextVariable <= Run(lines, start).nextVariable <= start.nextVariable + |lines|
    decreases |lines|
  {
    if lines != [] {
      var init := lines[..|lines| - 1];
      assert forall k :: 0 <= k < |init| ==> init[k] == lines[k];
      RunAllocatesFresh(init, start, base);
      var p := Run(init, start);
      var q := Step(p, lines[|lines| - 1]);
      assert Run(lines, start) == q;
      StepTable(p, lines[|lines| - 1]);
      FreshStep(p, q, base);
    }
  }

  /** `n + 1` in 16-bit unsigned arithmetic: 65535 wraps to 0. */
  function Increment16(n: nat): (r: nat)
    ensures r < 65536
    ensures n + 1 < 65536 ==> r == n + 1
    ensures n == 65535 ==> r == 0
  {
    (n + 1) % 65536
  }

  /** Adding at most one symbol, at the next variable address, keeps the
      new variables distinct while the counter does not wrap. */
  lemma FreshStep(p: Pass, q: Pass, base: map<string, nat>)
    requires FreshVariables(p, base) && 16 <= p.nextVariable && p.nextVariable + 1 < 65536
    requires forall name :: name in p.table ==> name in q.table && q.table[name] == p.table[name]
    requires forall name :: name in q.table && name !in p.table ==> q.table[name] == p.nextVariable
    requires q.nextVariable == p.nextVariable || q.nextVariable == Increment16(p.nextVariable)
    requires forall a, b :: a in q.table && a !in p.table && b in q.table && b !in p.table ==> a == b
    requires q.nextVariable == p.nextVariable ==> q.table.Keys == p.table.Keys
    ensures FreshVariables(q, base)
  {
    if q.nextVariable != p.nextVariable {
      assert q.nextVariable == p.nextVariable + 1;
      forall name | name in q.table && name !in base
        ensures 16 <= q.table[name] < q.nextVariable
      {
        if name in p.table {
          assert q.table[name] == p.table[name];
        }
      }
    } else {
      forall name | name in q.table
        ensures name in p.table && q.table[name] == p.table[name]
      {
        assert name in q.table.Keys;
      }
    }
  }

  /** Constants from 32768 to 65535 are accepted but lose their top bit:
      they write the same word as the constant 32768 below them. */
  lemma ConstantLosesTopBit(p: Pass, value: nat)
    requires 32768 <= value <= 65535
    ensures Step(p, "@" + NatToString(value)) == Step(p, "@" + NatToString(value - 32768))
  {
    StepConstant(p, value);
    StepConstant(p, value - 32768);
    assert value % 32768 == (value - 32768) % 32768;
  }

  /** A constant that fits in 16 bits writes its A-instruction word. */
  lemma StepConstant(p: Pass, value: nat)
    requires value <= 65535
    ensures Step(p, "@" + NatToString(value)) == p.(output := p.output + [AMachine(value)])
  {
    var line := "@" + NatToString(value);
    assert line[1..] == NatToString(value);
    ParseNatToString(value);
  }

  // ---------------------------------------------------------------------
  // The whole assembler
  // ---------------------------------------------------------------------

  /** The machine code of a file: trimmed lines, labels bound by the first
      pass, one word per instruction from the second pass. */
  function Assembled(raw: seq<string>): seq<string>
  {
    var lines := TrimmedLines(raw);
    TrimmedLinesWellFormed(raw);
    SecondPassOf(lines, LabelTable(lines)).output
  }

  /** Trims the lines of a file, binds its labels and writes its machine
      code. */
  method Assemble(raw: seq<string>) returns (output: seq<string>)
    ensures output == Assembled(raw)
  {
    var lines := TrimAll(raw);
    TrimmedLinesWellFormed(raw);
    var labels := FirstPass(lines);
    output := SecondPass(lines, labels);
  }

  /** The machine code is one 16-digit binary word per instruction (fewer
      only when a constant is rejected), labels and predefined symbols keep
      their first-pass addresses, and variables get distinct addresses from
      16 on while fewer than 65520 lines are assembled. */
  lemma AssembledProperties(raw: seq<string>, name: string)
    ensures AllWords(Assembled(raw)) && |Assembled(raw)| <= InstructionCount(TrimmedLines(raw))
    ensures var lines := TrimmedLines(raw);
            (forall k :: 0 <= k < |lines| ==> lines[k] != [] && !RejectedConstant(lines[k])) ==>
              |Assembled(raw)| == InstructionCount(lines)
    ensures var lines := TrimmedLines(raw);
            (forall k :: 0 <= k < |lines| ==> lines[k] != []) && name in LabelTable(lines) ==>
              name in SecondPassOf(lines, LabelTable(lines)).table
              && SecondPassOf(lines, LabelTable(lines)).table[name] == LabelTable(lines)[name]
    ensures var lines := TrimmedLines(raw);
            (forall k :: 0 <= k < |lines| ==> lines[k] != []) && 16 + |lines| < 65536 ==>
              FreshVariables(SecondPassOf(lines, LabelTable(lines)), LabelTable(lines))
  {
    var lines := TrimmedLines(raw);
    TrimmedLinesWellFormed(raw);
    var start := Pass([], LabelTable(lines), 16);
    RunWritesWords(lines, start);
    RunWordCount(lines, start);
    if name in LabelTable(lines) {
      RunKeepsTable(lines, start, name);
    }
    if 16 + |lines| < 65536 {
      RunAllocatesFresh(lines, start, LabelTable(lines));
    }
  }
}
