/** The VM commands and the exact Hack code each one is translated to,
    including the call/function/return calling convention. */
module Commands {
  import opened Options
  import opened Strings
  import opened HackSyntax
  import opened Addressing

  datatype Command =
    | Add | Sub | And | Or
    | Neg | Not
    | Eq(token: string) | Gt(token: string) | Lt(token: string)
    | Push(address: Address)
    | Pop(address: Address)
    | Label(name: string)
    | Goto(name: string)
    | IfGoto(name: string)
    | Call(callee: string, argumentCount: nat, returnLabel: string)
    | Function(name: string, localCount: nat)
    | Return

  // ---------------------------------------------------------------------
  // Building blocks
  // ---------------------------------------------------------------------

  /** SP = SP - 1, then D = the old top of the stack (A is left at it). */
  const PopToD: seq<Instruction> := [At("SP"), Assign("AM", "M-1"), Assign("D", "M")]

  /** The top of the stack = D, then SP = SP + 1. */
  const PushD: seq<Instruction> :=
    [At("SP"), Assign("A", "M"), Assign("M", "D"), At("SP"), Assign("M", "M+1")]

  /** Pop the right operand into D and point A at the left one, which is
      then overwritten by `write`. */
  function BinaryCode(write: string): seq<Instruction> {
    PopToD + [Assign("A", "A-1"), Assign("M", write)]
  }

  /** Point A at the top of the stack, which `write` overwrites. */
  function UnaryCode(write: string): seq<Instruction> {
    [At("SP"), Assign("A", "M-1"), Assign("M", write)]
  }

  /** The label a comparison jumps to when it is false, and the one both
      branches meet at; `kind` is eq, gt or lt. */
  function ElseLabel(token: string, kind: string): string {
    token + "$" + kind + "_else"
  }

  function EndLabel(token: string, kind: string): string {
    token + "$" + kind + "_end"
  }

  /** x = second from top, y = top: pop both, jump to the else label on
      the negated condition on x - y, push -1 (true) on fall-through and 0
      (false) at the else label. */
  function ComparisonCode(jump: string, elseLabel: string, endLabel: string): seq<Instruction> {
    CompareAndJump(jump, elseLabel) + TrueBranch(endLabel) + FalseBranch(elseLabel, endLabel)
  }

  /** D = x - y with SP lowered past y, then jump to `elseLabel` when the
      jump condition holds on D. */
  function CompareAndJump(jump: string, elseLabel: string): seq<Instruction> {
    PopToD + [Assign("A", "A-1"), Assign("D", "M-D"), At(elseLabel), JumpIf("D", jump)]
  }

  /** Overwrite x with -1 and skip the false branch. */
  function TrueBranch(endLabel: string): seq<Instruction> {
    [At("SP"), Assign("A", "M-1"), Assign("M", "-1"), At(endLabel), JumpIf("0", "JMP")]
  }

  /** Overwrite x with 0; both branches meet at the end label. */
  function FalseBranch(elseLabel: string, endLabel: string): seq<Instruction> {
    [Define(elseLabel), At("SP"), Assign("A", "M-1"), Assign("M", "0"), Define(endLabel)]
  }

  function PushCode(a: Address): seq<Instruction> {
    AddressingCode(a, kA) + LoadAndPush(ValueRegister(a))
  }

  /** D = the value held in register `v`, then push D. */
  function LoadAndPush(v: char): seq<Instruction> {
    [Assign("D", [v])] + PushD
  }

  /** A pointer-addressed target's location is computed into R15 before the
      pop, which needs A and D; every other target is addressed after it. */
  function PopCode(a: Address): seq<Instruction> {
    if IsPointerAddressed(a) then
      AddressingCode(a, kD) + PopThroughR15
    else
      PopToD + AddressingCode(a, kA) + [Assign("M", "D")]
  }

  /** R15 = D (the target location), pop into D, store it through R15. */
  const PopThroughR15: seq<Instruction> :=
    [At("R15"), Assign("M", "D")] + PopToD + [At("R15"), Assign("A", "M"), Assign("M", "D")]

  /** The caller's frame cells, in the order a call saves them. */
  const FramePointers: seq<string> := ["LCL", "ARG", "THIS", "THAT"]

  /** Push the cell `pointer` (SP is advanced first: the slot below was
      already written). */
  function SavePointer(pointer: string): seq<Instruction> {
    [At(pointer), Assign("D", "M"), At("SP"), Assign("AM", "M+1"), Assign("M", "D")]
  }

  function SaveFrame(pointers: seq<string>): seq<Instruction> {
    if pointers == [] then []
    else SaveFrame(pointers[..|pointers| - 1]) + SavePointer(pointers[|pointers| - 1])
  }

  /** Write the return address at the top of the stack. */
  function CallPrologue(returnLabel: string): seq<Instruction> {
    [At(returnLabel), Assign("D", "A"), At("SP"), Assign("A", "M"), Assign("M", "D")]
  }

  /** SP = SP + 1, past the last saved cell, also into D. */
  const SkipFrame: seq<Instruction> := [At("SP"), Assign("MD", "M+1")]

  /** ARG = D - offset, LCL = SP, jump to the callee, and define the return
      label after the jump. */
  function CallJump(callee: string, offset: string, returnLabel: string): seq<Instruction> {
    [ At(offset), Assign("D", "D-A"), At("ARG"), Assign("M", "D"),
      At("SP"), Assign("D", "M"), At("LCL"), Assign("M", "D"),
      At(callee), JumpIf("0", "JMP"),
      Define(returnLabel) ]
  }

  /** The offset from the new SP back to argument 0: the five saved cells
      and the arguments. */
  function CallCode(callee: string, argumentCount: nat, returnLabel: string): seq<Instruction> {
    CallPrologue(returnLabel) + SaveFrame(FramePointers) + SkipFrame
    + CallJump(callee, NatToString(5 + argumentCount), returnLabel)
  }

  /** Zero the cell SP points at. */
  const ZeroFirst: seq<Instruction> := [At("SP"), Assign("A", "M"), Assign("M", "0")]

  /** Advance SP and zero the cell it then points at. */
  const ZeroNext: seq<Instruction> := [At("SP"), Assign("AM", "M+1"), Assign("M", "0")]

  /** Step SP past the last zeroed cell. */
  const StepPast: seq<Instruction> := [At("SP"), Assign("M", "M+1")]

  function FunctionCode(name: string, localCount: nat): seq<Instruction> {
    if localCount == 0 then [Define(name)]
    else [Define(name)] + ZeroFirst + Repeat(ZeroNext, localCount - 1) + StepPast
  }

  /** D = the cell `offset` below LCL, then `target` = D. */
  function RestoreFrom(offset: string, target: string): seq<Instruction> {
    [ At(offset), Assign("D", "A"), At("LCL"), Assign("A", "M-D"), Assign("D", "M"),
      At(target), Assign("M", "D") ]
  }

  /** Argument 0 = the return value on top of the stack. */
  const MoveReturnValue: seq<Instruction> :=
    [At("SP"), Assign("A", "M-1"), Assign("D", "M"), At("ARG"), Assign("A", "M"), Assign("M", "D")]

  /** SP = just above argument 0. */
  const ResetStack: seq<Instruction> := [At("ARG"), Assign("D", "M+1"), At("SP"), Assign("M", "D")]

  /** THAT = the cell just below LCL. */
  const RestoreThat: seq<Instruction> :=
    [At("LCL"), Assign("A", "M-1"), Assign("D", "M"), At("THAT"), Assign("M", "D")]

  /** Jump to the address saved in R15. */
  const JumpBack: seq<Instruction> := [At("R15"), Assign("A", "M"), JumpIf("0", "JMP")]

  const ReturnCode: seq<Instruction> :=
    RestoreFrom("5", "R15") + (MoveReturnValue + (ResetStack + (RestoreThat
    + (RestoreFrom("2", "THIS") + (RestoreFrom("3", "ARG") + (RestoreFrom("4", "LCL")
    + JumpBack))))))

  // ---------------------------------------------------------------------
  // Translation
  // ---------------------------------------------------------------------

  function Code(c: Command): seq<Instruction> {
    match c
    case Add => BinaryCode("D+M")
    case Sub => BinaryCode("M-D")
    case And => BinaryCode("D&M")
    case Or => BinaryCode("D|M")
    case Neg => UnaryCode("-M")
    case Not => UnaryCode("!M")
    case Eq(t) => ComparisonCode("JNE", ElseLabel(t, "eq"), EndLabel(t, "eq"))
    case Gt(t) => ComparisonCode("JLE", ElseLabel(t, "gt"), EndLabel(t, "gt"))
    case Lt(t) => ComparisonCode("JGE", ElseLabel(t, "lt"), EndLabel(t, "lt"))
    case Push(a) => PushCode(a)
    case Pop(a) => PopCode(a)
    case Label(l) => [Define(l)]
    case Goto(l) => [At(l), JumpIf("0", "JMP")]
    case IfGoto(l) => PopToD + [At(l), JumpIf("D", "JNE")]
    case Call(f, n, r) => CallCode(f, n, r)
    case Function(f, k) => FunctionCode(f, k)
    case Return => ReturnCode
  }

  /** The assembly text of one command. */
  function ToAssembly(c: Command): string {
    Text(Code(c))
  }

  /** Every command's text is one or more whole lines, so the texts of
      consecutive commands never run into each other. */
  lemma ToAssemblyWholeLines(c: Command)
    ensures ToAssembly(c) != [] && ToAssembly(c)[|ToAssembly(c)| - 1] == '\n'
  {
    assert Code(c) != [];
    LinesEndWithBreak(Rendered(Code(c)));
  }

  lemma CallTextIs(callee: string, argumentCount: nat, returnLabel: string)
    ensures ToAssembly(Call(callee, argumentCount, returnLabel)) == Text(CallCode(callee, argumentCount, returnLabel))
  {}

  lemma FunctionTextIs(name: string, localCount: nat)
    ensures ToAssembly(Function(name, localCount)) == Text(FunctionCode(name, localCount))
  {}


  // ---------------------------------------------------------------------
  // The text of each command, line by line
  // ---------------------------------------------------------------------

  /** Add, Sub, And and Or pop y into D, point A at x and overwrite it
      with the result; only the last line differs. */
  lemma BinaryArithmeticText(c: Command)
    requires c.Add? || c.Sub? || c.And? || c.Or?
    ensures c.Add? ==> ToAssembly(c) == Lines(["@SP", "AM=M-1", "D=M", "A=A-1", "M=D+M"])
    ensures c.Sub? ==> ToAssembly(c) == Lines(["@SP", "AM=M-1", "D=M", "A=A-1", "M=M-D"])
    ensures c.And? ==> ToAssembly(c) == Lines(["@SP", "AM=M-1", "D=M", "A=A-1", "M=D&M"])
    ensures c.Or? ==> ToAssembly(c) == Lines(["@SP", "AM=M-1", "D=M", "A=A-1", "M=D|M"])
  {
    match c
    case Add =>
      BinaryLines("D+M");
      assert "M=" + "D+M" == "M=D+M";
    case Sub =>
      BinaryLines("M-D");
      assert "M=" + "M-D" == "M=M-D";
    case And =>
      BinaryLines("D&M");
      assert "M=" + "D&M" == "M=D&M";
    case Or =>
      BinaryLines("D|M");
      assert "M=" + "D|M" == "M=D|M";
  }

  /** Neg and Not point A at the top of the stack and overwrite it. */
  lemma UnaryArithmeticText(c: Command)
    requires c.Neg? || c.Not?
    ensures c.Neg? ==> ToAssembly(c) == Lines(["@SP", "A=M-1", "M=-M"])
    ensures c.Not? ==> ToAssembly(c) == Lines(["@SP", "A=M-1", "M=!M"])
  {
    match c
    case Neg =>
      UnaryLines("-M");
      assert "M=" + "-M" == "M=-M";
    case Not =>
      UnaryLines("!M");
      assert "M=" + "!M" == "M=!M";
  }

  lemma BinaryLines(w: string)
    ensures Text(BinaryCode(w)) == Lines(["@SP", "AM=M-1", "D=M", "A=A-1", "M=" + w])
  {
    var code, lines := BinaryCode(w), ["@SP", "AM=M-1", "D=M", "A=A-1", "M=" + w];
    forall k | 0 <= k < 5 ensures Render(code[k]) == lines[k] {
      assert k == 0 || k == 1 || k == 2 || k == 3 || k == 4;
    }
    TextOfLines(code, lines);
  }

  lemma UnaryLines(w: string)
    ensures Text(UnaryCode(w)) == Lines(["@SP", "A=M-1", "M=" + w])
  {
    var code, lines := UnaryCode(w), ["@SP", "A=M-1", "M=" + w];
    forall k | 0 <= k < 3 ensures Render(code[k]) == lines[k] {
      assert k == 0 || k == 1 || k == 2;
    }
    TextOfLines(code, lines);
  }

  /** The comparison text: the else label and jump condition on x - y, -1
      pushed on fall-through and 0 at the else label, both meeting at the
      end label. */
  lemma ComparisonText(c: Command)
    requires c.Eq? || c.Gt? || c.Lt?
    ensures ToAssembly(c)
      == Lines(["@SP", "AM=M-1", "D=M", "A=A-1", "D=M-D", "@" + ElseLabel(c.token, Kind(c)), "D;" + Jump(c)]
             + ["@SP", "A=M-1", "M=-1", "@" + EndLabel(c.token, Kind(c)), "0;JMP"]
             + ["(" + ElseLabel(c.token, Kind(c)) + ")", "@SP", "A=M-1", "M=0", "(" + EndLabel(c.token, Kind(c)) + ")"])
  {
    ComparisonLines(Jump(c), ElseLabel(c.token, Kind(c)), EndLabel(c.token, Kind(c)));
  }

  /** The name each comparison gives its labels. */
  function Kind(c: Command): (k: string)
    requires c.Eq? || c.Gt? || c.Lt?
    ensures k in {"eq", "gt", "lt"}
  {
    if c.Eq? then "eq" else if c.Gt? then "gt" else "lt"
  }

  /** The jump taken when the comparison is false. */
  function Jump(c: Command): string
    requires c.Eq? || c.Gt? || c.Lt?
  {
    if c.Eq? then "JNE" else if c.Gt? then "JLE" else "JGE"
  }

  lemma ComparisonLines(jump: string, elseLabel: string, endLabel: string)
    ensures Text(ComparisonCode(jump, elseLabel, endLabel))
      == Lines(["@SP", "AM=M-1", "D=M", "A=A-1", "D=M-D", "@" + elseLabel, "D;" + jump]
             + ["@SP", "A=M-1", "M=-1", "@" + endLabel, "0;JMP"]
             + ["(" + elseLabel + ")", "@SP", "A=M-1", "M=0", "(" + endLabel + ")"])
  {
    var p1, p2, p3 := CompareAndJump(jump, elseLabel), TrueBranch(endLabel), FalseBranch(elseLabel, endLabel);
    CompareAndJumpLines(jump, elseLabel);
    TrueBranchLines(endLabel);
    FalseBranchLines(elseLabel, endLabel);
    TextAppend(p1 + p2, p3);
    TextAppend(p1, p2);
    LinesAppend(["@SP", "AM=M-1", "D=M", "A=A-1", "D=M-D", "@" + elseLabel, "D;" + jump] + ["@SP", "A=M-1", "M=-1", "@" + endLabel, "0;JMP"], ["(" + elseLabel + ")", "@SP", "A=M-1", "M=0", "(" + endLabel + ")"]);
    LinesAppend(["@SP", "AM=M-1", "D=M", "A=A-1", "D=M-D", "@" + elseLabel, "D;" + jump], ["@SP", "A=M-1", "M=-1", "@" + endLabel, "0;JMP"]);
  }

  lemma CompareAndJumpLines(jump: string, elseLabel: string)
    ensures Text(CompareAndJump(jump, elseLabel)) == Lines(["@SP", "AM=M-1", "D=M", "A=A-1", "D=M-D", "@" + elseLabel, "D;" + jump])
  {
    CompareAndJumpRendered(jump, elseLabel);
  }

  lemma CompareAndJumpRendered(jump: string, elseLabel: string)
    ensures Rendered(CompareAndJump(jump, elseLabel)) == ["@SP", "AM=M-1", "D=M", "A=A-1", "D=M-D", "@" + elseLabel, "D;" + jump]
  {
    var tail := [Assign("A", "A-1"), Assign("D", "M-D"), At(elseLabel), JumpIf("D", jump)];
    RenderedAppend(PopToD, tail);
    PopToDRendered();
    CompareTailRendered(jump, elseLabel);
    assert ["@SP", "AM=M-1", "D=M"] + ["A=A-1", "D=M-D", "@" + elseLabel, "D;" + jump]
        == ["@SP", "AM=M-1", "D=M", "A=A-1", "D=M-D", "@" + elseLabel, "D;" + jump];
  }

  lemma PopToDRendered()
    ensures Rendered(PopToD) == ["@SP", "AM=M-1", "D=M"]
  {
    AssignLine("AM", "M-1");
    AssignLine("D", "M");
    RenderedOfLines(PopToD, ["@SP", "AM=M-1", "D=M"]);
  }

  lemma CompareTailRendered(jump: string, elseLabel: string)
    ensures Rendered([Assign("A", "A-1"), Assign("D", "M-D"), At(elseLabel), JumpIf("D", jump)])
         == ["A=A-1", "D=M-D", "@" + elseLabel, "D;" + jump]
  {
    AssignLine("A", "A-1");
    AssignLine("D", "M-D");
    JumpIfLine("D", jump);
    var code, lines := [Assign("A", "A-1"), Assign("D", "M-D"), At(elseLabel), JumpIf("D", jump)],
                       ["A=A-1", "D=M-D", "@" + elseLabel, "D;" + jump];
    forall k | 0 <= k < 4 ensures Render(code[k]) == lines[k] {
      assert k == 0 || k == 1 || k == 2 || k == 3;
    }
    RenderedOfLines(code, lines);
  }

  lemma TrueBranchLines(endLabel: string)
    ensures Text(TrueBranch(endLabel)) == Lines(["@SP", "A=M-1", "M=-1", "@" + endLabel, "0;JMP"])
  {
    var code, lines := TrueBranch(endLabel), ["@SP", "A=M-1", "M=-1", "@" + endLabel, "0;JMP"];
    forall k | 0 <= k < 5 ensures Render(code[k]) == lines[k] {
      assert k == 0 || k == 1 || k == 2 || k == 3 || k == 4;
    }
    TextOfLines(code, lines);
  }

  lemma FalseBranchLines(elseLabel: string, endLabel: string)
    ensures Text(FalseBranch(elseLabel, endLabel)) == Lines(["(" + elseLabel + ")", "@SP", "A=M-1", "M=0", "(" + endLabel + ")"])
  {
    var code, lines := FalseBranch(elseLabel, endLabel), ["(" + elseLabel + ")", "@SP", "A=M-1", "M=0", "(" + endLabel + ")"];
    forall k | 0 <= k < 5 ensures Render(code[k]) == lines[k] {
      assert k == 0 || k == 1 || k == 2 || k == 3 || k == 4;
    }
    TextOfLines(code, lines);
  }

  /** Push: address the cell into A, load its value into D and push D. */
  lemma PushText(a: Address)
    ensures ToAssembly(Push(a))
      == AddressingAssembly(a, kA) + Lines(["D=" + [ValueRegister(a)], "@SP", "A=M", "M=D", "@SP", "M=M+1"])
  {
    LoadAndPushLines(ValueRegister(a));
    TextAppend(AddressingCode(a, kA), LoadAndPush(ValueRegister(a)));
  }

  lemma LoadAndPushLines(v: char)
    ensures Text(LoadAndPush(v)) == Lines(["D=" + [v], "@SP", "A=M", "M=D", "@SP", "M=M+1"])
  {
    var code, lines := LoadAndPush(v), ["D=" + [v], "@SP", "A=M", "M=D", "@SP", "M=M+1"];
    forall k | 0 <= k < 6 ensures Render(code[k]) == lines[k] {
      assert k == 0 || k == 1 || k == 2 || k == 3 || k == 4 || k == 5;
    }
    TextOfLines(code, lines);
  }

  /** Pop to a pointer-addressed segment computes the target location into
      R15 first, then pops into D and stores through R15; pop to any other
      segment pops into D first and addresses the target after. */
  lemma PopText(a: Address)
    ensures IsPointerAddressed(a) ==>
      ToAssembly(Pop(a)) == AddressingAssembly(a, kD) + Lines(["@R15", "M=D", "@SP", "AM=M-1", "D=M", "@R15", "A=M", "M=D"])
    ensures !IsPointerAddressed(a) ==>
      ToAssembly(Pop(a)) == Lines(["@SP", "AM=M-1", "D=M"]) + AddressingAssembly(a, kA) + Lines(["M=D"])
  {
    PopTextIs(a);
    if IsPointerAddressed(a) {
      PopThroughR15Text(AddressingCode(a, kD));
    } else {
      PopThenStoreText(AddressingCode(a, kA));
    }
  }

  lemma PopTextIs(a: Address)
    ensures ToAssembly(Pop(a)) == Text(PopCode(a))
  {}

  lemma PopThroughR15Text(addressing: seq<Instruction>)
    ensures Text(addressing + PopThroughR15)
         == Text(addressing) + Lines(["@R15", "M=D", "@SP", "AM=M-1", "D=M", "@R15", "A=M", "M=D"])
  {
    TextAppend(addressing, PopThroughR15);
    PopThroughR15Lines();
  }

  lemma PopThenStoreText(addressing: seq<Instruction>)
    ensures Text(PopToD + addressing + [Assign("M", "D")])
         == Lines(["@SP", "AM=M-1", "D=M"]) + Text(addressing) + Lines(["M=D"])
  {
    TextAppend(PopToD + addressing, [Assign("M", "D")]);
    TextAppend(PopToD, addressing);
    PopToDLines();
    TextOfLines([Assign("M", "D")], ["M=D"]);
  }

  lemma PopThroughR15Lines()
    ensures Text(PopThroughR15) == Lines(["@R15", "M=D", "@SP", "AM=M-1", "D=M", "@R15", "A=M", "M=D"])
  {
    var code, lines := PopThroughR15, ["@R15", "M=D", "@SP", "AM=M-1", "D=M", "@R15", "A=M", "M=D"];
    forall k | 0 <= k < 6 ensures Render(code[k]) == lines[k] {
      assert k == 0 || k == 1 || k == 2 || k == 3 || k == 4 || k == 5;
    }
    forall k | 6 <= k < 8 ensures Render(code[k]) == lines[k] {
      assert k == 6 || k == 7;
    }
    TextOfLines(code, lines);
  }

  lemma PopToDLines()
    ensures Text(PopToD) == Lines(["@SP", "AM=M-1", "D=M"])
  {
    var code, lines := PopToD, ["@SP", "AM=M-1", "D=M"];
    forall k | 0 <= k < 3 ensures Render(code[k]) == lines[k] {
      assert k == 0 || k == 1 || k == 2;
    }
    TextOfLines(code, lines);
  }

  /** A label is defined, jumped to unconditionally, or jumped to when the
      popped value is not zero. */
  lemma BranchingText(l: string)
    ensures ToAssembly(Label(l)) == Lines(["(" + l + ")"])
    ensures ToAssembly(Goto(l)) == Lines(["@" + l, "0;JMP"])
    ensures ToAssembly(IfGoto(l)) == Lines(["@SP", "AM=M-1", "D=M", "@" + l, "D;JNE"])
  {
    assert Rendered([Define(l)]) == ["(" + l + ")"];
    GotoLines(l);
    IfGotoLines(l);
  }

  lemma GotoLines(l: string)
    ensures Text([At(l), JumpIf("0", "JMP")]) == Lines(["@" + l, "0;JMP"])
  {
    var code, lines := [At(l), JumpIf("0", "JMP")], ["@" + l, "0;JMP"];
    forall k | 0 <= k < 2 ensures Render(code[k]) == lines[k] {
      assert k == 0 || k == 1;
    }
    TextOfLines(code, lines);
  }

  lemma IfGotoLines(l: string)
    ensures Text(PopToD + [At(l), JumpIf("D", "JNE")]) == Lines(["@SP", "AM=M-1", "D=M", "@" + l, "D;JNE"])
  {
    var code, lines := PopToD + [At(l), JumpIf("D", "JNE")], ["@SP", "AM=M-1", "D=M", "@" + l, "D;JNE"];
    forall k | 0 <= k < 5 ensures Render(code[k]) == lines[k] {
      assert k == 0 || k == 1 || k == 2 || k == 3 || k == 4;
    }
    TextOfLines(code, lines);
  }

  lemma CallPrologueLines(returnLabel: string)
    ensures Text(CallPrologue(returnLabel)) == Lines(["@" + returnLabel, "D=A", "@SP", "A=M", "M=D"])
  {
    var code, lines := CallPrologue(returnLabel), ["@" + returnLabel, "D=A", "@SP", "A=M", "M=D"];
    forall k | 0 <= k < 5 ensures Render(code[k]) == lines[k] {
      assert k == 0 || k == 1 || k == 2 || k == 3 || k == 4;
    }
    TextOfLines(code, lines);
  }

  lemma SavePointerLines(pointer: string)
    ensures Text(SavePointer(pointer)) == Lines(["@" + pointer, "D=M", "@SP", "AM=M+1", "M=D"])
  {
    var code, lines := SavePointer(pointer), ["@" + pointer, "D=M", "@SP", "AM=M+1", "M=D"];
    forall k | 0 <= k < 5 ensures Render(code[k]) == lines[k] {
      assert k == 0 || k == 1 || k == 2 || k == 3 || k == 4;
    }
    TextOfLines(code, lines);
  }

  lemma SkipFrameLines()
    ensures Text(SkipFrame) == Lines(["@SP", "MD=M+1"])
  {
    var code, lines := SkipFrame, ["@SP", "MD=M+1"];
    forall k | 0 <= k < 2 ensures Render(code[k]) == lines[k] {
      assert k == 0 || k == 1;
    }
    TextOfLines(code, lines);
  }

  lemma CallJumpLines(callee: string, offset: string, returnLabel: string)
    ensures Text(CallJump(callee, offset, returnLabel))
      == Lines(["@" + offset, "D=D-A", "@ARG", "M=D", "@SP", "D=M", "@LCL", "M=D",
                "@" + callee, "0;JMP", "(" + returnLabel + ")"])
  {
    var code, lines := CallJump(callee, offset, returnLabel),
      ["@" + offset, "D=D-A", "@ARG", "M=D", "@SP", "D=M", "@LCL", "M=D",
       "@" + callee, "0;JMP", "(" + returnLabel + ")"];
    forall k | 0 <= k < 6 ensures Render(code[k]) == lines[k] {
      assert k == 0 || k == 1 || k == 2 || k == 3 || k == 4 || k == 5;
    }
    forall k | 6 <= k < 11 ensures Render(code[k]) == lines[k] {
      assert k == 6 || k == 7 || k == 8 || k == 9 || k == 10;
    }
    TextOfLines(code, lines);
  }

  lemma ZeroFirstLines()
    ensures Text(ZeroFirst) == Lines(["@SP", "A=M", "M=0"])
  {
    var code, lines := ZeroFirst, ["@SP", "A=M", "M=0"];
    forall k | 0 <= k < 3 ensures Render(code[k]) == lines[k] {
      assert k == 0 || k == 1 || k == 2;
    }
    TextOfLines(code, lines);
  }

  lemma ZeroNextLines()
    ensures Text(ZeroNext) == Lines(["@SP", "AM=M+1", "M=0"])
  {
    var code, lines := ZeroNext, ["@SP", "AM=M+1", "M=0"];
    forall k | 0 <= k < 3 ensures Render(code[k]) == lines[k] {
      assert k == 0 || k == 1 || k == 2;
    }
    TextOfLines(code, lines);
  }

  lemma StepPastLines()
    ensures Text(StepPast) == Lines(["@SP", "M=M+1"])
  {
    var code, lines := StepPast, ["@SP", "M=M+1"];
    forall k | 0 <= k < 2 ensures Render(code[k]) == lines[k] {
      assert k == 0 || k == 1;
    }
    TextOfLines(code, lines);
  }

  // ---------------------------------------------------------------------
  // The two commands whose text is built by a loop
  // ---------------------------------------------------------------------

  /** The call text, built as the translator builds it: the return address,
      one push per saved frame cell, then SP past the frame, the
      repositioning of ARG and LCL, and the jump. */
  method CallAssembly(callee: string, argumentCount: nat, returnLabel: string)
    returns (assembly: string)
    ensures assembly == ToAssembly(Call(callee, argumentCount, returnLabel))
    ensures assembly
         == Lines(["@" + returnLabel, "D=A", "@SP", "A=M", "M=D"])
          + Lines(["@LCL", "D=M", "@SP", "AM=M+1", "M=D"])
          + Lines(["@ARG", "D=M", "@SP", "AM=M+1", "M=D"])
          + Lines(["@THIS", "D=M", "@SP", "AM=M+1", "M=D"])
          + Lines(["@THAT", "D=M", "@SP", "AM=M+1", "M=D"])
          + Lines(["@SP", "MD=M+1"])
          + Lines(["@" + NatToString(5 + argumentCount), "D=D-A", "@ARG", "M=D", "@SP", "D=M", "@LCL", "M=D",
                   "@" + callee, "0;JMP", "(" + returnLabel + ")"])
  {
    var prologue := CallPrologue(returnLabel);
    assembly := Lines(["@" + returnLabel, "D=A", "@SP", "A=M", "M=D"]);
    CallPrologueLines(returnLabel);
    var pointers := FramePointers;
    assert prologue + SaveFrame(pointers[..0]) == prologue;
    for i := 0 to |pointers|
      invariant assembly == Text(prologue + SaveFrame(pointers[..i]))
    {
      SaveFrameStep(prologue, pointers, i);
      assembly := assembly + Lines(["@" + pointers[i], "D=M", "@SP", "AM=M+1", "M=D"]);
    }
    assert pointers[..|pointers|] == FramePointers;
    var offset := NatToString(5 + argumentCount);
    CallFinish(prologue + SaveFrame(FramePointers), callee, offset, returnLabel);
    assembly := assembly + Lines(["@SP", "MD=M+1"]);
    assembly := assembly + Lines(["@" + offset, "D=D-A", "@ARG", "M=D", "@SP", "D=M", "@LCL", "M=D",
                                  "@" + callee, "0;JMP", "(" + returnLabel + ")"]);
    CallTextIs(callee, argumentCount, returnLabel);
    CallText(callee, argumentCount, returnLabel);
  }

  /** The address lines of the cells and offsets call and return name. */
  lemma AtLiterals()
    ensures "@" + "LCL" == "@LCL" && "@" + "ARG" == "@ARG" && "@" + "THIS" == "@THIS" && "@" + "THAT" == "@THAT"
    ensures "@" + "R15" == "@R15" && "@" + "2" == "@2" && "@" + "3" == "@3" && "@" + "4" == "@4" && "@" + "5" == "@5"
  {}

  /** The call convention, line by line: push the return address, then
      LCL, ARG, THIS and THAT; step SP past the frame (SP also into D);
      ARG = SP - (5 + argumentCount); LCL = SP; jump to the callee; and
      define the return label right after the jump. */
  lemma CallText(callee: string, argumentCount: nat, returnLabel: string)
    ensures ToAssembly(Call(callee, argumentCount, returnLabel))
         == Lines(["@" + returnLabel, "D=A", "@SP", "A=M", "M=D"])
          + Lines(["@LCL", "D=M", "@SP", "AM=M+1", "M=D"])
          + Lines(["@ARG", "D=M", "@SP", "AM=M+1", "M=D"])
          + Lines(["@THIS", "D=M", "@SP", "AM=M+1", "M=D"])
          + Lines(["@THAT", "D=M", "@SP", "AM=M+1", "M=D"])
          + Lines(["@SP", "MD=M+1"])
          + Lines(["@" + NatToString(5 + argumentCount), "D=D-A", "@ARG", "M=D", "@SP", "D=M", "@LCL", "M=D",
                   "@" + callee, "0;JMP", "(" + returnLabel + ")"])
  {
    var prologue := CallPrologue(returnLabel);
    CallPrologueLines(returnLabel);
    SavedFrameText(prologue);
    CallFinish(prologue + SaveFrame(FramePointers), callee, NatToString(5 + argumentCount), returnLabel);
    CallTextIs(callee, argumentCount, returnLabel);
  }

  /** The four frame cells are pushed in the order LCL, ARG, THIS, THAT. */
  lemma SavedFrameText(prologue: seq<Instruction>)
    ensures Text(prologue + SaveFrame(FramePointers))
         == Text(prologue)
          + Lines(["@LCL", "D=M", "@SP", "AM=M+1", "M=D"])
          + Lines(["@ARG", "D=M", "@SP", "AM=M+1", "M=D"])
          + Lines(["@THIS", "D=M", "@SP", "AM=M+1", "M=D"])
          + Lines(["@THAT", "D=M", "@SP", "AM=M+1", "M=D"])
  {
    var pointers := FramePointers;
    assert prologue + SaveFrame(pointers[..0]) == prologue;
    SaveFrameStep(prologue, pointers, 0);
    SaveFrameStep(prologue, pointers, 1);
    SaveFrameStep(prologue, pointers, 2);
    SaveFrameStep(prologue, pointers, 3);
    assert pointers[..4] == FramePointers;
    AtLiterals();
  }

  /** Saving one more frame cell adds that cell's five lines. */
  lemma SaveFrameStep(prologue: seq<Instruction>, pointers: seq<string>, i: nat)
    requires i < |pointers|
    ensures Text(prologue + SaveFrame(pointers[..i + 1]))
         == Text(prologue + SaveFrame(pointers[..i])) + Lines(["@" + pointers[i], "D=M", "@SP", "AM=M+1", "M=D"])
  {
    assert pointers[..i + 1][..i] == pointers[..i];
    assert prologue + SaveFrame(pointers[..i + 1]) == (prologue + SaveFrame(pointers[..i])) + SavePointer(pointers[i]);
    TextAppend(prologue + SaveFrame(pointers[..i]), SavePointer(pointers[i]));
    SavePointerLines(pointers[i]);
  }

  /** After the saved frame come the SP step and the jump, as text. */
  lemma CallFinish(saved: seq<Instruction>, callee: string, offset: string, returnLabel: string)
    ensures Text(saved + SkipFrame + CallJump(callee, offset, returnLabel))
         == Text(saved) + Lines(["@SP", "MD=M+1"])
            + Lines(["@" + offset, "D=D-A", "@ARG", "M=D", "@SP", "D=M", "@LCL", "M=D",
                     "@" + callee, "0;JMP", "(" + returnLabel + ")"])
  {
    TextAppend(saved, SkipFrame);
    SkipFrameLines();
    TextAppend(saved + SkipFrame, CallJump(callee, offset, returnLabel));
    CallJumpLines(callee, offset, returnLabel);
  }

  /** The function text, built as the translator builds it: the entry label,
      then, when there are locals, one zeroed cell for the first and one
      advance-and-zero for each further one, then SP past the last. */
  method FunctionAssembly(name: string, localCount: nat) returns (assembly: string)
    ensures assembly == ToAssembly(Function(name, localCount))
  {
    var entry := [Define(name)];
    assembly := Lines(["(" + name + ")"]);
    TextOfLines(entry, ["(" + name + ")"]);
    if localCount == 0 {
      assert FunctionCode(name, localCount) == entry;
      FunctionTextIs(name, localCount);
      return;
    }
    assembly := assembly + Lines(["@SP", "A=M", "M=0"]);
    ZeroFirstLines();
    TextAppend(entry, ZeroFirst);
    var i := 0;
    assert entry + ZeroFirst + Repeat(ZeroNext, 0) == entry + ZeroFirst;
    while i < localCount - 1
      invariant 0 <= i <= localCount - 1
      invariant assembly == Text(entry + ZeroFirst + Repeat(ZeroNext, i))
    {
      ZeroNextStep(entry + ZeroFirst, i);
      assembly := assembly + Lines(["@SP", "AM=M+1", "M=0"]);
      i := i + 1;
    }
    StepPastLines();
    TextAppend(entry + ZeroFirst + Repeat(ZeroNext, i), StepPast);
    assembly := assembly + Lines(["@SP", "M=M+1"]);
    assert FunctionCode(name, localCount) == entry + ZeroFirst + Repeat(ZeroNext, i) + StepPast;
    FunctionTextIs(name, localCount);
  }

  lemma ZeroNextStep(prefix: seq<Instruction>, i: nat)
    ensures Text(prefix + Repeat(ZeroNext, i + 1))
         == Text(prefix + Repeat(ZeroNext, i)) + Lines(["@SP", "AM=M+1", "M=0"])
  {
    ZeroNextLines();
    TextAppend(prefix + Repeat(ZeroNext, i), ZeroNext);
    assert prefix + Repeat(ZeroNext, i + 1) == (prefix + Repeat(ZeroNext, i)) + ZeroNext;
  }

  // ---------------------------------------------------------------------
  // Labels and counts
  // ---------------------------------------------------------------------

  /** The labels of one comparison differ from each other, and the labels of
      two comparisons coincide only when their tokens and kinds do. */
  lemma ComparisonLabelsDistinct(t1: string, k1: string, t2: string, k2: string)
    requires k1 in {"eq", "gt", "lt"} && k2 in {"eq", "gt", "lt"}
    ensures ElseLabel(t1, k1) != EndLabel(t2, k2)
    ensures ElseLabel(t1, k1) == ElseLabel(t2, k2) <==> t1 == t2 && k1 == k2
    ensures EndLabel(t1, k1) == EndLabel(t2, k2) <==> t1 == t2 && k1 == k2
  {
    var e1, e2, n1, n2 := ElseLabel(t1, k1), ElseLabel(t2, k2), EndLabel(t1, k1), EndLabel(t2, k2);
    assert e1[|e1| - 1] == 'e' && n2[|n2| - 1] == 'd';
    if e1 == e2 {
      assert |t1| == |t2|;
      assert t1 == e1[..|t1|] && t2 == e2[..|t2|];
      assert k1 == e1[|t1| + 1..|t1| + 3] && k2 == e2[|t2| + 1..|t2| + 3];
    }
    if n1 == n2 {
      assert |t1| == |t2|;
      assert t1 == n1[..|t1|] && t2 == n2[..|t2|];
      assert k1 == n1[|t1| + 1..|t1| + 3] && k2 == n2[|t2| + 1..|t2| + 3];
    }
  }

  /** A comparison defines its else label and its end label exactly once
      each, and no other label. */
  lemma ComparisonDefinesOnce(c: Command)
    requires c.Eq? || c.Gt? || c.Lt?
    ensures Occurrences(Code(c), Define(ElseLabel(c.token, Kind(c)))) == 1
    ensures Occurrences(Code(c), Define(EndLabel(c.token, Kind(c)))) == 1
    ensures forall l :: l != ElseLabel(c.token, Kind(c)) && l != EndLabel(c.token, Kind(c))
                        ==> Occurrences(Code(c), Define(l)) == 0
  {
    var e, n := ElseLabel(c.token, Kind(c)), EndLabel(c.token, Kind(c));
    ComparisonLabelsDistinct(c.token, Kind(c), c.token, Kind(c));
    assert Code(c) == ComparisonCode(Jump(c), e, n);
    ComparisonDefines(Jump(c), e, n);
  }

  lemma ComparisonDefines(jump: string, elseLabel: string, endLabel: string)
    requires elseLabel != endLabel
    ensures Occurrences(ComparisonCode(jump, elseLabel, endLabel), Define(elseLabel)) == 1
    ensures Occurrences(ComparisonCode(jump, elseLabel, endLabel), Define(endLabel)) == 1
    ensures forall l :: l != elseLabel && l != endLabel
                        ==> Occurrences(ComparisonCode(jump, elseLabel, endLabel), Define(l)) == 0
  {
    var p1, p2, p3 := CompareAndJump(jump, elseLabel), TrueBranch(endLabel), FalseBranch(elseLabel, endLabel);
    forall l
      ensures Occurrences(p1 + p2 + p3, Define(l))
              == (if l == elseLabel then 1 else 0) + (if l == endLabel then 1 else 0)
    {
      OccurrencesAppend(p1 + p2, p3, Define(l));
      OccurrencesAppend(p1, p2, Define(l));
      CompareAndJumpDefines(jump, elseLabel, l);
      TrueBranchDefines(endLabel, l);
      FalseBranchDefines(elseLabel, endLabel, l);
    }
  }

  lemma CompareAndJumpDefines(jump: string, elseLabel: string, l: string)
    ensures Occurrences(CompareAndJump(jump, elseLabel), Define(l)) == 0
  {
    NoOccurrences(CompareAndJump(jump, elseLabel), Define(l));
  }

  lemma TrueBranchDefines(endLabel: string, l: string)
    ensures Occurrences(TrueBranch(endLabel), Define(l)) == 0
  {
    NoOccurrences(TrueBranch(endLabel), Define(l));
  }

  lemma FalseBranchDefines(elseLabel: string, endLabel: string, l: string)
    ensures Occurrences(FalseBranch(elseLabel, endLabel), Define(l))
            == (if l == elseLabel then 1 else 0) + (if l == endLabel then 1 else 0)
  {
    var middle := [At("SP"), Assign("A", "M-1"), Assign("M", "0")];
    assert FalseBranch(elseLabel, endLabel) == [Define(elseLabel)] + middle + [Define(endLabel)];
    OccurrencesAppend([Define(elseLabel)] + middle, [Define(endLabel)], Define(l));
    OccurrencesAppend([Define(elseLabel)], middle, Define(l));
    SingleOccurrence(Define(elseLabel), Define(l));
    SingleOccurrence(Define(endLabel), Define(l));
    NoOccurrences(middle, Define(l));
  }

  /** A function with no locals is its entry label alone; with k locals it
      writes 0 exactly k times, advances SP with AM=M+1 exactly k - 1 times
      and steps past the last local once. */
  lemma FunctionCounts(name: string, localCount: nat)
    ensures localCount == 0 ==> FunctionCode(name, localCount) == [Define(name)]
    ensures Occurrences(FunctionCode(name, localCount), Define(name)) == 1
    ensures Occurrences(FunctionCode(name, localCount), Assign("M", "0")) == localCount
    ensures Occurrences(FunctionCode(name, localCount), Assign("AM", "M+1"))
            == if localCount == 0 then 0 else localCount - 1
    ensures Occurrences(FunctionCode(name, localCount), Assign("M", "M+1"))
            == if localCount == 0 then 0 else 1
  {
    EntryCount(name, localCount);
    ZeroWriteCount(name, localCount);
    AdvanceCount(name, localCount);
    StepPastCount(name, localCount);
  }

  lemma EntryCount(name: string, localCount: nat)
    ensures Occurrences(FunctionCode(name, localCount), Define(name)) == 1
  {
    SingleOccurrence(Define(name), Define(name));
    if localCount > 0 {
      FunctionCount(name, localCount, Define(name));
      NoOccurrences(ZeroFirst, Define(name));
      NoOccurrences(ZeroNext, Define(name));
      NoOccurrences(StepPast, Define(name));
    }
  }

  lemma ZeroWriteCount(name: string, localCount: nat)
    ensures Occurrences(FunctionCode(name, localCount), Assign("M", "0")) == localCount
  {
    if localCount > 0 {
      FunctionCount(name, localCount, Assign("M", "0"));
    } else {
      SingleOccurrence(Define(name), Assign("M", "0"));
    }
  }

  lemma AdvanceCount(name: string, localCount: nat)
    ensures Occurrences(FunctionCode(name, localCount), Assign("AM", "M+1"))
            == if localCount == 0 then 0 else localCount - 1
  {
    if localCount > 0 {
      FunctionCount(name, localCount, Assign("AM", "M+1"));
    } else {
      SingleOccurrence(Define(name), Assign("AM", "M+1"));
    }
  }

  lemma StepPastCount(name: string, localCount: nat)
    ensures Occurrences(FunctionCode(name, localCount), Assign("M", "M+1"))
            == if localCount == 0 then 0 else 1
  {
    if localCount > 0 {
      FunctionCount(name, localCount, Assign("M", "M+1"));
    } else {
      SingleOccurrence(Define(name), Assign("M", "M+1"));
    }
  }

  /** Occurrences of `x` in the code of a function with locals, block by block. */
  lemma FunctionCount(name: string, localCount: nat, x: Instruction)
    requires localCount > 0
    ensures Occurrences(FunctionCode(name, localCount), x)
            == Occurrences([Define(name)], x) + Occurrences(ZeroFirst, x)
               + (localCount - 1) * Occurrences(ZeroNext, x) + Occurrences(StepPast, x)
  {
    var head, body := [Define(name)] + ZeroFirst, Repeat(ZeroNext, localCount - 1);
    assert FunctionCode(name, localCount) == head + body + StepPast;
    OccurrencesAppend(head + body, StepPast, x);
    OccurrencesAppend(head, body, x);
    OccurrencesAppend([Define(name)], ZeroFirst, x);
    OccurrencesRepeat(ZeroNext, localCount - 1, x);
  }

  // ---------------------------------------------------------------------
  // The text of return, and the order of its steps
  // ---------------------------------------------------------------------

  lemma RestoreFromLines(offset: string, target: string)
    ensures Rendered(RestoreFrom(offset, target)) == ["@" + offset, "D=A", "@LCL", "A=M-D", "D=M", "@" + target, "M=D"]
  {
    var code, lines := RestoreFrom(offset, target), ["@" + offset, "D=A", "@LCL", "A=M-D", "D=M", "@" + target, "M=D"];
    forall k | 0 <= k < 4 ensures Render(code[k]) == lines[k] {
      assert k == 0 || k == 1 || k == 2 || k == 3;
    }
    forall k | 4 <= k < 7 ensures Render(code[k]) == lines[k] {
      assert k == 4 || k == 5 || k == 6;
    }
    assert Rendered(code) == lines;
  }

  lemma MoveReturnValueLines()
    ensures Rendered(MoveReturnValue) == ["@SP", "A=M-1", "D=M", "@ARG", "A=M", "M=D"]
  {
    var code, lines := MoveReturnValue, ["@SP", "A=M-1", "D=M", "@ARG", "A=M", "M=D"];
    forall k | 0 <= k < 3 ensures Render(code[k]) == lines[k] {
      assert k == 0 || k == 1 || k == 2;
    }
    forall k | 3 <= k < 6 ensures Render(code[k]) == lines[k] {
      assert k == 3 || k == 4 || k == 5;
    }
    assert Rendered(code) == lines;
  }

  lemma ResetStackLines()
    ensures Rendered(ResetStack) == ["@ARG", "D=M+1", "@SP", "M=D"]
  {
    var code, lines := ResetStack, ["@ARG", "D=M+1", "@SP", "M=D"];
    forall k | 0 <= k < 4 ensures Render(code[k]) == lines[k] {
      assert k == 0 || k == 1 || k == 2 || k == 3;
    }
    assert Rendered(code) == lines;
  }

  lemma RestoreThatLines()
    ensures Rendered(RestoreThat) == ["@LCL", "A=M-1", "D=M", "@THAT", "M=D"]
  {
    var code, lines := RestoreThat, ["@LCL", "A=M-1", "D=M", "@THAT", "M=D"];
    forall k | 0 <= k < 5 ensures Render(code[k]) == lines[k] {
      assert k == 0 || k == 1 || k == 2 || k == 3 || k == 4;
    }
    assert Rendered(code) == lines;
  }

  lemma JumpBackLines()
    ensures Rendered(JumpBack) == ["@R15", "A=M", "0;JMP"]
  {
    var code, lines := JumpBack, ["@R15", "A=M", "0;JMP"];
    forall k | 0 <= k < 3 ensures Render(code[k]) == lines[k] {
      assert k == 0 || k == 1 || k == 2;
    }
    assert Rendered(code) == lines;
  }

  lemma ReturnText()
    ensures ToAssembly(Return)
         == Lines(["@5", "D=A", "@LCL", "A=M-D", "D=M", "@R15", "M=D"]
          + (["@SP", "A=M-1", "D=M", "@ARG", "A=M", "M=D"]
          + (["@ARG", "D=M+1", "@SP", "M=D"]
          + (["@LCL", "A=M-1", "D=M", "@THAT", "M=D"]
          + (["@2", "D=A", "@LCL", "A=M-D", "D=M", "@THIS", "M=D"]
          + (["@3", "D=A", "@LCL", "A=M-D", "D=M", "@ARG", "M=D"]
          + (["@4", "D=A", "@LCL", "A=M-D", "D=M", "@LCL", "M=D"]
          + ["@R15", "A=M", "0;JMP"])))))))
  {
    ReturnCodeRendered();
    ReturnTextIs();
  }

  lemma ReturnTextIs()
    ensures ToAssembly(Return) == Text(ReturnCode)
  {}

  lemma ReturnCodeRendered()
    ensures Rendered(ReturnCode)
         == ["@5", "D=A", "@LCL", "A=M-D", "D=M", "@R15", "M=D"]
          + (["@SP", "A=M-1", "D=M", "@ARG", "A=M", "M=D"]
          + (["@ARG", "D=M+1", "@SP", "M=D"]
          + (["@LCL", "A=M-1", "D=M", "@THAT", "M=D"]
          + (["@2", "D=A", "@LCL", "A=M-D", "D=M", "@THIS", "M=D"]
          + (["@3", "D=A", "@LCL", "A=M-D", "D=M", "@ARG", "M=D"]
          + (["@4", "D=A", "@LCL", "A=M-D", "D=M", "@LCL", "M=D"]
          + ["@R15", "A=M", "0;JMP"]))))))
  {
    RestoreFromLines("5", "R15");
    MoveReturnValueLines();
    ResetStackLines();
    RestoreThatLines();
    RestoreFromLines("2", "THIS");
    RestoreFromLines("3", "ARG");
    RestoreFromLines("4", "LCL");
    JumpBackLines();
    AtLiterals();
    RenderedAppend(RestoreFrom("4", "LCL"), JumpBack);
    RenderedAppend(RestoreFrom("3", "ARG"), RestoreFrom("4", "LCL") + JumpBack);
    RenderedAppend(RestoreFrom("2", "THIS"), RestoreFrom("3", "ARG") + (RestoreFrom("4", "LCL") + JumpBack));
    RenderedAppend(RestoreThat, RestoreFrom("2", "THIS") + (RestoreFrom("3", "ARG") + (RestoreFrom("4", "LCL") + JumpBack)));
    RenderedAppend(ResetStack, RestoreThat + (RestoreFrom("2", "THIS") + (RestoreFrom("3", "ARG") + (RestoreFrom("4", "LCL") + JumpBack))));
    RenderedAppend(MoveReturnValue, ResetStack + (RestoreThat + (RestoreFrom("2", "THIS") + (RestoreFrom("3", "ARG") + (RestoreFrom("4", "LCL") + JumpBack)))));
    RenderedAppend(RestoreFrom("5", "R15"), MoveReturnValue + (ResetStack + (RestoreThat + (RestoreFrom("2", "THIS") + (RestoreFrom("3", "ARG") + (RestoreFrom("4", "LCL") + JumpBack))))));
  }

  /** `@target` then `M=D` at position `k`: the code stores D in the cell
      `target`. */
  predicate StoresTo(code: seq<Instruction>, k: nat, target: string) {
    k + 1 < |code| && code[k] == At(target) && code[k + 1] == Assign("M", "D")
  }

  /** An instruction that writes the memory cell A points at. */
  predicate WritesMemory(i: Instruction) {
    i.Compute? && i.dest.Some? && 'M' in i.dest.value
  }

  /** Return saves the return address before it writes anything else: the
      first memory write is the store to R15, R15 is stored nowhere else,
      and the final jump goes through R15. So the frame cell holding the
      return address is read before the return value, written to argument
      0, can overwrite it (the case of a function with no arguments). */
  lemma ReturnSavesAddressFirst()
    ensures forall k :: 0 <= k < 6 ==> !WritesMemory(ReturnCode[k])
    ensures StoresTo(ReturnCode, 5, "R15")
    ensures forall k :: StoresTo(ReturnCode, k, "R15") ==> k == 5
    ensures ReturnCode[|ReturnCode| - 3..] == [At("R15"), Assign("A", "M"), JumpIf("0", "JMP")]
  {
    forall k: nat | StoresTo(ReturnCode, k, "R15") ensures k == 5 {
      assert ReturnCode[k] == At("R15");
    }
  }

  /** Return restores LCL last: LCL is stored only once, and every use of
      LCL as the base of the saved frame comes at or before that store. */
  lemma ReturnRestoresLclLast()
    ensures StoresTo(ReturnCode, 41, "LCL")
    ensures forall k :: StoresTo(ReturnCode, k, "LCL") ==> k == 41
    ensures forall k :: 0 <= k < |ReturnCode| && ReturnCode[k] == At("LCL") ==> k <= 41
  {
    forall k | 0 <= k < |ReturnCode| && ReturnCode[k] == At("LCL") ensures k <= 41 {
    }
  }
}
