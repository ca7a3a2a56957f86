/** Hack assembly as both tools see it: one instruction per line, either an
    address load `@symbol`, a computation `dest=comp;jump` (both the `dest=`
    and the `;jump` parts optional), or a label definition `(name)`. The
    translator's output is the text of a list of such instructions. */
module HackSyntax {
  import opened Options

  datatype Instruction =
    | At(symbol: string)
    | Compute(dest: Option<string>, comp: string, jump: Option<string>)
    | Define(name: string)

  /** One instruction as one line of text (without the line break). */
  function Render(i: Instruction): string {
    match i
    case At(s) => "@" + s
    case Compute(d, c, j) =>
      (if d.Some? then d.value + "=" else "") + c + (if j.Some? then ";" + j.value else "")
    case Define(l) => "(" + l + ")"
  }

  /** Lines of text, every one ended by a line break. */
  function Lines(ls: seq<string>): string {
    if ls == [] then "" else ls[0] + "\n" + Lines(ls[1..])
  }

  /** Each instruction's line, in order. */
  function Rendered(code: seq<Instruction>): (ls: seq<string>)
    ensures |ls| == |code|
    ensures forall k :: 0 <= k < |code| ==> ls[k] == Render(code[k])
  {
    if code == [] then [] else [Render(code[0])] + Rendered(code[1..])
  }

  /** The instructions as text: one line each. */
  function Text(code: seq<Instruction>): string {
    Lines(Rendered(code))
  }

  /** Text made of at least one line ends with a line break. */
  lemma {:induction false} LinesEndWithBreak(ls: seq<string>)
    requires ls != []
    ensures Lines(ls) != [] && Lines(ls)[|Lines(ls)| - 1] == '\n'
    decreases |ls|
  {
    if ls[1..] != [] {
      LinesEndWithBreak(ls[1..]);
    }
  }

  lemma {:induction false} LinesAppend(p: seq<string>, q: seq<string>)
    ensures Lines(p + q) == Lines(p) + Lines(q)
  {
    if p != [] {
      LinesAppend(p[1..], q);
      assert (p + q)[0] == p[0] && (p + q)[1..] == p[1..] + q;
      calc {
        Lines(p + q);
        p[0] + "\n" + Lines(p[1..] + q);
        p[0] + "\n" + (Lines(p[1..]) + Lines(q));
        (p[0] + "\n" + Lines(p[1..])) + Lines(q);
      }
    } else {
      assert p + q == q;
    }
  }

  /** The text of two pieces of code is the text of the first followed by
      that of the second. */
  lemma TextAppend(p: seq<Instruction>, q: seq<Instruction>)
    ensures Text(p + q) == Text(p) + Text(q)
  {
    RenderedAppend(p, q);
    LinesAppend(Rendered(p), Rendered(q));
  }

  lemma {:induction false} RenderedAppend(p: seq<Instruction>, q: seq<Instruction>)
    ensures Rendered(p + q) == Rendered(p) + Rendered(q)
  {
    var r, rp, rq := Rendered(p + q), Rendered(p), Rendered(q);
    forall k | 0 <= k < |r|
      ensures r[k] == (rp + rq)[k]
    {
      if k < |p| {
        assert (p + q)[k] == p[k];
      } else {
        assert (p + q)[k] == q[k - |p|];
      }
    }
  }

  /** A sequence of `n` copies of `block`. */
  function Repeat(block: seq<Instruction>, n: nat): seq<Instruction> {
    if n == 0 then [] else Repeat(block, n - 1) + block
  }

  // Instructions the translator emits again and again.

  /** `M=D`, `D=M`, ...: a computation with a destination and no jump. */
  function Assign(dest: string, comp: string): Instruction {
    Compute(Some(dest), comp, None)
  }

  /** `comp;jump`: a computation used only for its jump. */
  function JumpIf(comp: string, jump: string): Instruction {
    Compute(None, comp, Some(jump))
  }

  lemma AssignLine(dest: string, comp: string)
    ensures Render(Assign(dest, comp)) == dest + "=" + comp
  {}

  lemma JumpIfLine(comp: string, jump: string)
    ensures Render(JumpIf(comp, jump)) == comp + ";" + jump
  {}

  /** Lines of code whose lines are known one by one. */
  lemma RenderedOfLines(code: seq<Instruction>, lines: seq<string>)
    requires |code| == |lines|
    requires forall k :: 0 <= k < |code| ==> Render(code[k]) == lines[k]
    ensures Rendered(code) == lines
  {}

  /** Text of code whose lines are known one by one. */
  lemma TextOfLines(code: seq<Instruction>, lines: seq<string>)
    requires |code| == |lines|
    requires forall k :: 0 <= k < |code| ==> Render(code[k]) == lines[k]
    ensures Text(code) == Lines(lines)
  {
    assert Rendered(code) == lines;
  }

  /** How many times `x` occurs in `code`. */
  function Occurrences(code: seq<Instruction>, x: Instruction): nat {
    if code == [] then 0 else (if code[0] == x then 1 else 0) + Occurrences(code[1..], x)
  }

  lemma SingleOccurrence(i: Instruction, x: Instruction)
    ensures Occurrences([i], x) == if i == x then 1 else 0
  {
    assert [i][1..] == [];
  }

  /** Code none of whose instructions is `x` has no occurrence of it. */
  lemma {:induction false} NoOccurrences(code: seq<Instruction>, x: Instruction)
    requires forall k :: 0 <= k < |code| ==> code[k] != x
    ensures Occurrences(code, x) == 0
  {
    if code != [] {
      NoOccurrences(code[1..], x);
    }
  }

  /** Occurrences in two pieces of code put together. */
  lemma {:induction false} OccurrencesAppend(p: seq<Instruction>, q: seq<Instruction>, x: Instruction)
    ensures Occurrences(p + q, x) == Occurrences(p, x) + Occurrences(q, x)
  {
    if p != [] {
      assert (p + q)[1..] == p[1..] + q;
      OccurrencesAppend(p[1..], q, x);
    } else {
      assert p + q == q;
    }
  }

  /** Occurrences in `n` copies of `block`. */
  lemma {:induction false} OccurrencesRepeat(block: seq<Instruction>, n: nat, x: Instruction)
    ensures Occurrences(Repeat(block, n), x) == n * Occurrences(block, x)
  {
    if n > 0 {
      OccurrencesRepeat(block, n - 1, x);
      OccurrencesAppend(Repeat(block, n - 1), block, x);
    }
  }
}
