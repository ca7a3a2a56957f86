/** Reading one VM file: each line is cut at its comment and split into
    tokens, blank lines are skipped, and the first token selects the
    command. The file's stem names its static cells and, with the line
    number, its generated labels. */
module Parser {
  import opened Options
  import opened Strings
  import opened HackSyntax
  import opened Addressing
  import opened Commands

  /** The conditions that end the translator: a token count the opcode does
      not accept, an index or count that is not a number, and a segment name
      that is not one of the eight (the translator builds the command around
      a null address and fails as soon as it is printed). */
  datatype Fatal =
    | WrongArity(opcode: string)
    | BadNumber(text: string)
    | UnknownSegment(segment: string)

  /** The segment name that selects each kind of address. */
  function SegmentName(a: Address): string {
    match a
    case Argument(_) => "argument"
    case Local(_) => "local"
    case Static(_, _) => "static"
    case Constant(_) => "constant"
    case This(_) => "this"
    case That(_) => "that"
    case Pointer(_) => "pointer"
    case Temp(_) => "temp"
  }

  /** The address named by `segment` and `indexText`. The index is read
      first, so a bad index is reported even when the segment is unknown;
      static cells belong to the class named after the file. */
  function ParseAddress(stem: string, segment: string, indexText: string): (r: Result<Address, Fatal>)
    ensures r.Ok? ==> AllDigits(indexText) && SegmentName(r.value) == segment && r.value.index == ParseDecimal(indexText)
                      && (r.value.Static? ==> r.value.className == stem)
    ensures r.Err? ==> r.error == BadNumber(indexText) || r.error == UnknownSegment(segment)
  {
    if !AllDigits(indexText) || indexText == [] then Err(BadNumber(indexText))
    else
      var index := ParseDecimal(indexText);
      if segment == "argument" then Ok(Argument(index))
      else if segment == "local" then Ok(Local(index))
      else if segment == "static" then Ok(Static(stem, index))
      else if segment == "constant" then Ok(Constant(index))
      else if segment == "this" then Ok(This(index))
      else if segment == "that" then Ok(That(index))
      else if segment == "pointer" then Ok(Pointer(index))
      else if segment == "temp" then Ok(Temp(index))
      else Err(UnknownSegment(segment))
  }

  /** The uniqueness token of the command on line `lineNumber` of the file
      `stem`: `<stem>_<line>`. */
  function LineToken(stem: string, lineNumber: nat): string {
    stem + "_" + NatToString(lineNumber)
  }

  /** The return label of a call: `<stem>_<line>$ret`. */
  function ReturnLabel(stem: string, lineNumber: nat): string {
    LineToken(stem, lineNumber) + "$ret"
  }

  /** A user label, qualified by the enclosing function: `<function>$<name>`. */
  function QualifiedLabel(enclosingFunction: string, name: string): string {
    enclosingFunction + "$" + name
  }

  /** A count token (argument or local count) read as a number. */
  function ParseCount(text: string): Result<nat, Fatal> {
    if AllDigits(text) && text != [] then Ok(ParseDecimal(text)) else Err(BadNumber(text))
  }

  /** The command selected by the tokens of one line: `Ok(None)` for an
      unknown opcode (only logged), `Err` for a fatal condition. The
      arithmetic opcodes ignore extra tokens; every other opcode demands an
      exact token count. */
  function ParseCommand(tokens: seq<string>, stem: string, enclosingFunction: string, lineNumber: nat)
    : Result<Option<Command>, Fatal>
    requires tokens != []
  {
    var opcode := tokens[0];
    if opcode in ArithmeticOpcodes then Ok(Some(Arithmetic(opcode, LineToken(stem, lineNumber))))
    else if opcode == "push" || opcode == "pop" then ParseAccess(tokens, stem)
    else if opcode in BranchOpcodes then ParseBranch(tokens, enclosingFunction)
    else if opcode == "call" || opcode == "function" then ParseCallOrFunction(tokens, stem, lineNumber)
    else if opcode == "return" then
      if |tokens| != 1 then Err(WrongArity(opcode)) else Ok(Some(Return))
    else Ok(None)
  }

  const ArithmeticOpcodes: set<string> := {"add", "sub", "neg", "eq", "gt", "lt", "and", "or", "not"}
  const BranchOpcodes: set<string> := {"label", "goto", "if-goto"}

  /** The arithmetic and comparison commands; comparisons carry the line's
      token. */
  function Arithmetic(opcode: string, token: string): Command
    requires opcode in ArithmeticOpcodes
  {
    if opcode == "add" then Add
    else if opcode == "sub" then Sub
    else if opcode == "neg" then Neg
    else if opcode == "eq" then Eq(token)
    else if opcode == "gt" then Gt(token)
    else if opcode == "lt" then Lt(token)
    else if opcode == "and" then And
    else if opcode == "or" then Or
    else Not
  }

  /** `push segment index` and `pop segment index`. */
  function ParseAccess(tokens: seq<string>, stem: string): Result<Option<Command>, Fatal>
    requires tokens != [] && tokens[0] in {"push", "pop"}
  {
    if |tokens| != 3 then Err(WrongArity(tokens[0]))
    else
      match ParseAddress(stem, tokens[1], tokens[2])
      case Err(f) => Err(f)
      case Ok(a) => Ok(Some(if tokens[0] == "push" then Push(a) else Pop(a)))
  }

  /** `label name`, `goto name` and `if-goto name`, the name qualified by
      the enclosing function. */
  function ParseBranch(tokens: seq<string>, enclosingFunction: string): Result<Option<Command>, Fatal>
    requires tokens != [] && tokens[0] in BranchOpcodes
  {
    if |tokens| != 2 then Err(WrongArity(tokens[0]))
    else
      var l := QualifiedLabel(enclosingFunction, tokens[1]);
      Ok(Some(if tokens[0] == "label" then Label(l) else if tokens[0] == "goto" then Goto(l) else IfGoto(l)))
  }

  /** `call name argumentCount`, whose return label is named after the line,
      and `function name localCount`. */
  function ParseCallOrFunction(tokens: seq<string>, stem: string, lineNumber: nat): Result<Option<Command>, Fatal>
    requires tokens != [] && tokens[0] in {"call", "function"}
  {
    if |tokens| != 3 then Err(WrongArity(tokens[0]))
    else
      match ParseCount(tokens[2])
      case Err(f) => Err(f)
      case Ok(n) =>
        Ok(Some(if tokens[0] == "call" then Call(tokens[1], n, ReturnLabel(stem, lineNumber))
                else Function(tokens[1], n)))
  }

  /** The tokens of a line once its comment is cut off. */
  function LineTokens(line: string): seq<string> {
    Tokens(StripComment(line))
  }

  /** The first line at or after `from` that has a token, or `|lines|`. */
  function NextCommandLine(lines: seq<string>, from: nat): (k: nat)
    requires from <= |lines|
    ensures from <= k <= |lines|
    ensures forall i :: from <= i < k ==> LineTokens(lines[i]) == []
    ensures k < |lines| ==> LineTokens(lines[k]) != []
    decreases |lines| - from
  {
    if from == |lines| then from
    else if LineTokens(lines[from]) != [] then from
    else NextCommandLine(lines, from + 1)
  }

  // -----------------------------------------------------------------------
  // What one call of Advance reads
  // -----------------------------------------------------------------------

  /** The state Advance leaves: the number of lines read so far, the current
      command (none at the end of the input or after an unknown opcode) and
      the fatal condition that stopped the translator, if any. */
  datatype Reading = Reading(lineNumber: nat, command: Option<Command>, failure: Option<Fatal>)

  /** What a token of a VM line can be: non-empty, with no blank. */
  predicate Word(s: string) {
    s != [] && NoBlanks(s)
  }

  /** The commands the parser can build on line `lineNumber` of file `stem`
      inside `enclosingFunction`: comparison tokens and return labels are
      named after that line, static cells belong to the file, and user
      labels are qualified by the enclosing function. */
  predicate Producible(c: Command, stem: string, enclosingFunction: string, lineNumber: nat) {
    && NamesAreWords(c, enclosingFunction)
    && (c.Eq? || c.Gt? || c.Lt? ==> c.token == LineToken(stem, lineNumber))
    && (c.Push? || c.Pop? ==> c.address.Static? ==> c.address.className == stem)
    && (c.Call? ==> c.returnLabel == ReturnLabel(stem, lineNumber))
  }

  /** The names a command carries are single tokens; user labels carry the
      enclosing function's prefix. */
  predicate NamesAreWords(c: Command, enclosingFunction: string) {
    && (c.Label? || c.Goto? || c.IfGoto? ==> IsQualified(c.name, enclosingFunction))
    && (c.Call? ==> Word(c.callee))
    && (c.Function? ==> Word(c.name))
  }

  predicate IsQualified(l: string, enclosingFunction: string) {
    |l| > |enclosingFunction| + 1 && l[..|enclosingFunction| + 1] == enclosingFunction + "$"
    && Word(l[|enclosingFunction| + 1..])
  }

  /** The canonical VM line of a command, as tokens. */
  function Words(c: Command, enclosingFunction: string): (ws: seq<string>)
    requires NamesAreWords(c, enclosingFunction)
    ensures ws != []
  {
    match c
    case Add => ["add"]
    case Sub => ["sub"]
    case Neg => ["neg"]
    case Eq(_) => ["eq"]
    case Gt(_) => ["gt"]
    case Lt(_) => ["lt"]
    case And => ["and"]
    case Or => ["or"]
    case Not => ["not"]
    case Push(a) => ["push", SegmentName(a), NatToString(a.index)]
    case Pop(a) => ["pop", SegmentName(a), NatToString(a.index)]
    case Label(l) => ["label", l[|enclosingFunction| + 1..]]
    case Goto(l) => ["goto", l[|enclosingFunction| + 1..]]
    case IfGoto(l) => ["if-goto", l[|enclosingFunction| + 1..]]
    case Call(f, n, _) => ["call", f, NatToString(n)]
    case Function(f, n) => ["function", f, NatToString(n)]
    case Return => ["return"]
  }

  /** The eight segment names. */
  predicate IsSegmentName(segment: string) {
    segment in {"argument", "local", "static", "constant", "this", "that", "pointer", "temp"}
  }

  /** Reading the canonical words of an address gives the address back. */
  lemma ParseSegmentName(stem: string, a: Address)
    requires a.Static? ==> a.className == stem
    ensures ParseAddress(stem, SegmentName(a), NatToString(a.index)) == Ok(a)
  {
    ParseNatToString(a.index);
  }

  /** What ParseAddress answers: the address selected by a segment name and
      a number, with the number checked first. */
  lemma ParseAddressCases(stem: string, segment: string, indexText: string)
    ensures var r := ParseAddress(stem, segment, indexText);
      && (r.Ok? <==> AllDigits(indexText) && indexText != [] && IsSegmentName(segment))
      && (r.Ok? ==> SegmentName(r.value) == segment && r.value.index == ParseDecimal(indexText)
                    && (r.value.Static? ==> r.value.className == stem))
      && (r == Err(BadNumber(indexText)) <==> !AllDigits(indexText) || indexText == [])
      && (r == Err(UnknownSegment(segment)) <==>
            AllDigits(indexText) && indexText != [] && !IsSegmentName(segment))
  {
  }

  /** Reading the canonical line of a command the parser can build gives
      the command back. */
  lemma ParseWords(c: Command, stem: string, enclosingFunction: string, lineNumber: nat)
    requires Producible(c, stem, enclosingFunction, lineNumber)
    ensures ParseCommand(Words(c, enclosingFunction), stem, enclosingFunction, lineNumber) == Ok(Some(c))
  {
    if c.Push? || c.Pop? {
      ParseAccessWords(c, stem, enclosingFunction, lineNumber);
    } else if c.Label? || c.Goto? || c.IfGoto? {
      ParseBranchWords(c, stem, enclosingFunction, lineNumber);
    } else if c.Call? || c.Function? {
      ParseCallWords(c, stem, enclosingFunction, lineNumber);
    } else if c.Return? {
      assert Words(c, enclosingFunction) == ["return"];
    } else {
      ParseArithmeticWords(c, stem, enclosingFunction, lineNumber);
    }
  }

  lemma ParseArithmeticWords(c: Command, stem: string, enclosingFunction: string, lineNumber: nat)
    requires !(c.Push? || c.Pop? || c.Label? || c.Goto? || c.IfGoto? || c.Call? || c.Function? || c.Return?)
    requires Producible(c, stem, enclosingFunction, lineNumber)
    ensures ParseCommand(Words(c, enclosingFunction), stem, enclosingFunction, lineNumber) == Ok(Some(c))
  {
  }

  lemma ParseAccessWords(c: Command, stem: string, enclosingFunction: string, lineNumber: nat)
    requires c.Push? || c.Pop?
    requires c.address.Static? ==> c.address.className == stem
    ensures ParseCommand(Words(c, enclosingFunction), stem, enclosingFunction, lineNumber) == Ok(Some(c))
  {
    ParseSegmentName(stem, c.address);
  }

  lemma ParseBranchWords(c: Command, stem: string, enclosingFunction: string, lineNumber: nat)
    requires c.Label? || c.Goto? || c.IfGoto?
    requires IsQualified(c.name, enclosingFunction)
    ensures ParseCommand(Words(c, enclosingFunction), stem, enclosingFunction, lineNumber) == Ok(Some(c))
  {
    var fn := enclosingFunction;
    assert QualifiedLabel(fn, c.name[|fn| + 1..]) == c.name;
  }

  lemma ParseCallWords(c: Command, stem: string, enclosingFunction: string, lineNumber: nat)
    requires c.Call? || c.Function?
    requires NamesAreWords(c, enclosingFunction)
    requires c.Call? ==> c.returnLabel == ReturnLabel(stem, lineNumber)
    ensures ParseCommand(Words(c, enclosingFunction), stem, enclosingFunction, lineNumber) == Ok(Some(c))
  {
    var n := if c.Call? then c.argumentCount else c.localCount;
    var words := Words(c, enclosingFunction);
    assert words[0] in {"call", "function"} && |words| == 3 && words[2] == NatToString(n);
    CallOpcodeSelected(words, stem, enclosingFunction, lineNumber);
    ParseNatToString(n);
  }

  lemma CallOpcodeSelected(tokens: seq<string>, stem: string, enclosingFunction: string, lineNumber: nat)
    requires tokens != [] && tokens[0] in {"call", "function"}
    ensures ParseCommand(tokens, stem, enclosingFunction, lineNumber) == ParseCallOrFunction(tokens, stem, lineNumber)
  {}

  /** Every command the parser builds is one it can build on that line, and
      its canonical line starts with the opcode that was read. */
  lemma ParsedIsProducible(tokens: seq<string>, stem: string, enclosingFunction: string, lineNumber: nat)
    requires tokens != [] && forall k :: 0 <= k < |tokens| ==> Word(tokens[k])
    requires ParseCommand(tokens, stem, enclosingFunction, lineNumber).Ok?
    requires ParseCommand(tokens, stem, enclosingFunction, lineNumber).value.Some?
    ensures var c := ParseCommand(tokens, stem, enclosingFunction, lineNumber).value.value;
      Producible(c, stem, enclosingFunction, lineNumber) && Words(c, enclosingFunction)[0] == tokens[0]
  {
    var opcode := tokens[0];
    if opcode in ArithmeticOpcodes {
      ArithmeticIsProducible(opcode, stem, enclosingFunction, lineNumber);
    } else if opcode == "push" || opcode == "pop" {
      ParseAddressCases(stem, tokens[1], tokens[2]);
    } else if opcode in BranchOpcodes {
      BranchIsProducible(tokens, stem, enclosingFunction, lineNumber);
    }
  }

  lemma ArithmeticIsProducible(opcode: string, stem: string, enclosingFunction: string, lineNumber: nat)
    requires opcode in ArithmeticOpcodes
    ensures var c := Arithmetic(opcode, LineToken(stem, lineNumber));
      Producible(c, stem, enclosingFunction, lineNumber) && Words(c, enclosingFunction)[0] == opcode
  {
  }

  lemma BranchIsProducible(tokens: seq<string>, stem: string, enclosingFunction: string, lineNumber: nat)
    requires tokens != [] && tokens[0] in BranchOpcodes && |tokens| == 2 && Word(tokens[1])
    ensures var c := ParseBranch(tokens, enclosingFunction).value.value;
      Producible(c, stem, enclosingFunction, lineNumber) && Words(c, enclosingFunction)[0] == tokens[0]
  {
    var fn := enclosingFunction;
    var c := ParseBranch(tokens, fn).value.value;
    assert c.name == fn + "$" + tokens[1];
    assert c.name[..|fn| + 1] == fn + "$" && c.name[|fn| + 1..] == tokens[1];
  }

  /** The seventeen opcodes the translator knows. */
  predicate IsOpcode(opcode: string) {
    opcode in ArithmeticOpcodes + BranchOpcodes + {"push", "pop", "call", "function", "return"}
  }

  /** The token counts ParseCommand refuses: three tokens exactly for push,
      pop, call and function, two for the branch commands, one for return;
      the arithmetic commands accept any count. */
  lemma ParseCommandArity(tokens: seq<string>, stem: string, enclosingFunction: string, lineNumber: nat)
    requires tokens != []
    ensures ParseCommand(tokens, stem, enclosingFunction, lineNumber) == Err(WrongArity(tokens[0])) <==>
              || (tokens[0] in {"push", "pop", "call", "function"} && |tokens| != 3)
              || (tokens[0] in BranchOpcodes && |tokens| != 2)
              || (tokens[0] == "return" && |tokens| != 1)
  {
  }

  /** The other fatal conditions: a push or pop with a bad index or an
      unknown segment (the index is checked first), and a call or function
      with a bad count. */
  lemma ParseCommandBadOperand(tokens: seq<string>, stem: string, enclosingFunction: string, lineNumber: nat)
    requires |tokens| == 3
    ensures var r := ParseCommand(tokens, stem, enclosingFunction, lineNumber);
      && (r == Err(BadNumber(tokens[2])) <==>
            tokens[0] in {"push", "pop", "call", "function"} && !(AllDigits(tokens[2]) && tokens[2] != []))
      && (r == Err(UnknownSegment(tokens[1])) <==>
            tokens[0] in {"push", "pop"} && AllDigits(tokens[2]) && tokens[2] != [] && !IsSegmentName(tokens[1]))
  {
    if tokens[0] in {"push", "pop"} {
      ParseAddressCases(stem, tokens[1], tokens[2]);
    }
  }

  /** An unknown opcode is no command and no failure; every known opcode
      gives a command or a failure. */
  lemma ParseCommandUnknown(tokens: seq<string>, stem: string, enclosingFunction: string, lineNumber: nat)
    requires tokens != []
    ensures ParseCommand(tokens, stem, enclosingFunction, lineNumber) == Ok(None) <==> !IsOpcode(tokens[0])
  {
    if tokens[0] in {"push", "pop"} && |tokens| == 3 {
      ParseAddressCases(stem, tokens[1], tokens[2]);
    }
  }

  /** An arithmetic command ignores the tokens after its opcode. */
  lemma ArithmeticIgnoresOperands(tokens: seq<string>, stem: string, enclosingFunction: string, lineNumber: nat)
    requires tokens != [] && tokens[0] in ArithmeticOpcodes
    ensures ParseCommand(tokens, stem, enclosingFunction, lineNumber)
         == ParseCommand([tokens[0]], stem, enclosingFunction, lineNumber)
    ensures ParseCommand(tokens, stem, enclosingFunction, lineNumber).Ok?
  {
  }

  /** A line with no slash has no comment to cut. */
  lemma StripNoSlash(s: string)
    requires '/' !in s
    ensures StripComment(s) == s
  {
  }

  lemma {:induction false} UnwordsNoSlash(ws: seq<string>)
    requires forall k :: 0 <= k < |ws| ==> '/' !in ws[k]
    ensures '/' !in Unwords(ws)
  {
    if |ws| > 1 {
      UnwordsNoSlash(ws[1..]);
    }
  }

  /** The canonical line of a command, written out as text, is read back as
      that command, provided its names carry no slash. */
  lemma ParseCanonicalLine(c: Command, stem: string, enclosingFunction: string, lineNumber: nat)
    requires Producible(c, stem, enclosingFunction, lineNumber)
    requires forall k :: 0 <= k < |Words(c, enclosingFunction)| ==> '/' !in Words(c, enclosingFunction)[k]
    ensures LineTokens(Unwords(Words(c, enclosingFunction))) == Words(c, enclosingFunction)
    ensures ParseCommand(LineTokens(Unwords(Words(c, enclosingFunction))), stem, enclosingFunction, lineNumber)
            == Ok(Some(c))
  {
    var ws := Words(c, enclosingFunction);
    UnwordsNoSlash(ws);
    StripNoSlash(Unwords(ws));
    WordsAreWords(c, enclosingFunction);
    TokensOfUnwords(ws);
    ParseWords(c, stem, enclosingFunction, lineNumber);
  }

  lemma WordsAreWords(c: Command, enclosingFunction: string)
    requires NamesAreWords(c, enclosingFunction)
    ensures forall k :: 0 <= k < |Words(c, enclosingFunction)| ==> Word(Words(c, enclosingFunction)[k])
  {
    var ws := Words(c, enclosingFunction);
    OpcodeIsWord(ws[0]);
    if c.Push? || c.Pop? {
      SegmentNameIsWord(c.address);
      DigitsAreWord(NatToString(c.address.index));
    } else if c.Call? {
      DigitsAreWord(NatToString(c.argumentCount));
    } else if c.Function? {
      DigitsAreWord(NatToString(c.localCount));
    }
  }

  lemma OpcodeIsWord(opcode: string)
    requires IsOpcode(opcode)
    ensures Word(opcode)
  {
  }

  lemma SegmentNameIsWord(a: Address)
    ensures Word(SegmentName(a))
  {
  }

  lemma DigitsAreWord(s: string)
    requires s != [] && AllDigits(s)
    ensures Word(s)
  {
  }

  // -----------------------------------------------------------------------
  // Generated label names
  // -----------------------------------------------------------------------

  /** Different lines, or different files, give different tokens. */
  lemma LineTokenInjective(stem1: string, line1: nat, stem2: string, line2: nat)
    requires LineToken(stem1, line1) == LineToken(stem2, line2)
    ensures stem1 == stem2 && line1 == line2
  {
    NumberedNameInjective(stem1, line1, stem2, line2, '_');
  }

  /** Different call lines, or different files, give different return labels. */
  lemma ReturnLabelInjective(stem1: string, line1: nat, stem2: string, line2: nat)
    requires ReturnLabel(stem1, line1) == ReturnLabel(stem2, line2)
    ensures stem1 == stem2 && line1 == line2
  {
    var t1, t2 := LineToken(stem1, line1), LineToken(stem2, line2);
    assert t1 == (t1 + "$ret")[..|t1|];
    assert |t1| == |t2|;
    assert t2 == (t2 + "$ret")[..|t2|];
    LineTokenInjective(stem1, line1, stem2, line2);
  }

  /** A return label is never one of the labels of a comparison. */
  lemma ReturnLabelNotComparison(stem1: string, line1: nat, token: string, kind: string)
    requires kind in {"eq", "gt", "lt"}
    ensures ReturnLabel(stem1, line1) != ElseLabel(token, kind)
    ensures ReturnLabel(stem1, line1) != EndLabel(token, kind)
  {
    var r := ReturnLabel(stem1, line1);
    assert r[|r| - 1] == 't';
  }

  /** Within one file, a user label (qualified by `<stem>.GLOBAL`) never
      meets a label the translator generates from a line token: the two
      differ right after the stem. */
  lemma UserLabelNotGenerated(stem: string, name: string, line: nat, suffix: string)
    ensures QualifiedLabel(stem + ".GLOBAL", name) != LineToken(stem, line) + suffix
  {
    var u, g := QualifiedLabel(stem + ".GLOBAL", name), LineToken(stem, line) + suffix;
    assert u[|stem|] == '.' && g[|stem|] == '_';
  }

  // -----------------------------------------------------------------------
  // Reading a file
  // -----------------------------------------------------------------------

  /** The state after one Advance from `from` lines read: the next line with
      a token is read and parsed. */
  function Next(lines: seq<string>, stem: string, enclosingFunction: string, from: nat): (r: Reading)
    requires from <= |lines|
    ensures from <= r.lineNumber <= |lines|
    ensures r.failure.Some? ==> r.command.None?
    ensures r.lineNumber == from ==> r.command.None?
  {
    ReadingAt(lines, stem, enclosingFunction, NextCommandLine(lines, from))
  }

  /** The state once line `k` (counted from 0) is read, or the end. */
  function ReadingAt(lines: seq<string>, stem: string, enclosingFunction: string, k: nat): (r: Reading)
    requires k <= |lines| && (k < |lines| ==> LineTokens(lines[k]) != [])
    ensures k <= r.lineNumber <= |lines|
    ensures r.failure.Some? ==> r.command.None?
    ensures r.lineNumber == k ==> r.command.None?
    ensures k == |lines| ==> r == Reading(|lines|, None, None)
    ensures k < |lines| ==> r.lineNumber == k + 1
  {
    if k == |lines| then Reading(|lines|, None, None)
    else Parsed(ParseCommand(LineTokens(lines[k]), stem, enclosingFunction, k + 1), k + 1)
  }

  /** The state after parsing the line numbered `lineNumber`. */
  function Parsed(result: Result<Option<Command>, Fatal>, lineNumber: nat): Reading {
    match result
    case Err(f) => Reading(lineNumber, None, Some(f))
    case Ok(c) => Reading(lineNumber, c, None)
  }

  /** What Advance reads: the blank and comment-only lines are skipped; the
      line number then counts every physical line from 1, skipped lines
      included; at the end of the input there is no command; and the command
      read is one the parser can build on that line. */
  lemma NextReads(lines: seq<string>, stem: string, enclosingFunction: string, from: nat)
    requires from <= |lines|
    ensures var r := Next(lines, stem, enclosingFunction, from);
      && ((forall i :: from <= i < |lines| ==> LineTokens(lines[i]) == []) ==>
            r == Reading(|lines|, None, None))
      && (!(forall i :: from <= i < |lines| ==> LineTokens(lines[i]) == []) ==>
            from < r.lineNumber && LineTokens(lines[r.lineNumber - 1]) != [])
      && (forall i :: from <= i < r.lineNumber - 1 ==> LineTokens(lines[i]) == [])
      && (r.command.Some? ==> Producible(r.command.value, stem, enclosingFunction, r.lineNumber))
  {
    var k := NextCommandLine(lines, from);
    if k < |lines| {
      ReadingProducible(lines, stem, enclosingFunction, k);
    }
  }

  /** A command read on line `k` is one the parser can build there. */
  lemma ReadingProducible(lines: seq<string>, stem: string, enclosingFunction: string, k: nat)
    requires k < |lines| && LineTokens(lines[k]) != []
    ensures var r := ReadingAt(lines, stem, enclosingFunction, k);
            r.command.Some? ==> Producible(r.command.value, stem, enclosingFunction, r.lineNumber)
  {
    var tokens := LineTokens(lines[k]);
    assert forall j :: 0 <= j < |tokens| ==> Word(tokens[j]);
    var r := ParseCommand(tokens, stem, enclosingFunction, k + 1);
    if r.Ok? && r.value.Some? {
      ParsedIsProducible(tokens, stem, enclosingFunction, k + 1);
    }
  }

  /** What the driver writes from a reading on: the text of the current
      command and of every following one, up to the end of the input, the
      first unknown opcode (which reads as the end) or the first fatal
      condition (which the result reports). */
  datatype Translation = Translation(assembly: string, failure: Option<Fatal>)

  function Pending(lines: seq<string>, stem: string, enclosingFunction: string, r: Reading,
                   render: Command -> string): Translation
    requires r.lineNumber <= |lines|
    decreases |lines| - r.lineNumber, if r.command.Some? then 1 else 0
  {
    if r.command.None? then Translation("", r.failure)
    else
      var rest := Pending(lines, stem, enclosingFunction, Next(lines, stem, enclosingFunction, r.lineNumber), render);
      Translation(render(r.command.value) + rest.assembly, rest.failure)
  }

  /** When the first line with a token from `from` on holds no command,
      the translation stops there and writes nothing: a fatal condition is
      reported, an unknown opcode ends it with no failure. */
  lemma StopsAtNonCommand(lines: seq<string>, stem: string, enclosingFunction: string, from: nat, k: nat,
                          render: Command -> string)
    requires from <= k < |lines|
    requires forall i :: from <= i < k ==> LineTokens(lines[i]) == []
    requires LineTokens(lines[k]) != []
    ensures var parsed := ParseCommand(LineTokens(lines[k]), stem, enclosingFunction, k + 1);
            var t := Pending(lines, stem, enclosingFunction, Next(lines, stem, enclosingFunction, from), render);
            && (parsed.Err? ==> t == Translation("", Some(parsed.error)))
            && (!IsOpcode(LineTokens(lines[k])[0]) ==> t == Translation("", None))
  {
    NextCommandLineIs(lines, from, k);
    ParseCommandUnknown(LineTokens(lines[k]), stem, enclosingFunction, k + 1);
  }

  /** The whole translation of one VM file. */
  function FileTranslation(lines: seq<string>, stem: string): Translation {
    var fn := stem + ".GLOBAL";
    Pending(lines, stem, fn, Next(lines, stem, fn, 0), ToAssembly)
  }

  /** A VM file being read line by line. */
  class VmFile {
    const lines: seq<string>
    /** The file name without directory and extension. */
    const stem: string
    /** The prefix of user labels; it stays `<stem>.GLOBAL` for the whole
        file, whatever function the labels are in. */
    const enclosingFunction: string
    var lineNumber: nat
    var command: Option<Command>
    var failure: Option<Fatal>

    ghost predicate Valid()
      reads this
    {
      && lineNumber <= |lines|
      && enclosingFunction == stem + ".GLOBAL"
      && (failure.Some? ==> command.None?)
    }

    function Current(): Reading
      reads this
    {
      Reading(lineNumber, command, failure)
    }

    /** Opens the file and reads its first command. */
    constructor(lines: seq<string>, stem: string)
      ensures Valid() && this.lines == lines && this.stem == stem
      ensures Current() == Next(lines, stem, stem + ".GLOBAL", 0)
    {
      this.lines := lines;
      this.stem := stem;
      enclosingFunction := stem + ".GLOBAL";
      lineNumber := 0;
      command := None;
      failure := None;
      new;
      Advance();
    }

    /** Drops the current command and reads the next line with a token. */
    method Advance()
      requires Valid() && failure.None?
      modifies this
      ensures Valid()
      ensures Current() == Next(lines, stem, enclosingFunction, old(lineNumber))
    {
      ghost var start := lineNumber;
      command := None;
      var tokens: seq<string> := [];
      while tokens == [] && lineNumber < |lines|
        invariant start <= lineNumber <= |lines|
        invariant command.None? && failure.None?
        invariant tokens == [] ==> forall i :: start <= i < lineNumber ==> LineTokens(lines[i]) == []
        invariant tokens != [] ==> start < lineNumber && tokens == LineTokens(lines[lineNumber - 1])
                                   && forall i :: start <= i < lineNumber - 1 ==> LineTokens(lines[i]) == []
        decreases |lines| - lineNumber
      {
        tokens := Tokens(StripComment(lines[lineNumber]));
        lineNumber := lineNumber + 1;
      }
      if tokens == [] {
        NextCommandLineIs(lines, start, |lines|);
        return;
      }
      NextCommandLineIs(lines, start, lineNumber - 1);
      var parsed := ParseCommand(tokens, stem, enclosingFunction, lineNumber);
      if parsed.Err? {
        failure := Some(parsed.error);
      } else {
        command := parsed.value;
      }
    }
  }

  lemma {:induction false} NextCommandLineIs(lines: seq<string>, from: nat, k: nat)
    requires from <= k <= |lines|
    requires forall i :: from <= i < k ==> LineTokens(lines[i]) == []
    requires k < |lines| ==> LineTokens(lines[k]) != []
    ensures NextCommandLine(lines, from) == k
    decreases k - from
  {
    if from < k {
      NextCommandLineIs(lines, from + 1, k);
    }
  }

  /** What the driver writes for the rest of the file: the current command's
      text, then Advance, until there is no current command. `render` is
      the text of one command; the translator passes ToAssembly. */
  function Remaining(file: VmFile, render: Command -> string): Translation
    requires file.Valid()
    reads file
  {
    Pending(file.lines, file.stem, file.enclosingFunction, file.Current(), render)
  }

  method Translate(file: VmFile, render: Command -> string) returns (assembly: string)
    requires file.Valid()
    modifies file
    ensures file.Valid() && file.command.None?
    ensures assembly == old(Remaining(file, render)).assembly
    ensures file.failure == old(Remaining(file, render)).failure
  {
    assembly := "";
    while file.command.Some?
      invariant file.Valid()
      invariant assembly + Remaining(file, render).assembly == old(Remaining(file, render)).assembly
      invariant Remaining(file, render).failure == old(Remaining(file, render)).failure
      decreases |file.lines| - file.lineNumber, if file.command.Some? then 1 else 0
    {
      ghost var before := Remaining(file, render);
      var text := render(file.command.value);
      assembly := assembly + text;
      file.Advance();
      assert before == Translation(text + Remaining(file, render).assembly, Remaining(file, render).failure);
    }
  }

  /** One VM file from opening to the end of its translation. */
  method TranslateFile(lines: seq<string>, stem: string) returns (assembly: string, failure: Option<Fatal>)
    ensures Translation(assembly, failure) == FileTranslation(lines, stem)
  {
    var file := new VmFile(lines, stem);
    assembly := Translate(file, ToAssembly);
    failure := file.failure;
  }
}
