# Hack toolchain: VM translator and assembler

This project models two tools of a Hack toolchain written in C++.

- **The VM translator** reads a `.vm` file line by line. It cuts each line at
  `//` and splits it at blanks. The first token selects one of the
  stack-machine commands: `add sub neg eq gt lt and or not`, `push`/`pop`
  with one of eight segments, `label goto if-goto`, `call function return`.
  Each command is printed as Hack assembly text.
- **The assembler** trims every line of an `.asm` file. It then runs two
  passes. The first pass gives each `(label)` the number of instructions
  before it. The second pass writes one 16-digit binary word per A- or
  C-instruction, and gives each new variable the next free address from 16
  upward.

Module layout:

- `Strings`: decimal and binary rendering, comment cutting and tokenising.
- `HackSyntax`: Hack assembly as a list of `Instruction`s; `Text` turns the
  list into lines.
- `Addressing`: segments and the code that loads a segment cell's location.
- `Commands`: each VM command's assembly.
- `Parser`: the `VmFile` class and the translation loop of the driver.
- `Registers`: register letters and destination bits as the assembler reads
  them.
- `MachineCode`: the computation and jump tables, A-instruction words and the
  `CInstruction` class.
- `Assembler`: trimming, the two passes and the whole assembly.
- `Toolchain`: lemmas joining the translator's destinations to the assembler's.

Some code works by changing state step by step: the reading loop of
`VmFile::Advance`, the loops in `CallCommand`/`FunctionCommand`, the
assembler's loops and its `CInstruction` setters. That code is written as
methods and classes. Each one is proved equal to a function, and the
properties are proved about that function.

Two points where the model follows the code:

- User labels are always prefixed `<stem>.GLOBAL$`. The enclosing-function
  name set at construction (`vmtranslator/src/parser.cpp:23`) is never
  updated, even after a `function` command. `Parser.UserLabelNotGenerated`
  shows that such labels never clash with generated ones.
- A `push`/`pop` on an unknown segment makes the translator build a command
  around a null address, which fails when printed. The model treats it as a
  fatal condition at parse time (`UnknownSegment`).

## Model

| member | source | states |
|---|---|---|
| Strings.ParseNatToString | vmtranslator/src/parser.cpp:36 | reading back the decimal text of any `n` gives `n` |
| Strings.NatToStringInjective | vmtranslator/src/parser.cpp:91 | two numbers with the same decimal text are equal |
| Strings.NumberedNameInjective | vmtranslator/src/parser.cpp:91-95 | in `name<sep>number` with a non-digit separator, the text determines both the name and the number |
| Strings.FromBinaryBits | assembler/src/main.cpp:29-31 | the binary digits of a value below 2^width read back as that value |
| Strings.BitsFromBinary | assembler/src/main.cpp:43-45 | printing the value of a binary string at its own width gives that string back |
| Strings.CommentStart | vmtranslator/src/parser.cpp:76 | the position of the first `//` in the line, or the line's length when there is none; `StripComment` keeps the line up to that position |
| Strings.RemoveBlanks | assembler/src/main.cpp:155-158 | no space or tab remains, and the result is no longer than the input |
| Strings.Tokens | vmtranslator/src/parser.cpp:77-78 | every token is non-empty and blank-free; there are no tokens exactly when the line is all blanks |
| Strings.TokensOfUnwords | vmtranslator/src/parser.cpp:77-78 | splitting words joined by single spaces gives the words back |
| Strings.TokensOfSingleWord | vmtranslator/src/parser.cpp:77-78 | a non-empty text with no space or tab is a single token |
| Strings.TokensSplitAtBlank | vmtranslator/src/parser.cpp:77-78 | any space or tab splits the line: the tokens are those of the text before it followed by those of the text after it, so runs of blanks, tabs and indentation make no empty tokens |
| Addressing.DestinationString | vmtranslator/src/addressing.cpp:10-22 | only letters from `ADM`; each letter is present iff its destination bit is set; they come in A, D, M order |
| Addressing.BasePointer | vmtranslator/src/addressing.cpp:42-49 | `argument`, `local`, `this` and `that` are based on `ARG`, `LCL`, `THIS` and `THAT` respectively, each in both directions |
| Addressing.ValueRegister | vmtranslator/src/addressing.cpp:77-78 | the value is in `A` for `constant` and in `M` for every other segment |
| Addressing.AddressingAssembly | vmtranslator/src/addressing.cpp:32-75 | pointer-addressed: index into D, then `dest=D+M` on the base; direct: `@symbol`, then `dest=A` only if a register other than A remains |
| Commands.ToAssemblyWholeLines | vmtranslator/src/commands.cpp:20-275 | `ToAssembly` of every command is non-empty and ends with a line break, so the driver's concatenation never joins two instructions on one line |
| Commands.BinaryArithmeticText | vmtranslator/src/commands.cpp:20-33 | `ToAssembly` of `add sub and or` pop into D, step to the next operand and write `D+M`, `M-D`, `D&M`, `D\|M` |
| Commands.UnaryArithmeticText | vmtranslator/src/commands.cpp:38-47 | `neg`/`not` rewrite the top of the stack in place with `-M`/`!M` |
| Commands.ComparisonText | vmtranslator/src/commands.cpp:49-86 | the 17-line comparison: subtract, jump on the kind's negated condition to the else label, true branch writes -1, false branch writes 0 |
| Commands.ComparisonLabelsDistinct | vmtranslator/src/commands.cpp:78-86 | else and end labels never coincide; each is equal for two commands iff token and kind are equal |
| Commands.ComparisonDefinesOnce | vmtranslator/src/commands.cpp:49-69 | a comparison defines its else label once, its end label once, and no other label |
| Commands.PushText | vmtranslator/src/commands.cpp:91-102 | push is the addressing code for A, then `D=<value register>`, then the store at SP and the increment of SP |
| Commands.PopText | vmtranslator/src/commands.cpp:107-128 | pointer-addressed pop goes through R15; direct pop pops into D first and stores after the addressing code |
| Commands.BranchingText | vmtranslator/src/commands.cpp:132-155 | exact text of `label`, `goto` and `if-goto` (the last pops and jumps if non-zero) |
| Commands.CallAssembly | vmtranslator/src/commands.cpp:163-198 | the loop over LCL, ARG, THIS, THAT produces the call command's assembly, which is: push the return label's address; push LCL, ARG, THIS, THAT in that order; move SP past the frame; set ARG to SP minus `5 + argumentCount` and LCL to SP; jump to the callee; define the return label |
| Commands.CallText | vmtranslator/src/commands.cpp:163-198 | `ToAssembly` of a call is that same text, block by block |
| Commands.FunctionAssembly | vmtranslator/src/commands.cpp:206-226 | the zeroing loop produces exactly the function command's assembly, with no extra lines for zero locals |
| Commands.FunctionCounts | vmtranslator/src/commands.cpp:206-226 | entry defined once; `localCount` zero writes; `localCount-1` in-loop advances; one final step past, none of them for zero locals |
| Commands.ReturnText | vmtranslator/src/commands.cpp:228-275 | `ToAssembly` of return, in eight blocks: R15 gets the return address from frame cell LCL-5; the popped return value goes to the cell ARG points at; SP becomes ARG+1; THAT, THIS, ARG and LCL are restored from LCL-1 to LCL-4; the jump goes through R15 |
| Commands.ReturnSavesAddressFirst | vmtranslator/src/commands.cpp:229-235 | no instruction writes memory before the store of the return address into R15 (the sixth line), R15 is stored nowhere else, and the code ends with the jump through R15; so the return value written at ARG cannot overwrite the return address first |
| Commands.ReturnRestoresLclLast | vmtranslator/src/commands.cpp:229-271 | LCL is stored exactly once, at lines 42-43, and no use of LCL as the frame base comes after that store |
| Parser.ParseAddress | vmtranslator/src/parser.cpp:34-63 | a parsed address carries the segment named and the decimal value of a digit index, and static cells belong to the file; the only failures are a bad number and an unknown segment |
| Parser.ParseSegmentName | vmtranslator/src/parser.cpp:34-60 | the segment name and decimal index of any address parse back to that address |
| Parser.ParseAddressCases | vmtranslator/src/parser.cpp:34-63 | an address parses iff the index is a digit string and the segment is one of eight; a bad number and an unknown segment are each reported exactly in their case |
| Parser.ParseWords | vmtranslator/src/parser.cpp:84-136 | `ParseCommand` of the canonical words of any command the parser can build on a line parse back to that command |
| Parser.ParsedIsProducible | vmtranslator/src/parser.cpp:84-136 | every command the parser builds from a line of words is one of those producible on that line, with the same opcode |
| Parser.ParseCommandArity | vmtranslator/src/parser.cpp:102-136 | `ParseCommand` reports a wrong token count exactly when push, pop, call or function has other than three tokens, label, goto or if-goto other than two, or return other than one |
| Parser.ParseCommandBadOperand | vmtranslator/src/parser.cpp:102-132 | with three tokens, a bad number is reported exactly for push, pop, call and function whose third token is not digits; an unknown segment exactly for push and pop with a good index and a segment that is not one of the eight |
| Parser.ParseCommandUnknown | vmtranslator/src/parser.cpp:84-140 | a line gives neither command nor failure exactly when its opcode is none of the seventeen |
| Parser.ArithmeticIgnoresOperands | vmtranslator/src/parser.cpp:84-101 | an arithmetic opcode parses the same whatever tokens follow it, and never fails |
| Parser.ParseCanonicalLine | vmtranslator/src/parser.cpp:72-136 | a command printed as one line reads back, through the comment cut and tokenising, as the same command |
| Parser.LineTokenInjective | vmtranslator/src/parser.cpp:91-95 | comparison tokens of different files or lines differ |
| Parser.ReturnLabelInjective | vmtranslator/src/parser.cpp:128 | return labels of different files or lines differ |
| Parser.ReturnLabelNotComparison | vmtranslator/src/parser.cpp:128 | a return label is never a comparison's else or end label |
| Parser.UserLabelNotGenerated | vmtranslator/src/parser.cpp:113 | a user label under `<stem>.GLOBAL$` is never a generated `<stem>_<line>...` label |
| Parser.NextCommandLine | vmtranslator/src/parser.cpp:73-79 | the first line at or after the start with a token; every skipped line has none |
| Parser.Next | vmtranslator/src/parser.cpp:65-141 | the reading moves forward, a failure carries no command, and a reading that reads no line holds no command |
| Parser.ReadingAt | vmtranslator/src/parser.cpp:80-140 | at the end of input nothing is read; otherwise the reading is at that line's number |
| Parser.NextReads | vmtranslator/src/parser.cpp:72-82 | blank lines are skipped and counted; no command at end of input; any command read is producible on its line |
| Parser.VmFile.constructor | vmtranslator/src/parser.cpp:19-27 | opening sets the `<stem>.GLOBAL` prefix and reads the first command |
| Parser.VmFile.Advance | vmtranslator/src/parser.cpp:65-141 | the new state is the next reading after the current line |
| Parser.Translate | vmtranslator/src/main.cpp:65-77 | the loop writes the text of every remaining command in order and stops at the end, an unknown opcode or a failure |
| Parser.StopsAtNonCommand | vmtranslator/src/main.cpp:65-76 | when the next line with a token fails to parse, or has an unknown opcode, the translation writes nothing more and ends with that failure, or with none |
| Parser.TranslateFile | vmtranslator/src/main.cpp:65-77 | one file's output and failure are those of the file's translation |
| Registers.LetterRun | assembler/src/main.cpp:87-105 | the length of the leading run of `A`, `D`, `M` letters |
| Registers.DestinationBitsNonzero | assembler/src/main.cpp:87-105 | a run of register letters sets some bit iff it is non-empty |
| Registers.DestinationLettersBits | assembler/src/main.cpp:50-61 | reading back the printed registers of a destination gives the destination |
| Registers.DestinationLettersAreLetters | assembler/src/main.cpp:50-61 | the printed destination is empty iff no bit is set, and holds only register letters |
| MachineCode.ComputationCodesFit | assembler/src/main.cpp:117-129 | every computation code fits in seven bits |
| MachineCode.ComputationCodesDistinct | assembler/src/main.cpp:117-129 | no two table entries share a code |
| MachineCode.ComputationNamesDistinct | assembler/src/main.cpp:117-129 | no two table entries share a mnemonic |
| MachineCode.ComputationRoundTrip | assembler/src/main.cpp:63-85 | looking up each mnemonic gives its code, and looking up the code gives the mnemonic back |
| MachineCode.ComputationCodeCases | assembler/src/main.cpp:77-85 | a mnemonic is found iff it is in the table; what is found fits in seven bits and prints back as that mnemonic |
| MachineCode.JumpRoundTrip | assembler/src/main.cpp:107-114 | each of the eight jump mnemonics is found at its own code |
| MachineCode.MnemonicsHaveNoSeparators | assembler/src/main.cpp:117-130 | no mnemonic contains `=` or `;`, so splitting a line at them is unambiguous |
| MachineCode.AMachine | assembler/src/main.cpp:29-31 | 16 binary digits with a leading 0, whose value is the 15 low bits of the value |
| MachineCode.AAssembly | assembler/src/main.cpp:33-35 | `@` followed by the decimal text of the 15 low bits of the value |
| MachineCode.CInstruction.constructor | assembler/src/main.cpp:132-134 | all three fields start at zero |
| MachineCode.CInstruction.SetComputation | assembler/src/main.cpp:77-85 | reports whether the mnemonic is in the table, and sets that code only then; the other fields are kept |
| MachineCode.CInstruction.SetDestination | assembler/src/main.cpp:87-105 | ORs in the bits of the leading run of register letters; succeeds iff every letter is a register |
| MachineCode.CInstruction.SetJump | assembler/src/main.cpp:107-114 | reports whether the mnemonic is one of the eight, and sets that code only then |
| MachineCode.CInstruction.ToMachine | assembler/src/main.cpp:43-46 | `111`, then computation, destination and jump, each reading back as its field |
| MachineCode.CMachine | assembler/src/main.cpp:43-46 | the same word built from explicit fields: 16 binary digits whose slices read back as the fields |
| Assembler.IndexOf | assembler/src/main.cpp:216 | the first position of the character, or the length when it is absent |
| Assembler.CFieldsOf | assembler/src/main.cpp:213-229 | the fields read from a C-line: a 7-bit computation and a 3-bit jump |
| Assembler.ComputationField | assembler/src/main.cpp:222-223 | the computation read before the `;` always fits in seven bits |
| Assembler.JumpField | assembler/src/main.cpp:224-227 | the jump read after the `;` always fits in three bits |
| Assembler.EncodeC | assembler/src/main.cpp:213-228 | the C-instruction object's word is the word of the fields read from the line |
| Assembler.CTextRoundTrip | assembler/src/main.cpp:213-229 | any `dest=comp;jump` line of register letters and table mnemonics reads back as its own fields |
| Assembler.CAssemblyRoundTrip | assembler/src/main.cpp:48-75 | the assembly a C-instruction prints (`CInstruction.ToAssembly`) reads back as the same fields |
| Assembler.TrimLine | assembler/src/main.cpp:154-163 | the loop keeps exactly the non-blank characters before the first `//` |
| Assembler.TrimmedLines | assembler/src/main.cpp:153-167 | no more lines come out than go in |
| Assembler.TrimmedLinesWellFormed | assembler/src/main.cpp:164-166 | every kept line is non-empty and blank-free |
| Assembler.TrimmedLineCases | assembler/src/main.cpp:153-167 | a clean line is kept as is; a blank line or a whole-line comment is dropped |
| Assembler.TrimAll | assembler/src/main.cpp:153-167 | the reading loop produces the trimmed lines |
| Assembler.PredefinedFit | assembler/src/main.cpp:170-175 | the predefined symbols all fit in 16 bits |
| Assembler.InstructionCount | assembler/src/main.cpp:176-183 | at most one instruction per line |
| Assembler.FirstPass | assembler/src/main.cpp:176-183 | the loop builds the label table |
| Assembler.LabelTableFits | assembler/src/main.cpp:176-183 | every `LabelTable` value fits in 16 bits |
| Assembler.LabelTableDomain | assembler/src/main.cpp:170-183 | a name is in `LabelTable` iff it is predefined or some line defines it |
| Assembler.LabelAddress | assembler/src/main.cpp:177-179 | a label's last definition gives it the number of instructions before it, modulo 2^16 |
| Assembler.PredefinedKept | assembler/src/main.cpp:170-183 | a predefined symbol no label redefines keeps its address |
| Assembler.CWord | assembler/src/main.cpp:213-228 | a C word is 16 binary digits |
| Assembler.StepWritesInstruction | assembler/src/main.cpp:196-229 | `Step` on every instruction line except a rejected constant writes exactly one word |
| Assembler.StepSkipsOnlyRejected | assembler/src/main.cpp:196-212 | of the instruction lines, exactly the rejected constants (empty or above 65535) leave the pass unchanged |
| Assembler.StepRejectsConstant | assembler/src/main.cpp:198-205 | `@n` with n above 65535 writes nothing and changes nothing |
| Assembler.StepTable | assembler/src/main.cpp:206-209 | a step keeps every existing entry, adds at most one name at the current variable address, and advances the counter only when it adds one |
| Assembler.StepSymbol | assembler/src/main.cpp:206-211 | a symbol is in the table afterwards and its address is written; a known symbol changes nothing else |
| Assembler.SecondPass | assembler/src/main.cpp:191-230 | the loop writes the output of the second pass over all lines |
| Assembler.AssembleLine | assembler/src/main.cpp:193-229 | the per-line code does one step of the second pass |
| Assembler.AInstruction | assembler/src/main.cpp:196-212 | the A-instruction code does the A step |
| Assembler.RunWritesWords | assembler/src/main.cpp:192-230 | the second pass writes only 16-digit binary words |
| Assembler.RunWordCount | assembler/src/main.cpp:192-230 | it only appends, at most one word per instruction, exactly one per instruction when no constant is rejected |
| Assembler.RunKeepsTable | assembler/src/main.cpp:207-209 | a symbol's address never changes once assigned |
| Assembler.RunAllocatesFresh | assembler/src/main.cpp:191 | while the counter does not wrap, new variables get distinct addresses from 16 up, below the counter |
| Assembler.Increment16 | assembler/src/main.cpp:208 | the 16-bit counter increments normally below 65535 and wraps from 65535 to 0 |
| Assembler.ConstantLosesTopBit | assembler/src/main.cpp:200-201 | constants 32768-65535 assemble to the same word as the value minus 32768 |
| Assembler.StepConstant | assembler/src/main.cpp:198-202 | a constant up to 65535 writes the word of that constant and changes nothing else |
| Assembler.Assemble | assembler/src/main.cpp:151-230 | the whole program produces the assembled output of its input lines |
| Assembler.AssembledProperties | assembler/src/main.cpp:151-230 | output is binary words, one per instruction when no constant is rejected; labels keep their addresses; variables are fresh while the counter does not wrap |
| Toolchain.SameLetters | vmtranslator/src/addressing.cpp:10-22 | the translator prints a destination's registers exactly as the assembler prints them |
| Toolchain.DestinationReadBack | assembler/src/main.cpp:87-105 | the assembler reads the translator's destination text back as the destination's bits |

## Left out

- File and stream I/O are not modelled. A VM file is a `seq<string>` of lines with its stem; the assembler's input is a `seq<string>` and its output a `seq<string>` of words.
- The translator driver's command line, directory walk, bootstrap code and closing `END` loop (`vmtranslator/src/main.cpp:23-52`, `79-121`) are not modelled; only its per-file `Translate` loop is.
- Logging is not modelled: `LOG` messages, the `-v`/`-d` flags, the comment lines they add, and the pointer/temp index warnings.
- Parser.ParseAddress: `std::stoi` also accepts a sign, leading blanks and trailing junk, throws on overflow, and the result is narrowed to `uint16_t`. The model accepts only a non-empty digit string, reports anything else as `BadNumber`, and keeps the index unbounded.
- Parser.ParseCallOrFunction: the argument and local counts are read the same way. A negative count is therefore not modelled.
- Addressing.DirectSymbol: `3 + index` and `5 + index` are unbounded in the model; the source computes them in 16 bits.
- Parser.VmFile.Advance: the raw line buffer `line_`, kept only for messages, is not modelled.
- The execution semantics of Hack instructions are not modelled. The properties are about the text and words the tools produce, not about what the program computes when run.
- Assembler.AStep: a digit string is read with the same unbounded decimal value as in the model. Values above 65535 are rejected, as by `SimpleAtoi` into 32 bits followed by the range check. The empty string counts as a number and is rejected.
