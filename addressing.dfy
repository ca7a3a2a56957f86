/** The eight VM memory segments and the Hack code that loads the location
    of one of their cells into a requested set of registers. */
module Addressing {
  import opened Options
  import opened Strings
  import opened HackSyntax

  /** A set of registers, as the bits of a 16-bit word. */
  type Destination = bv16

  const kA: Destination := 4
  const kD: Destination := 2
  const kM: Destination := 1

  /** Position of a register letter in the fixed A, D, M order. */
  function Rank(c: char): nat {
    if c == 'A' then 0 else if c == 'D' then 1 else 2
  }

  /** The letters of the registers in `destination`: each one exactly when
      its bit is set, in A, D, M order, and nothing else. */
  function DestinationString(destination: Destination): (r: string)
    ensures forall i :: 0 <= i < |r| ==> r[i] in "ADM"
    ensures 'A' in r <==> destination & kA != 0
    ensures 'D' in r <==> destination & kD != 0
    ensures 'M' in r <==> destination & kM != 0
    ensures forall i, j :: 0 <= i < j < |r| ==> Rank(r[i]) < Rank(r[j])
  {
    var a := if destination & kA != 0 then "A" else "";
    var d := if destination & kD != 0 then "D" else "";
    var m := if destination & kM != 0 then "M" else "";
    assert forall i :: 0 <= i < |a + d| ==> (a + d)[i] in "AD";
    a + d + m
  }

  datatype Address =
    | Argument(index: nat)
    | Local(index: nat)
    | This(index: nat)
    | That(index: nat)
    | Static(className: string, index: nat)
    | Constant(index: nat)
    | Pointer(index: nat)
    | Temp(index: nat)

  /** The four segments reached through a base pointer held in RAM. */
  predicate IsPointerAddressed(a: Address) {
    a.Argument? || a.Local? || a.This? || a.That?
  }

  /** The cell that holds a pointer-addressed segment's base. */
  function BasePointer(a: Address): (p: string)
    requires IsPointerAddressed(a)
    ensures p in {"ARG", "LCL", "THIS", "THAT"}
    ensures a.Argument? <==> p == "ARG"
    ensures a.Local? <==> p == "LCL"
    ensures a.This? <==> p == "THIS"
    ensures a.That? <==> p == "THAT"
  {
    match a
    case Argument(_) => "ARG"
    case Local(_) => "LCL"
    case This(_) => "THIS"
    case That(_) => "THAT"
  }

  /** The symbol a directly-addressed segment loads into A: `class.index`
      for static, the value for constant, and the absolute cell 3 + index or
      5 + index for pointer and temp, whatever the index (an index past the
      segment's end is only warned about). */
  function DirectSymbol(a: Address): string
    requires !IsPointerAddressed(a)
  {
    match a
    case Static(c, i) => c + "." + NatToString(i)
    case Constant(i) => NatToString(i)
    case Pointer(i) => NatToString(3 + i)
    case Temp(i) => NatToString(5 + i)
  }

  /** Where the value lives once its location is in A: in A itself for a
      constant, in the memory cell A points at for every other segment. */
  function ValueRegister(a: Address): (c: char)
    ensures c == (if a.Constant? then 'A' else 'M')
  {
    match a
    case Argument(_) => 'M'
    case Local(_) => 'M'
    case This(_) => 'M'
    case That(_) => 'M'
    case Static(_, _) => 'M'
    case Constant(_) => 'A'
    case Pointer(_) => 'M'
    case Temp(_) => 'M'
  }

  function AddressingCode(a: Address, destination: Destination): seq<Instruction> {
    if IsPointerAddressed(a) then
      [ At(NatToString(a.index)),
        Assign("D", "A"),
        At(BasePointer(a)),
        Assign(DestinationString(destination), "D+M") ]
    else
      // Loading the symbol already leaves it in A, so A is dropped from the
      // registers still to be written.
      var rest := destination & !kA;
      [At(DirectSymbol(a))] + (if rest != 0 then [Assign(DestinationString(rest), "A")] else [])
  }

  /** The code that loads the location of `a` into the registers of
      `destination`, line by line. */
  function AddressingAssembly(a: Address, destination: Destination): (r: string)
    ensures IsPointerAddressed(a) ==>
      r == Lines(["@" + NatToString(a.index), "D=A", "@" + BasePointer(a),
                  DestinationString(destination) + "=D+M"])
    ensures !IsPointerAddressed(a) && destination & !kA != 0 ==>
      r == Lines(["@" + DirectSymbol(a), DestinationString(destination & !kA) + "=A"])
    ensures !IsPointerAddressed(a) && destination & !kA == 0 ==>
      r == Lines(["@" + DirectSymbol(a)])
  {
    AddressingLines(a, destination);
    Text(AddressingCode(a, destination))
  }

  lemma AddressingLines(a: Address, destination: Destination)
    ensures IsPointerAddressed(a) ==>
      Rendered(AddressingCode(a, destination))
      == ["@" + NatToString(a.index), "D=A", "@" + BasePointer(a), DestinationString(destination) + "=D+M"]
    ensures !IsPointerAddressed(a) && destination & !kA != 0 ==>
      Rendered(AddressingCode(a, destination))
      == ["@" + DirectSymbol(a), DestinationString(destination & !kA) + "=A"]
    ensures !IsPointerAddressed(a) && destination & !kA == 0 ==>
      Rendered(AddressingCode(a, destination)) == ["@" + DirectSymbol(a)]
  {
    if IsPointerAddressed(a) {
      PointerAddressedLines(NatToString(a.index), BasePointer(a), DestinationString(destination));
    } else {
      DirectLines(DirectSymbol(a), DestinationString(destination & !kA));
    }
  }

  lemma PointerAddressedLines(n: string, b: string, ds: string)
    ensures Rendered([At(n), Assign("D", "A"), At(b), Assign(ds, "D+M")])
            == ["@" + n, "D=A", "@" + b, ds + "=D+M"]
  {
    assert Render(Assign("D", "A")) == "D=A";
    assert Render(Assign(ds, "D+M")) == ds + "=" + "D+M" == ds + "=D+M";
  }

  lemma DirectLines(symbol: string, ds: string)
    ensures Rendered([At(symbol)]) == ["@" + symbol]
    ensures Rendered([At(symbol)] + [Assign(ds, "A")]) == ["@" + symbol, ds + "=A"]
  {
    assert Render(Assign(ds, "A")) == ds + "=" + "A" == ds + "=A";
  }
}
