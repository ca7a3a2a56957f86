/** Text helpers shared by the translator and the assembler: decimal and
    fixed-width binary rendering, digit-string parsing, the `//` comment cut
    and whitespace tokenising. */
module Strings {

  predicate IsDigit(c: char) {
    '0' <= c <= '9'
  }

  predicate AllDigits(s: string) {
    forall i :: 0 <= i < |s| ==> IsDigit(s[i])
  }

  /** Space and tab: the only separators either tool knows. */
  predicate IsBlank(c: char) {
    c == ' ' || c == '\t'
  }

  predicate NoBlanks(s: string) {
    forall i :: 0 <= i < |s| ==> !IsBlank(s[i])
  }

  function DigitChar(d: nat): (c: char)
    requires d < 10
    ensures IsDigit(c)
  {
    (('0' as int) + d) as char
  }

  function DigitValue(c: char): (d: nat)
    requires IsDigit(c)
    ensures d < 10
  {
    (c as int) - ('0' as int)
  }

  // ---------------------------------------------------------------------
  // Decimal numbers (printf's %u and %d on non-negative values)
  // ---------------------------------------------------------------------

  /** The decimal rendering of `n`: at least one digit, no leading zero. */
  function NatToString(n: nat): (s: string)
    ensures 1 <= |s| && AllDigits(s)
    ensures s[0] == '0' ==> n == 0 && |s| == 1
    decreases n
  {
    if n < 10 then [DigitChar(n)] else NatToString(n / 10) + [DigitChar(n % 10)]
  }

  /** The value of a digit string; the empty string has value 0. */
  function ParseDecimal(s: string): nat
    requires AllDigits(s)
  {
    if s == [] then 0 else 10 * ParseDecimal(s[..|s| - 1]) + DigitValue(s[|s| - 1])
  }

  /** Parsing undoes rendering. */
  lemma {:induction false} ParseNatToString(n: nat)
    ensures ParseDecimal(NatToString(n)) == n
    decreases n
  {
    var s := NatToString(n);
    if n >= 10 {
      ParseNatToString(n / 10);
      assert s[..|s| - 1] == NatToString(n / 10);
    }
  }

  lemma NatToStringInjective(m: nat, n: nat)
    requires NatToString(m) == NatToString(n)
    ensures m == n
  {
    ParseNatToString(m);
    ParseNatToString(n);
  }

  /** Indexing into a concatenation. */
  lemma ConcatAt(x: string, t: string, i: int)
    ensures 0 <= i < |x| + |t| ==> (x + t)[i] == if i < |x| then x[i] else t[i - |x|]
  {
  }

  /** A number followed by text that does not start with a digit can be
      split back into the number and the text. */
  lemma {:induction false} NumberPrefixInjective(m: nat, t: string, n: nat, u: string)
    requires t == [] || !IsDigit(t[0])
    requires u == [] || !IsDigit(u[0])
    requires NatToString(m) + t == NatToString(n) + u
    ensures m == n && t == u
  {
    var x, y := NatToString(m), NatToString(n);
    ConcatAt(x, t, |x|);
    ConcatAt(y, u, |x|);
    ConcatAt(x, t, |y|);
    ConcatAt(y, u, |y|);
    assert |x| == |y|;
    assert x == (x + t)[..|x|] == (y + u)[..|y|] == y;
    NatToStringInjective(m, n);
    assert t == (x + t)[|x|..] == (y + u)[|y|..] == u;
  }

  /** A name built as `prefix`, a non-digit separator and a number
      determines both the prefix and the number. */
  lemma {:induction false} NumberedNameInjective(a: string, m: nat, b: string, n: nat, sep: char)
    requires !IsDigit(sep)
    requires a + [sep] + NatToString(m) == b + [sep] + NatToString(n)
    ensures a == b && m == n
  {
    var u, v := NatToString(m), NatToString(n);
    var x := a + [sep] + u;
    assert |x| == |a| + 1 + |u| == |b| + 1 + |v|;
    var y := b + [sep] + v;
    ConcatAt(a + [sep], u, |x| - |u| - 1);
    ConcatAt(b + [sep], v, |x| - |u| - 1);
    ConcatAt(a + [sep], u, |x| - |v| - 1);
    ConcatAt(b + [sep], v, |x| - |v| - 1);
    assert |u| == |v|;
    assert u == x[|a| + 1..] == (b + [sep] + v)[|b| + 1..] == v;
    NatToStringInjective(m, n);
    assert a == x[..|a|] == (b + [sep] + v)[..|b|] == b;
  }

  // ---------------------------------------------------------------------
  // Fixed-width binary (std::bitset<N>::to_string)
  // ---------------------------------------------------------------------

  function Pow2(n: nat): (p: nat)
    ensures p >= 1
  {
    if n == 0 then 1 else 2 * Pow2(n - 1)
  }

  lemma Pow2Values()
    ensures Pow2(3) == 8 && Pow2(7) == 128 && Pow2(15) == 32768 && Pow2(16) == 65536
  {
    assert Pow2(3) == 8;
    assert Pow2(7) == 128;
    assert Pow2(15) == 32768;
  }

  predicate IsBinary(s: string) {
    forall i :: 0 <= i < |s| ==> s[i] == '0' || s[i] == '1'
  }

  /** The low `width` bits of `value`, most significant first. */
  function Bits(value: nat, width: nat): (s: string)
    ensures |s| == width && IsBinary(s)
  {
    if width == 0 then "" else Bits(value / 2, width - 1) + [if value % 2 == 0 then '0' else '1']
  }

  /** The value of a binary string, most significant digit first. */
  function FromBinary(s: string): (v: nat)
    ensures v < Pow2(|s|)
  {
    if s == [] then 0 else 2 * FromBinary(s[..|s| - 1]) + (if s[|s| - 1] == '1' then 1 else 0)
  }

  /** Reading the bits back gives the value when it fits the width. */
  lemma {:induction false} FromBinaryBits(value: nat, width: nat)
    requires value < Pow2(width)
    ensures FromBinary(Bits(value, width)) == value
  {
    if width > 0 {
      FromBinaryBits(value / 2, width - 1);
      var s := Bits(value, width);
      assert s[..|s| - 1] == Bits(value / 2, width - 1);
    }
  }

  /** Rendering then reading is the identity on binary strings. */
  lemma {:induction false} BitsFromBinary(s: string)
    requires IsBinary(s)
    ensures Bits(FromBinary(s), |s|) == s
  {
    if s != [] {
      var init := s[..|s| - 1];
      BitsFromBinary(init);
      var v := FromBinary(s);
      assert v / 2 == FromBinary(init);
      assert s == init + [s[|s| - 1]];
    }
  }

  // ---------------------------------------------------------------------
  // Comments and tokens
  // ---------------------------------------------------------------------

  predicate CommentAt(s: string, i: nat) {
    i + 1 < |s| && s[i] == '/' && s[i + 1] == '/'
  }

  /** Position of the first `//` at or after `from`, or `|s|`. */
  function CommentFrom(s: string, from: nat): (k: nat)
    requires from <= |s|
    ensures from <= k <= |s|
    ensures forall i :: from <= i < k ==> !CommentAt(s, i)
    ensures k < |s| ==> CommentAt(s, k)
    decreases |s| - from
  {
    if from == |s| then from
    else if CommentAt(s, from) then from
    else CommentFrom(s, from + 1)
  }

  /** `s.find("//")`, with `|s|` for "not found". */
  function CommentStart(s: string): (k: nat)
    ensures k <= |s|
    ensures forall i :: 0 <= i < k ==> !CommentAt(s, i)
    ensures k < |s| ==> CommentAt(s, k)
  {
    CommentFrom(s, 0)
  }

  /** Everything before the first `//`. */
  function StripComment(s: string): (r: string)
    ensures r == s[..CommentStart(s)]
  {
    s[..CommentStart(s)]
  }

  /** `s` with every space and tab taken out. */
  function RemoveBlanks(s: string): (r: string)
    ensures NoBlanks(r) && |r| <= |s|
  {
    if s == [] then ""
    else
      var c := s[|s| - 1];
      RemoveBlanks(s[..|s| - 1]) + (if IsBlank(c) then "" else [c])
  }

  /** Removing blanks works piecewise. */
  lemma {:induction false} RemoveBlanksAppend(a: string, b: string)
    ensures RemoveBlanks(a + b) == RemoveBlanks(a) + RemoveBlanks(b)
    decreases |b|
  {
    if b != [] {
      var c := b[|b| - 1];
      var b' := b[..|b| - 1];
      assert (a + b)[..|a + b| - 1] == a + b';
      RemoveBlanksAppend(a, b');
    } else {
      assert a + b == a;
    }
  }

  /** A string without blanks is left as it is. */
  lemma {:induction false} RemoveBlanksKeeps(s: string)
    requires NoBlanks(s)
    ensures RemoveBlanks(s) == s
    decreases |s|
  {
    if s != [] {
      RemoveBlanksKeeps(s[..|s| - 1]);
      assert s[..|s| - 1] + [s[|s| - 1]] == s;
    }
  }

  /** Only blanks are removed: nothing is left exactly when `s` is all
      blanks. */
  lemma {:induction false} RemoveBlanksEmpty(s: string)
    ensures RemoveBlanks(s) == [] <==> forall i :: 0 <= i < |s| ==> IsBlank(s[i])
    decreases |s|
  {
    if s != [] {
      var s' := s[..|s| - 1];
      RemoveBlanksEmpty(s');
      assert forall i :: 0 <= i < |s'| ==> s'[i] == s[i];
    }
  }

  /** Length of the leading run of non-blank characters. */
  function WordLength(s: string): (n: nat)
    ensures n <= |s|
    ensures forall i :: 0 <= i < n ==> !IsBlank(s[i])
    ensures n < |s| ==> IsBlank(s[n])
  {
    if s == [] || IsBlank(s[0]) then 0 else 1 + WordLength(s[1..])
  }

  /** absl::StrSplit(s, ByAnyChar(" \t"), SkipEmpty()): the maximal runs of
      non-blank characters, in order. */
  function Tokens(s: string): (ts: seq<string>)
    ensures forall k :: 0 <= k < |ts| ==> ts[k] != [] && NoBlanks(ts[k])
    ensures ts == [] <==> forall i :: 0 <= i < |s| ==> IsBlank(s[i])
    decreases |s|
  {
    if s == [] then []
    else if IsBlank(s[0]) then
      assert forall i :: 1 <= i < |s| ==> s[i] == s[1..][i - 1];
      Tokens(s[1..])
    else
      var n := WordLength(s);
      [s[..n]] + Tokens(s[n..])
  }

  /** Words joined by single spaces. */
  function Unwords(ws: seq<string>): string {
    if ws == [] then ""
    else if |ws| == 1 then ws[0]
    else ws[0] + " " + Unwords(ws[1..])
  }

  lemma {:induction false} TokensSkipsBlank(c: char, s: string)
    requires IsBlank(c)
    ensures Tokens([c] + s) == Tokens(s)
  {
    assert ([c] + s)[1..] == s;
  }

  lemma {:induction false} TokensOfWord(w: string, rest: string)
    requires w != [] && NoBlanks(w)
    requires rest == [] || IsBlank(rest[0])
    ensures Tokens(w + rest) == [w] + Tokens(rest)
  {
    var s := w + rest;
    WordPrefix(w, rest);
    assert s[..|w|] == w && s[|w|..] == rest;
  }

  lemma {:induction false} WordPrefix(w: string, rest: string)
    requires NoBlanks(w)
    requires rest == [] || IsBlank(rest[0])
    ensures WordLength(w + rest) == |w|
    decreases |w|
  {
    if w != [] {
      WordPrefix(w[1..], rest);
      assert (w + rest)[1..] == w[1..] + rest;
    } else {
      assert w + rest == rest;
    }
  }

  /** A single word is its own only token. */
  lemma TokensOfSingleWord(w: string)
    requires w != [] && NoBlanks(w)
    ensures Tokens(w) == [w]
  {
    TokensOfWord(w, "");
    assert w + "" == w;
  }

  /** A blank anywhere separates: the tokens of the text around it are the
      tokens before it followed by the tokens after it. With
      TokensOfSingleWord this fixes the tokens of any line, whatever runs
      of spaces and tabs it holds. */
  lemma {:induction false} TokensSplitAtBlank(a: string, c: char, b: string)
    requires IsBlank(c)
    ensures Tokens(a + [c] + b) == Tokens(a) + Tokens(b)
    decreases |a|
  {
    var s := a + [c] + b;
    if a == [] {
      assert s == [c] + b;
      TokensSkipsBlank(c, b);
    } else if IsBlank(a[0]) {
      assert s[0] == a[0] && s[1..] == a[1..] + [c] + b;
      TokensSplitAtBlank(a[1..], c, b);
      assert Tokens(s) == Tokens(s[1..]);
    } else {
      var n := WordLength(a);
      var w, rest := a[..n], a[n..] + [c] + b;
      assert rest[0] == if n < |a| then a[n] else c;
      assert s == w + rest;
      TokensOfWord(w, rest);
      TokensSplitAtBlank(a[n..], c, b);
      assert Tokens(a) == [w] + Tokens(a[n..]);
      assert Tokens(s) == [w] + (Tokens(a[n..]) + Tokens(b));
    }
  }

  /** Tokenising undoes joining with spaces. */
  lemma {:induction false} TokensOfUnwords(ws: seq<string>)
    requires forall k :: 0 <= k < |ws| ==> ws[k] != [] && NoBlanks(ws[k])
    ensures Tokens(Unwords(ws)) == ws
  {
    if ws == [] {
    } else if |ws| == 1 {
      TokensOfWord(ws[0], "");
      assert ws[0] + "" == ws[0];
    } else {
      TokensOfUnwords(ws[1..]);
      var rest := Unwords(ws[1..]);
      assert ws[0] + " " + rest == ws[0] + (" " + rest);
      TokensOfWord(ws[0], " " + rest);
      TokensSkipsBlank(' ', rest);
    }
  }
}
