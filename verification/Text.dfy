/** The Go library's strings.Split and strings.Join for a one-character separator, and strconv.Itoa and Atoi, as the
    quality settings and the encoder arguments use them. */
module Text {
  import opened Wrappers

  // ---- Split and Join ----

  /** The position of the first `c`, or |s|. */
  function Index(s: string, c: char): (i: nat)
    ensures i <= |s| && c !in s[..i] && (i < |s| ==> s[i] == c)
  {
    if s == "" || s[0] == c then 0 else Index(s[1..], c) + 1
  }

  function Split(s: string, c: char): (parts: seq<string>)
    ensures |parts| > 0 && forall p :: p in parts ==> c !in p
    decreases |s|
  {
    var i := Index(s, c);
    if i == |s| then [s] else [s[..i]] + Split(s[i + 1..], c)
  }

  function Join(parts: seq<string>, c: char): string {
    if parts == [] then ""
    else if |parts| == 1 then parts[0]
    else parts[0] + [c] + Join(parts[1..], c)
  }

  lemma {:induction false} IndexAfter(p: string, rest: string, c: char)
    requires c !in p
    ensures Index(p + [c] + rest, c) == |p|
  {
    if p != "" {
      assert (p + [c] + rest)[1..] == p[1..] + [c] + rest;
      IndexAfter(p[1..], rest, c);
    }
  }

  lemma {:induction false} IndexNowhere(p: string, c: char)
    requires c !in p
    ensures Index(p, c) == |p|
  {
    if p != "" {
      IndexNowhere(p[1..], c);
    }
  }

  lemma SplitFirst(p: string, rest: string, c: char)
    requires c !in p
    ensures Split(p + [c] + rest, c) == [p] + Split(rest, c)
  {
    var s := p + [c] + rest;
    IndexAfter(p, rest, c);
    hide Index;
    assert s[..|p|] == p && s[|p| + 1..] == rest;
  }

  lemma SplitNothing(p: string, c: char)
    requires c !in p
    ensures Split(p, c) == [p]
  {
    IndexNowhere(p, c);
    hide Index;
  }

  lemma {:induction false} SplitJoin(parts: seq<string>, c: char)
    requires |parts| > 0 && forall p :: p in parts ==> c !in p
    ensures Split(Join(parts, c), c) == parts
  {
    hide Index, Split;
    if |parts| == 1 {
      SplitNothing(parts[0], c);
    } else {
      SplitFirst(parts[0], Join(parts[1..], c), c);
      SplitJoin(parts[1..], c);
    }
  }

  lemma {:induction false} JoinSplit(s: string, c: char)
    ensures Join(Split(s, c), c) == s
    decreases |s|
  {
    hide Index;
    var i := Index(s, c);
    if i < |s| {
      JoinSplit(s[i + 1..], c);
      JoinFirst(s[..i], Split(s[i + 1..], c), c);
    }
  }

  lemma JoinFirst(p: string, rest: seq<string>, c: char)
    requires rest != []
    ensures Join([p] + rest, c) == p + [c] + Join(rest, c)
  {
    assert ([p] + rest)[1..] == rest;
  }

  // ---- Itoa and Atoi ----

  const MAX_INT: int := 0x7FFF_FFFF_FFFF_FFFF

  function Digit(d: nat): (c: char)
    requires d < 10
    ensures IsDigit(c) && DigitValue(c) == d
  {
    '0' + d as char
  }

  predicate IsDigit(c: char) { '0' <= c <= '9' }

  function DigitValue(c: char): nat
    requires IsDigit(c)
  {
    c as int - '0' as int
  }

  predicate AllDigits(s: string) { forall k :: 0 <= k < |s| ==> IsDigit(s[k]) }

  function Value(s: string): nat
    requires AllDigits(s)
  {
    if s == "" then 0 else Value(s[..|s| - 1]) * 10 + DigitValue(s[|s| - 1])
  }

  function Digits(n: nat): (s: string)
    ensures |s| > 0 && AllDigits(s) && Value(s) == n
  {
    if n < 10 then
      var s := [Digit(n)];
      assert s[..0] == "";
      s
    else
      var s := Digits(n / 10) + [Digit(n % 10)];
      assert s[..|s| - 1] == Digits(n / 10);
      s
  }

  function Itoa(n: int): string {
    if n < 0 then "-" + Digits(-n) else Digits(n)
  }

  /** An optional sign and decimal digits, within 64 bits. */
  function Atoi(s: string): Option<int> {
    var signed := s != "" && (s[0] == '-' || s[0] == '+');
    var digits := if signed then s[1..] else s;
    if digits == "" || !AllDigits(digits) then None
    else
      var size: int := Value(digits);
      var n := if signed && s[0] == '-' then -size else size;
      if -MAX_INT - 1 <= n <= MAX_INT then Some(n) else None
  }

  lemma AtoiItoa(n: int)
    ensures Atoi(Itoa(n)) == if -9223372036854775808 <= n <= 9223372036854775807 then Some(n) else None
  {
  }

  /** Integers are written in decimal, the most significant digit first, after a minus sign if negative. */
  lemma WrittenInDecimal(n: int)
    requires n >= 0
    ensures Itoa(n) == if n < 10 then ["0123456789"[n]] else Itoa(n / 10) + ["0123456789"[n % 10]]
    ensures n > 0 ==> Itoa(-n) == "-" + Itoa(n)
  {
    DigitIs(n % 10);
    hide Digit;
  }

  lemma OneDigitMore(n: int, d: int)
    requires n > 0 && 0 <= d < 10
    ensures Itoa(10 * n + d) == Itoa(n) + ["0123456789"[d]]
  {
    WrittenInDecimal(10 * n + d);
    hide Itoa;
    assert (10 * n + d) / 10 == n && (10 * n + d) % 10 == d;
  }

  lemma DigitIs(d: nat)
    requires d < 10
    ensures Digit(d) == "0123456789"[d]
  {
  }

  /** A sign may come first. */
  lemma AtoiSigned(n: int)
    requires 0 <= n <= 9223372036854775807
    ensures Atoi("+" + Itoa(n)) == Some(n) && Atoi("-" + Itoa(n)) == Some(-n)
  {
    assert ("+" + Digits(n))[1..] == Digits(n) && ("-" + Digits(n))[1..] == Digits(n);
  }

  /** Nothing else is read: no digit at all, or something else than a digit after the sign, is an error. */
  lemma AtoiRejects(s: string, k: nat)
    requires s == "" || s == "+" || s == "-" ||
             (k < |s| && s[k] !in "0123456789" && (k == 0 ==> s[0] != '+' && s[0] != '-'))
    ensures Atoi(s) == None
  {
    DigitsListed();
    if k < |s| && k > 0 {
      assert s[1..][k - 1] == s[k];
    }
  }

  lemma DigitsListed()
    ensures forall c :: IsDigit(c) ==> c in "0123456789"
  {
    forall c | IsDigit(c) ensures c in "0123456789" {
      assert "0123456789"[c as int - '0' as int] == c;
    }
  }

  /** What Itoa writes is digits after at most one minus sign, so no separator is among it. */
  lemma ItoaIsPlain(n: int, c: char)
    requires !IsDigit(c) && c != '-'
    ensures c !in Itoa(n)
  {
  }
}
