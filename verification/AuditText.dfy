/** Decimal and hexadecimal text, and fields joined with a separator. */
module AuditText {

  type Byte = b: nat | b < 256

  predicate NoPipe(s: string) {
    '|' !in s
  }

  // Decimal numbers

  const DIGITS: string := "0123456789abcdef"

  function Decimal(n: nat): (s: string)
    ensures s != [] && NoPipe(s) && '-' !in s
  {
    if n < 10 then [DIGITS[n]] else Decimal(n / 10) + [DIGITS[n % 10]]
  }

  function IntText(n: int): (s: string)
    ensures NoPipe(s)
  {
    if n < 0 then "-" + Decimal(-n) else Decimal(n)
  }

  function DigitValue(c: char): nat {
    if '0' <= c <= '9' then (c - '0') as nat
    else if 'a' <= c <= 'f' then (c - 'a') as nat + 10
    else 0
  }

  lemma DigitRoundTrip(d: nat)
    requires d < 16
    ensures DigitValue(DIGITS[d]) == d
  {
  }

  function ParseDecimal(s: string): nat {
    if s == [] then 0 else 10 * ParseDecimal(s[..|s| - 1]) + DigitValue(s[|s| - 1])
  }

  lemma {:induction false} DecimalRoundTrip(n: nat)
    ensures ParseDecimal(Decimal(n)) == n
  {
    DigitRoundTrip(n % 10);
    if n < 10 {
      assert Decimal(n)[..0] == [];
    } else {
      DecimalRoundTrip(n / 10);
      assert Decimal(n)[..|Decimal(n)| - 1] == Decimal(n / 10);
    }
  }

  function ParseInt(s: string): int {
    if s != [] && s[0] == '-' then 0 - ParseDecimal(s[1..]) else ParseDecimal(s)
  }

  lemma IntTextInjective(a: int, b: int)
    requires IntText(a) == IntText(b)
    ensures a == b
  {
    IntRoundTrip(a);
    IntRoundTrip(b);
  }

  lemma ParseSigned(s: string)
    requires s != [] && '-' !in s
    ensures ParseInt(s) == ParseDecimal(s)
    ensures ParseInt("-" + s) == 0 - ParseDecimal(s)
  {
    assert s[0] in s;
    assert ("-" + s)[1..] == s;
  }

  lemma IntRoundTrip(n: int)
    ensures ParseInt(IntText(n)) == n
  {
    var size := if n < 0 then -n else n;
    DecimalRoundTrip(size);
    ParseSigned(Decimal(size));
  }

  // Hexadecimal bytes

  function Hex(bytes: seq<Byte>): (s: string)
    ensures NoPipe(s) && |s| == 2 * |bytes|
  {
    if bytes == [] then [] else [DIGITS[bytes[0] / 16], DIGITS[bytes[0] % 16]] + Hex(bytes[1..])
  }

  lemma {:induction false} HexInjective(a: seq<Byte>, b: seq<Byte>)
    requires Hex(a) == Hex(b)
    ensures a == b
    decreases |a|
  {
    if a != [] && b != [] {
      DigitRoundTrip(a[0] / 16);
      DigitRoundTrip(a[0] % 16);
      DigitRoundTrip(b[0] / 16);
      DigitRoundTrip(b[0] % 16);
      assert Hex(a)[0] == DIGITS[a[0] / 16] && Hex(a)[1] == DIGITS[a[0] % 16];
      assert Hex(b)[0] == DIGITS[b[0] / 16] && Hex(b)[1] == DIGITS[b[0] % 16];
      assert Hex(a[1..]) == Hex(a)[2..] && Hex(b[1..]) == Hex(b)[2..];
      HexInjective(a[1..], b[1..]);
      assert a == [a[0]] + a[1..] && b == [b[0]] + b[1..];
    }
  }

  // Joined fields

  function Join(fields: seq<string>): string {
    if fields == [] then []
    else if |fields| == 1 then fields[0]
    else fields[0] + "|" + Join(fields[1..])
  }

  /** Text up to the first separator is unambiguous. */
  lemma FirstPipe(a: string, x: string, b: string, y: string)
    requires NoPipe(a) && NoPipe(b) && a + "|" + x == b + "|" + y
    ensures a == b && x == y
  {
    var s := a + "|" + x;
    assert s[|a|] == '|' && s[|b|] == '|';
    assert forall i :: 0 <= i < |a| ==> s[i] == a[i] != '|';
    assert forall i :: 0 <= i < |b| ==> s[i] == b[i] != '|';
    assert a == s[..|a|] && b == s[..|b|] && x == s[|a| + 1..] && y == s[|b| + 1..];
  }

  /** Text after the last separator is unambiguous. */
  lemma LastPipe(a: string, x: string, b: string, y: string)
    requires NoPipe(x) && NoPipe(y) && a + "|" + x == b + "|" + y
    ensures a == b && x == y
  {
    var s := a + "|" + x;
    assert s[|a|] == '|' && s[|b|] == '|';
    assert forall i :: |a| < i < |s| ==> s[i] == x[i - |a| - 1] != '|';
    assert forall i :: |b| < i < |s| ==> s[i] == y[i - |b| - 1] != '|';
    assert a == s[..|a|] && b == s[..|b|] && x == s[|a| + 1..] && y == s[|b| + 1..];
  }

  /** Leading fields that are equal or free of separators can be read back. */
  lemma {:induction false} PeelFields(f: seq<string>, g: seq<string>, k: nat)
    requires k < |f| && k < |g| && Join(f) == Join(g)
    requires forall i :: 0 <= i < k ==> f[i] == g[i] || (NoPipe(f[i]) && NoPipe(g[i]))
    ensures f[..k] == g[..k] && Join(f[k..]) == Join(g[k..])
    decreases k
  {
    if k == 0 {
      assert f[0..] == f && g[0..] == g;
    } else {
      var x, y := Join(f[1..]), Join(g[1..]);
      if f[0] == g[0] {
        assert x == Join(f)[|f[0]| + 1..] && y == Join(g)[|g[0]| + 1..];
      } else {
        FirstPipe(f[0], x, g[0], y);
      }
      PeelFields(f[1..], g[1..], k - 1);
      assert f[..k] == [f[0]] + f[1..][..k - 1] && g[..k] == [g[0]] + g[1..][..k - 1];
      assert f[k..] == f[1..][k - 1..] && g[k..] == g[1..][k - 1..];
    }
  }

  /** A separator inside a field can be moved to the next one without changing the text. */
  lemma {:induction false} PipeShift(f: seq<string>, i: nat, a: string, b: string)
    requires i + 1 < |f| && f[i] == a + "|" + b
    ensures Join(f[i := a][i + 1 := b + "|" + f[i + 1]]) == Join(f)
    decreases i
  {
    var g := f[i := a][i + 1 := b + "|" + f[i + 1]];
    if i > 0 {
      PipeShift(f[1..], i - 1, a, b);
      assert g[1..] == f[1..][i - 1 := a][i := b + "|" + f[1..][i]];
    } else {
      assert g[1..][1..] == f[1..][1..];
      if |f| == 2 {
        assert Join(f[1..]) == f[1] && Join(g[1..]) == g[1];
        assert (a + "|" + b) + "|" + f[1] == a + "|" + (b + "|" + f[1]);
      } else {
        var rest := Join(f[1..][1..]);
        assert Join(f[1..]) == f[1] + "|" + rest;
        assert Join(g[1..]) == (b + "|" + f[1]) + "|" + rest;
        assert (a + "|" + b) + "|" + (f[1] + "|" + rest) == a + "|" + ((b + "|" + f[1]) + "|" + rest);
      }
    }
  }
}
