/** Python string primitives the modelled components rely on. */
module Text {

  /** The code points for which Python's `str.isspace` holds. */
  predicate IsSpace(c: char) {
    || '\t' <= c <= '\r'
    || '\U{001C}' <= c <= ' '
    || c == '\U{0085}' || c == '\U{00A0}' || c == '\U{1680}'
    || '\U{2000}' <= c <= '\U{200A}'
    || c == '\U{2028}' || c == '\U{2029}' || c == '\U{202F}'
    || c == '\U{205F}' || c == '\U{3000}'
  }

  /** `str.lstrip()` */
  function Lstrip(s: string): (r: string)
    ensures r == [] || !IsSpace(r[0])
    ensures |r| <= |s|
  {
    if s != [] && IsSpace(s[0]) then Lstrip(s[1..]) else s
  }

  lemma {:induction false} LstripIsSuffix(s: string)
    ensures Lstrip(s) == s[|s| - |Lstrip(s)|..]
    decreases |s|
  {
    if s != [] && IsSpace(s[0]) {
      LstripIsSuffix(s[1..]);
    }
  }

  /** `str.rstrip()` */
  function Rstrip(s: string): (r: string)
    ensures r == [] || !IsSpace(r[|r| - 1])
    ensures r <= s
  {
    if s != [] && IsSpace(s[|s| - 1]) then Rstrip(s[..|s| - 1]) else s
  }

  lemma {:induction false} LstripBefore(a: string, b: string)
    requires b != "" && !IsSpace(b[0])
    ensures Lstrip(a + b) == Lstrip(a) + b
    decreases |a|
  {
    if a == "" {
      assert a + b == b;
    } else {
      assert (a + b)[1..] == a[1..] + b;
      LstripBefore(a[1..], b);
    }
  }

  /** `str.strip()` */
  function Strip(s: string): string {
    Rstrip(Lstrip(s))
  }

  /** No whitespace at either end. */
  predicate Trimmed(s: string) {
    s == [] || (!IsSpace(s[0]) && !IsSpace(s[|s| - 1]))
  }

  lemma StripTrims(s: string)
    ensures Trimmed(Strip(s))
    ensures Trimmed(s) ==> Strip(s) == s
  {
    var l := Lstrip(s);
    var r := Rstrip(l);
    if r != [] {
      assert r[0] == l[0];
    }
  }

  /** `str(n)` for a natural number. */
  function Decimal(n: nat): (s: string)
    ensures |s| >= 1
    ensures forall i :: 0 <= i < |s| ==> '0' <= s[i] <= '9'
  {
    if n < 10 then [DigitChar(n)] else Decimal(n / 10) + [DigitChar(n % 10)]
  }

  function DigitChar(d: nat): (c: char)
    requires d < 10
    ensures '0' <= c <= '9'
    ensures c as int == '0' as int + d
  {
    '0' + d as char
  }

  predicate IsDecimal(s: string) {
    |s| >= 1 && forall i :: 0 <= i < |s| ==> '0' <= s[i] <= '9'
  }

  /** `int(s)` on a string of ASCII digits. */
  function ParseDecimal(s: string): nat
    requires forall i :: 0 <= i < |s| ==> '0' <= s[i] <= '9'
  {
    if s == [] then 0
    else ParseDecimal(s[..|s| - 1]) * 10 + (s[|s| - 1] as int - '0' as int)
  }

  lemma {:induction false} DecimalRoundTrip(n: nat)
    ensures IsDecimal(Decimal(n)) && ParseDecimal(Decimal(n)) == n
  {
    var s := Decimal(n);
    if n < 10 {
      assert s[..0] == [];
      assert ParseDecimal(s[..|s| - 1]) == 0;
    } else {
      DecimalRoundTrip(n / 10);
      assert s[..|s| - 1] == Decimal(n / 10);
    }
  }

  /** A numeral is never longer than its value, and much shorter from ten thousand on. */
  lemma {:induction false} DigitCount(n: nat)
    requires n >= 1
    ensures |Decimal(n)| <= n
    ensures n >= 10_000 ==> |Decimal(n)| + 9_000 <= n
  {
    if n >= 10 {
      DigitCount(n / 10);
      assert |Decimal(n)| == |Decimal(n / 10)| + 1;
    }
  }
}
