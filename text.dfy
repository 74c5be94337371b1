/** The few string operations the engine relies on: std::to_string for ints,
    prefix tests, and the facts that make generated uniform names unique. */
module Text {

  function DigitChar(d: nat): char
    requires d < 10
  {
    "0123456789"[d]
  }

  predicate IsDigit(c: char) { '0' <= c <= '9' }

  function DigitValue(c: char): nat
    requires IsDigit(c)
  {
    (c as int - '0' as int) as nat
  }

  /** Decimal digits of n, most significant first, no leading zeros. */
  function NatToString(n: nat): (s: string)
    ensures |s| >= 1
    ensures forall i :: 0 <= i < |s| ==> IsDigit(s[i])
    ensures n >= 10 ==> |s| >= 2
    ensures n < 10 ==> |s| == 1
  {
    if n < 10 then [DigitChar(n)] else NatToString(n / 10) + [DigitChar(n % 10)]
  }

  /** std::to_string(int). */
  function IntToString(i: int): (s: string)
    ensures |s| >= 1
    ensures forall k :: 0 <= k < |s| ==> s[k] != ']' && s[k] != '.'
  {
    if i < 0 then "-" + NatToString(-i) else NatToString(i)
  }

  lemma DigitCharInjective(a: nat, b: nat)
    requires a < 10 && b < 10
    ensures DigitChar(a) == DigitChar(b) ==> a == b
  {
  }

  lemma {:induction false} NatToStringInjective(a: nat, b: nat)
    ensures NatToString(a) == NatToString(b) ==> a == b
    decreases a
  {
    if NatToString(a) == NatToString(b) {
      if a < 10 && b < 10 {
        DigitCharInjective(a, b);
      } else if a >= 10 && b >= 10 {
        var sa, sb := NatToString(a), NatToString(b);
        assert sa[..|sa| - 1] == NatToString(a / 10);
        assert sb[..|sb| - 1] == NatToString(b / 10);
        NatToStringInjective(a / 10, b / 10);
        assert sa[|sa| - 1] == DigitChar(a % 10);
        assert sb[|sb| - 1] == DigitChar(b % 10);
        DigitCharInjective(a % 10, b % 10);
      }
    }
  }

  /** Distinct ints have distinct std::to_string forms. */
  lemma IntToStringInjective(a: int, b: int)
    ensures IntToString(a) == IntToString(b) ==> a == b
  {
    SignChar(a);
    SignChar(b);
    if IntToString(a) == IntToString(b) {
      if a < 0 && b < 0 {
        assert IntToString(a)[1..] == NatToString(-a);
        assert IntToString(b)[1..] == NatToString(-b);
        NatToStringInjective(-a, -b);
      } else if a >= 0 && b >= 0 {
        NatToStringInjective(a, b);
      }
    }
  }

  /** Only negative numbers start with a minus sign. */
  lemma SignChar(i: int)
    ensures IntToString(i)[0] == '-' <==> i < 0
  {
    if i >= 0 {
      assert IsDigit(IntToString(i)[0]);
    }
  }

  predicate StartsWith(s: string, prefix: string) {
    |prefix| <= |s| && s[..|prefix|] == prefix
  }

  /** `base + "[" + std::to_string(i) + "]" + field`, the engine's indexed uniform names. */
  function Indexed(base: string, i: int, field: string): string {
    base + "[" + IntToString(i) + "]" + field
  }

  /** In x + [m] + t, with no m inside x, the first m sits at |x|. */
  lemma MarkerPosition(x: string, m: char, t: string, k: nat)
    requires forall i :: 0 <= i < |x| ==> x[i] != m
    requires k <= |x|
    ensures (x + [m] + t)[k] == m <==> k == |x|
  {
  }

  lemma CancelAtMarker(a: string, b: string, t: string, u: string, m: char)
    requires forall k :: 0 <= k < |a| ==> a[k] != m
    requires forall k :: 0 <= k < |b| ==> b[k] != m
    requires a + [m] + t == b + [m] + u
    ensures a == b && t == u
  {
    var s := a + [m] + t;
    var k := if |a| <= |b| then |a| else |b|;
    MarkerPosition(a, m, t, k);
    MarkerPosition(b, m, u, k);
    assert |a| == |b|;
    assert a == s[..|a|] == b;
    assert t == s[|a| + 1..] == u;
  }

  /** Indexed names with different indices never coincide, whatever the fields;
      with the same index they coincide only for the same field. */
  lemma IndexedInjective(base: string, i: int, f: string, j: int, g: string)
    ensures Indexed(base, i, f) == Indexed(base, j, g) ==> i == j && f == g
  {
    if Indexed(base, i, f) == Indexed(base, j, g) {
      var si, sj := IntToString(i), IntToString(j);
      var p := base + "[";
      assert Indexed(base, i, f) == p + (si + "]" + f);
      assert Indexed(base, j, g) == p + (sj + "]" + g);
      assert si + "]" + f == sj + "]" + g by {
        assert (p + (si + "]" + f))[|p|..] == si + "]" + f;
        assert (p + (sj + "]" + g))[|p|..] == sj + "]" + g;
      }
      CancelAtMarker(si, sj, f, g, ']');
      IntToStringInjective(i, j);
    }
  }
}
