/**
 * Shared vocabulary of the model: optional values, decimal rendering of
 * integers (Kotlin string templates), joining, and the integer arithmetic of
 * the JVM (truncating division and 32-bit wrap-around).
 */
module Common {

  datatype Option<T> = None | Some(value: T)

  /** The Kotlin elvis operator `x ?: d`. */
  function OrElse<T>(x: Option<T>, d: T): T
  {
    if x.Some? then x.value else d
  }

  function DigitChar(d: nat): (c: char)
    requires d < 10
    ensures '0' <= c <= '9'
  {
    "0123456789"[d]
  }

  predicate IsDecimal(s: string)
  {
    |s| >= 1 && forall i :: 0 <= i < |s| ==> '0' <= s[i] <= '9'
  }

  /** Decimal text of a natural number, as a string template prints it. */
  function NatToString(n: nat): (s: string)
    ensures IsDecimal(s)
    ensures n < 10 <==> |s| == 1
    decreases n
  {
    if n < 10 then [DigitChar(n)] else NatToString(n / 10) + [DigitChar(n % 10)]
  }

  /** Decimal text of an integer: a minus sign, then the digits of its magnitude. */
  function IntToString(i: int): (s: string)
    ensures |s| >= 1
    ensures s[0] == '-' <==> i < 0
  {
    if i < 0 then "-" + NatToString(-i) else NatToString(i)
  }

  lemma {:induction false} NatToStringInjective(a: nat, b: nat)
    requires NatToString(a) == NatToString(b)
    ensures a == b
    decreases a
  {
    var sa, sb := NatToString(a), NatToString(b);
    if a < 10 || b < 10 {
      assert a < 10 && b < 10;
      assert "0123456789"[a] == sa[0] == sb[0] == "0123456789"[b];
    } else {
      assert sa[..|sa| - 1] == NatToString(a / 10);
      assert sb[..|sb| - 1] == NatToString(b / 10);
      NatToStringInjective(a / 10, b / 10);
      assert "0123456789"[a % 10] == sa[|sa| - 1] == sb[|sb| - 1] == "0123456789"[b % 10];
    }
  }

  /** Distinct integers print differently; document ids built from ids rely on it. */
  lemma {:induction false} IntToStringInjective(a: int, b: int)
    requires IntToString(a) == IntToString(b)
    ensures a == b
  {
    var s := IntToString(a);
    if a < 0 {
      assert b < 0;
      var na, nb := NatToString(-a), NatToString(-b);
      assert s == "-" + na && s == "-" + nb;
      assert na == s[1..] == nb;
      NatToStringInjective(-a, -b);
    } else {
      assert b >= 0;
      NatToStringInjective(a, b);
    }
  }

  /** Length of the run of decimal digits a text starts with. */
  function DigitRun(w: string): nat
  {
    if w == [] || !('0' <= w[0] <= '9') then 0 else 1 + DigitRun(w[1..])
  }

  /** Digits followed by a non-digit: the run is exactly the digits. */
  lemma {:induction false} DigitRunOf(x: string, s: string)
    requires forall i :: 0 <= i < |x| ==> '0' <= x[i] <= '9'
    requires s != [] && !('0' <= s[0] <= '9')
    ensures DigitRun(x + s) == |x|
  {
    if x == [] {
      assert x + s == s;
    } else {
      assert (x + s)[1..] == x[1..] + s;
      DigitRunOf(x[1..], s);
    }
  }

  /** Digit strings followed by non-digits: equal texts have equal digit parts. */
  lemma {:induction false} DigitPrefix(x: string, s: string, y: string, t: string)
    requires IsDecimal(x) && IsDecimal(y) && s != [] && t != []
    requires !('0' <= s[0] <= '9') && !('0' <= t[0] <= '9')
    requires x + s == y + t
    ensures x == y && s == t
  {
    DigitRunOf(x, s);
    DigitRunOf(y, t);
    assert x == (x + s)[..|x|] && y == (y + t)[..|y|];
    assert s == (x + s)[|x|..] && t == (y + t)[|y|..];
  }

  /** `joinToString(sep)`: the items with `sep` between neighbours. */
  function Join(items: seq<string>, sep: string): (r: string)
    ensures items == [] ==> r == ""
    ensures |items| == 1 ==> r == items[0]
    ensures |items| >= 2 ==> r == items[0] + sep + Join(items[1..], sep)
  {
    if items == [] then ""
    else if |items| == 1 then items[0]
    else items[0] + sep + Join(items[1..], sep)
  }

  /** Joining two non-empty lists end to end is joining each and putting `sep` between. */
  lemma {:induction false} JoinConcat(a: seq<string>, b: seq<string>, sep: string)
    requires a != [] && b != []
    ensures Join(a + b, sep) == Join(a, sep) + sep + Join(b, sep)
    decreases |a|
  {
    if |a| == 1 {
      assert (a + b)[1..] == b;
    } else {
      assert (a + b)[1..] == a[1..] + b;
      JoinConcat(a[1..], b, sep);
    }
  }

  /** Kotlin `a / b` on Long or Int: the quotient truncated toward zero. */
  function TruncDiv(a: int, b: int): (q: int)
    requires b > 0
    ensures a >= 0 ==> q == a / b
    ensures a < 0 ==> q == -((-a) / b)
  {
    if a >= 0 then a / b else -((-a) / b)
  }

  /** Kotlin `a % b`: the remainder takes the sign of `a`. */
  function TruncRem(a: int, b: int): (r: int)
    requires b > 0
    ensures a == b * TruncDiv(a, b) + r
    ensures a >= 0 ==> 0 <= r < b
    ensures a < 0 ==> -b < r <= 0
  {
    a - b * TruncDiv(a, b)
  }

  const INT32_MODULUS: int := 0x1_0000_0000

  /** The value a 32-bit two's-complement `Int` holds after an overflowing computation of `x`. */
  function Int32(x: int): (r: int)
    ensures -0x8000_0000 <= r < 0x8000_0000
    ensures (r - x) % INT32_MODULUS == 0
    ensures -0x8000_0000 <= x < 0x8000_0000 ==> r == x
  {
    var m := x % INT32_MODULUS;
    if m >= 0x8000_0000 then m - INT32_MODULUS else m
  }

  /** Elements of `s` kept by `p`, in order: Kotlin `filter`. */
  function Filter<T(!new)>(s: seq<T>, p: T -> bool): (r: seq<T>)
    ensures |r| <= |s|
    ensures forall x :: x in r <==> x in s && p(x)
  {
    if s == [] then [] else (if p(s[0]) then [s[0]] else []) + Filter(s[1..], p)
  }

  lemma {:induction false} FilterAppend<T(!new)>(a: seq<T>, b: seq<T>, p: T -> bool)
    ensures Filter(a + b, p) == Filter(a, p) + Filter(b, p)
    decreases |a|
  {
    if a == [] {
      assert a + b == b;
    } else {
      assert (a + b)[1..] == a[1..] + b;
      FilterAppend(a[1..], b, p);
    }
  }

  lemma {:induction false} FilterNone<T(!new)>(s: seq<T>, p: T -> bool)
    requires forall x :: x in s ==> !p(x)
    ensures Filter(s, p) == []
    decreases |s|
  {
    if s != [] {
      assert s[0] in s;
      assert forall x :: x in s[1..] ==> x in s;
      FilterNone(s[1..], p);
    }
  }

  lemma {:induction false} FilterAll<T(!new)>(s: seq<T>, p: T -> bool)
    requires forall x :: x in s ==> p(x)
    ensures Filter(s, p) == s
    decreases |s|
  {
    if s != [] {
      assert s[0] in s;
      assert forall x :: x in s[1..] ==> x in s;
      FilterAll(s[1..], p);
    }
  }

  /** The first element of `s` satisfying `p`: Kotlin `find`/`firstOrNull`. */
  function Find<T(!new)>(s: seq<T>, p: T -> bool): (r: Option<T>)
    ensures r.None? <==> forall x :: x in s ==> !p(x)
    ensures r.Some? ==> r.value in s && p(r.value)
    ensures r.Some? ==> |Filter(s, p)| > 0 && r.value == Filter(s, p)[0]
  {
    if s == [] then None
    else if p(s[0]) then Some(s[0])
    else Find(s[1..], p)
  }
}
