/** Route ids and the derived channel names `telegram-{route}-g{generation}` (`app/coordinator/routes.py`). */
module ChannelNames {

  predicate IsLower(c: char) { 'a' <= c <= 'z' }
  predicate IsDigit(c: char) { '0' <= c <= '9' }

  /** `^[a-z][a-z0-9-]{0,30}$` */
  predicate ValidRoute(r: string) {
    && 1 <= |r| <= 31
    && IsLower(r[0])
    && forall i | 0 <= i < |r| :: IsLower(r[i]) || IsDigit(r[i]) || r[i] == '-'
  }

  predicate AllDigits(s: string) {
    forall i | 0 <= i < |s| :: IsDigit(s[i])
  }

  function Digit(n: nat): (c: char)
    requires n < 10
    ensures IsDigit(c)
  {
    "0123456789"[n]
  }

  /** Python's `str` of a non-negative integer. */
  function Decimal(n: nat): (s: string)
    ensures |s| >= 1 && AllDigits(s)
  {
    if n < 10 then [Digit(n)] else Decimal(n / 10) + [Digit(n % 10)]
  }

  lemma DigitInjective(m: nat, n: nat)
    requires m < 10 && n < 10 && Digit(m) == Digit(n)
    ensures m == n
  {
    var d := "0123456789";
    assert d[0] == '0' && d[1] == '1' && d[2] == '2' && d[3] == '3' && d[4] == '4'
        && d[5] == '5' && d[6] == '6' && d[7] == '7' && d[8] == '8' && d[9] == '9';
  }

  lemma {:induction false} DecimalInjective(m: nat, n: nat)
    requires Decimal(m) == Decimal(n)
    ensures m == n
  {
    var s := Decimal(m);
    if m < 10 && n < 10 {
      assert s[0] == Digit(m) && s[0] == Digit(n);
      DigitInjective(m, n);
    } else if m >= 10 && n >= 10 {
      var a, b := Decimal(m / 10), Decimal(n / 10);
      assert s[|s| - 1] == Digit(m % 10) && s[|s| - 1] == Digit(n % 10);
      assert s[..|s| - 1] == a && s[..|s| - 1] == b;
      DigitInjective(m % 10, n % 10);
      DecimalInjective(m / 10, n / 10);
    } else {
      // one digit against at least two
    }
  }

  function ChannelName(r: string, generation: nat): string {
    "telegram-" + r + "-g" + Decimal(generation)
  }

  /** The shape reserved for route generations: the whole channel matches `telegram-<route>-g<digits>`. */
  ghost predicate RouteChannelShape(channel: string) {
    exists r: string, d: string :: ValidRoute(r) && |d| > 0 && AllDigits(d) && channel == "telegram-" + r + "-g" + d
  }

  lemma DerivedNamesAreReserved(r: string, generation: nat)
    requires ValidRoute(r)
    ensures RouteChannelShape(ChannelName(r, generation))
  {
  }

  /** A common prefix can be cancelled. */
  lemma CancelPrefix(p: string, s: string, t: string)
    requires p + s == p + t
    ensures s == t
  {
    assert (p + s)[|p|..] == s && (p + t)[|p|..] == t;
  }

  lemma DifferentCut(a: string, d: string, b: string, e: string)
    requires |a| < |b| && AllDigits(d)
    ensures a + "-g" + d != b + "-g" + e
  {
    var s, t := a + "-g" + d, b + "-g" + e;
    if |s| == |t| {
      assert t[|b| + 1] == 'g';
      assert s[|b| + 1] == d[|b| - |a| - 1];
    }
  }

  /** The digits behind the last `-g` are determined, so the name determines route and digits. */
  lemma SuffixUnique(a: string, d: string, b: string, e: string)
    requires a + "-g" + d == b + "-g" + e && AllDigits(d) && AllDigits(e)
    ensures a == b && d == e
  {
    if |a| < |b| { DifferentCut(a, d, b, e); }
    if |b| < |a| { DifferentCut(b, e, a, d); }
    var s := a + "-g" + d;
    assert s[..|a|] == a && s[..|b|] == b;
    assert s[|a| + 2..] == d && s[|b| + 2..] == e;
  }

  /** Channel names identify route and generation. */
  lemma ChannelNameInjective(r: string, g: nat, q: string, h: nat)
    requires ChannelName(r, g) == ChannelName(q, h)
    ensures r == q && g == h
  {
    var p := "telegram-";
    assert ChannelName(r, g) == p + (r + "-g" + Decimal(g));
    assert ChannelName(q, h) == p + (q + "-g" + Decimal(h));
    CancelPrefix(p, r + "-g" + Decimal(g), q + "-g" + Decimal(h));
    SuffixUnique(r, Decimal(g), q, Decimal(h));
    DecimalInjective(g, h);
  }

  /** The scheme on one route, and the name of a route's first channel. */
  lemma NameExamples()
    ensures ChannelName("ops", 12) == "telegram-ops-g12" && ChannelName("main", 0) == "telegram-main-g0"
  {
    var d := "0123456789";
    assert d[0] == '0' && d[1] == '1' && d[2] == '2';
    assert Decimal(1) == "1" && Decimal(12) == Decimal(1) + [Digit(2)];
    assert Decimal(12) == "12" && Decimal(0) == "0";
  }
}
