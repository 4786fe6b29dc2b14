/** Risk profiles, the allocator between the two desks, and every desk's effective limits. */
module RiskLimits {
  import opened Wrappers
  import Reals
  import Rounding

  type Profile = p: int | 1 <= p <= 4 witness 2

  /** `_clamp_profile`; a zero reads as the default, not as the lowest profile. */
  function ClampProfile(value: int): Profile {
    var v := if value == 0 then 2 else value;
    if v < 1 then 1 else if v > 4 then 4 else v
  }

  function Factor(p: Profile): real {
    if p == 1 then 0.6 else if p == 2 then 1.0 else if p == 3 then 1.5 else 2.0
  }

  datatype Limits = Limits(
    drawdown: real,
    riskPerTrade: real,
    positions: real,
    perSymbol: real,
    pending: real,
    gross: real)

  function BaseLimits(p: Profile): Limits {
    if p == 1 then Limits(2.0, 0.30, 3.0, 1.0, 3.0, 3.0)
    else if p == 2 then Limits(3.5, 0.50, 5.0, 2.0, 5.0, 5.0)
    else if p == 3 then Limits(5.0, 0.75, 10.0, 3.0, 10.0, 10.0)
    else Limits(15.0, 2.0, 20.0, 5.0, 20.0, 20.0)
  }

  /** Operator overrides of the global limits. */
  datatype Overrides = Overrides(
    drawdown: Option<real>,
    riskPerTrade: Option<real>,
    positions: Option<real>,
    perSymbol: Option<real>,
    pending: Option<real>,
    gross: Option<real>)

  datatype Settings = Settings(
    profileGlobal: Profile,
    profileFast: Profile,
    profileSmc: Profile,
    fastWeight: real,
    smcWeight: real,
    overrides: Overrides)

  function Or(o: Option<real>, base: real): real {
    if o.Some? then o.value else base
  }

  function GlobalLimits(s: Settings): Limits {
    var b := BaseLimits(s.profileGlobal);
    Limits(Or(s.overrides.drawdown, b.drawdown), Or(s.overrides.riskPerTrade, b.riskPerTrade),
           Or(s.overrides.positions, b.positions), Or(s.overrides.perSymbol, b.perSymbol),
           Or(s.overrides.pending, b.pending), Or(s.overrides.gross, b.gross))
  }

  function Min(a: real, b: real): real { if a <= b then a else b }

  function Max(a: real, b: real): real { if a >= b then a else b }

  const MICRO: nat := 1000000

  function Score(weight: real, p: Profile): (r: real)
    ensures r > 0.0
  {
    Max(0.0001, weight * Factor(p))
  }

  /** A desk's rounded share of the global budget. */
  function Share(own: real, other: real): real
    requires own > 0.0 && other > 0.0
  {
    Rounding.RoundTo(own / (own + other), MICRO)
  }

  function FastShare(s: Settings): real {
    Share(Score(s.fastWeight, s.profileFast), Score(s.smcWeight, s.profileSmc))
  }

  function SmcShare(s: Settings): real {
    Share(Score(s.smcWeight, s.profileSmc), Score(s.fastWeight, s.profileFast))
  }

  /** The whole slots a desk is allotted out of a global cap; never none. */
  function Slots(cap: real, share: real): int {
    WholeSlots(cap * share)
  }

  function WholeSlots(y: real): int {
    var n := Rounding.HalfEven(y);
    if n < 1 then 1 else n
  }

  /** A desk's limits: its profile's, or its share of the global ones where that is less. */
  function Allotted(g: Limits, d: Limits, share: real): Limits {
    Limits(
      Min(d.drawdown, g.drawdown),
      Min(d.riskPerTrade, Max(0.01, g.riskPerTrade * share)),
      Min(d.positions, Slots(g.positions, share) as real),
      Min(d.perSymbol, g.perSymbol),
      Min(d.pending, Slots(g.pending, share) as real),
      Min(d.gross, Max(0.01, g.gross * share)))
  }

  function FastLimits(s: Settings): Limits {
    Allotted(GlobalLimits(s), BaseLimits(s.profileFast), FastShare(s))
  }

  function SmcLimits(s: Settings): Limits {
    Allotted(GlobalLimits(s), BaseLimits(s.profileSmc), SmcShare(s))
  }

  /** A profile from one to four is kept, zero reads as two, and the rest goes to the nearest end. */
  lemma ClampIs(v: int)
    ensures ClampProfile(v) == v <==> 1 <= v <= 4
    ensures v == 0 ==> ClampProfile(v) == 2
    ensures v < 0 ==> ClampProfile(v) <= 1
    ensures v > 4 ==> ClampProfile(v) >= 4
  {
  }

  predicate IsLesser(x: real, a: real, b: real) {
    x <= a && x <= b && (x == a || x == b)
  }

  /** In every respect a desk is held to its own profile or to what the account leaves it,
      whichever is less: the account's limit itself, or the desk's portion of it. */
  ghost predicate HeldTo(x: Limits, own: Limits, account: Limits, portion: Limits) {
    && IsLesser(x.drawdown, own.drawdown, account.drawdown)
    && IsLesser(x.perSymbol, own.perSymbol, account.perSymbol)
    && IsLesser(x.positions, own.positions, WholeSlots(portion.positions) as real)
    && IsLesser(x.pending, own.pending, WholeSlots(portion.pending) as real)
    && IsLesser(x.riskPerTrade, own.riskPerTrade, if portion.riskPerTrade >= 0.01 then portion.riskPerTrade else 0.01)
    && IsLesser(x.gross, own.gross, if portion.gross >= 0.01 then portion.gross else 0.01)
  }

  /** A share of the account's limits, before rounding. */
  ghost predicate IsPortion(portion: Limits, account: Limits, share: real) {
    && portion.positions == account.positions * share && portion.pending == account.pending * share
    && portion.riskPerTrade == account.riskPerTrade * share && portion.gross == account.gross * share
  }

  lemma AllottedIsHeld(g: Limits, d: Limits, share: real, portion: Limits)
    requires IsPortion(portion, g, share)
    ensures HeldTo(Allotted(g, d, share), d, g, portion)
  {
    WholeIsLesser(d.positions, g.positions, share, portion.positions);
    WholeIsLesser(d.pending, g.pending, share, portion.pending);
    PartIsLesser(d.riskPerTrade, g.riskPerTrade, share, portion.riskPerTrade);
    PartIsLesser(d.gross, g.gross, share, portion.gross);
  }

  lemma WholeIsLesser(own: real, cap: real, share: real, y: real)
    requires y == cap * share
    ensures IsLesser(Min(own, Slots(cap, share) as real), own, WholeSlots(y) as real)
  {
  }

  lemma PartIsLesser(own: real, cap: real, share: real, y: real)
    requires y == cap * share
    ensures IsLesser(Min(own, Max(0.01, cap * share)), own, if y >= 0.01 then y else 0.01)
  {
  }

  /** The fast desk is held to its own profile and its own share of the account's limits. */
  lemma FastIsHeld(s: Settings, portion: Limits)
    requires IsPortion(portion, GlobalLimits(s), FastShare(s))
    ensures HeldTo(FastLimits(s), BaseLimits(s.profileFast), GlobalLimits(s), portion)
  {
    AllottedIsHeld(GlobalLimits(s), BaseLimits(s.profileFast), FastShare(s), portion);
  }

  /** And the smc desk to its own. */
  lemma SmcIsHeld(s: Settings, portion: Limits)
    requires IsPortion(portion, GlobalLimits(s), SmcShare(s))
    ensures HeldTo(SmcLimits(s), BaseLimits(s.profileSmc), GlobalLimits(s), portion)
  {
    AllottedIsHeld(GlobalLimits(s), BaseLimits(s.profileSmc), SmcShare(s), portion);
  }

  // ---- The shares ----

  lemma RatioSplits(a: real, b: real)
    requires a > 0.0 && b > 0.0
    ensures 0.0 <= a / (a + b) <= 1.0 && b / (b + a) == 1.0 - a / (a + b)
  {
    assert a / (a + b) + b / (a + b) == (a + b) / (a + b) == 1.0;
    assert a / (a + b) >= 0.0 && b / (a + b) >= 0.0;
  }

  /** The two rounded shares are fractions that sum to exactly one: nothing is allotted twice
      and nothing is lost to rounding. */
  lemma SharesSumToOne(s: Settings)
    ensures FastShare(s) + SmcShare(s) == 1.0
    ensures 0.0 <= FastShare(s) <= 1.0 && 0.0 <= SmcShare(s) <= 1.0
  {
    var a, b := Score(s.fastWeight, s.profileFast), Score(s.smcWeight, s.profileSmc);
    RatioSplits(a, b);
    RatioSplits(b, a);
    var x := a / (a + b);
    assert b / (b + a) * MICRO as real == MICRO as real - x * MICRO as real;
    Rounding.HalfEvenComplement(x * MICRO as real, MICRO);
    Rounding.RoundToWithin(x, 0, 1, MICRO);
    Rounding.RoundToWithin(1.0 - x, 0, 1, MICRO);
  }

  lemma EqualWeightsRatio(w: real, f: real, g: real, a: real, b: real)
    requires w > 0.0 && a == w * f && b == w * g && 4.0 * g <= 3.0 * f && g > 0.0
    ensures a / (a + b) >= 0.57
  {
    var t := a + b;
    assert t == w * (f + g) && 100.0 * f >= 57.0 * (f + g);
    assert a > 0.0 && t > 0.0;
    ScaledAtLeast(w, 100.0 * f, 57.0 * (f + g), 100.0 * a, 57.0 * t);
    Reals.CancelPositive(0.57, a / t, t, 0.57 * t, a);
  }

  lemma ScaledAtLeast(w: real, x: real, y: real, wx: real, wy: real)
    requires w > 0.0 && x >= y && wx == w * x && wy == w * y
    ensures wx >= wy
  {
    if x > y { Reals.PositiveProduct(w, x - y, wx - wy); }
  }

  /** With equal weights the desk with the higher profile gets the larger share. */
  lemma HigherProfileGetsMore(s: Settings)
    requires s.fastWeight == s.smcWeight >= 0.001
    ensures s.profileFast > s.profileSmc ==> FastShare(s) >= 0.57
    ensures s.profileFast < s.profileSmc ==> SmcShare(s) >= 0.57
    ensures s.profileFast == s.profileSmc ==> FastShare(s) == 0.5
  {
    var w, f, g := s.fastWeight, Factor(s.profileFast), Factor(s.profileSmc);
    HigherScore(w, s.profileFast, s.profileSmc, w * f, w * g);
    HigherScore(w, s.profileSmc, s.profileFast, w * g, w * f);
    if s.profileFast == s.profileSmc { EvenShare(w * f); }
  }

  lemma HigherScore(w: real, p: Profile, q: Profile, a: real, b: real)
    requires w >= 0.001 && a == w * Factor(p) && b == w * Factor(q)
    ensures Score(w, p) == a && Score(w, q) == b
    ensures p > q ==> Share(a, b) >= 0.57
  {
    ScaledAtLeast(w, Factor(p), 0.6, a, 0.6 * w);
    ScaledAtLeast(w, Factor(q), 0.6, b, 0.6 * w);
    if p > q {
      EqualWeightsRatio(w, Factor(p), Factor(q), a, b);
      Rounding.RoundToMonotone(0.57, a / (a + b), MICRO);
      assert (570000.0).Floor == 570000;
    }
  }

  lemma EvenShare(a: real)
    requires a > 0.0
    ensures Share(a, a) == 0.5
  {
    assert a / (a + a) == 0.5;
    assert (500000.0).Floor == 500000;
  }

  lemma WholeSlotsRange(g: int, y: real)
    requires 0.0 <= y <= g as real
    ensures 0 <= Rounding.HalfEven(y) <= g
  {
    Rounding.HalfEvenMonotone(0.0, y);
    Rounding.HalfEvenMonotone(y, g as real);
    Rounding.HalfEvenExact(0);
    Rounding.HalfEvenExact(g);
  }

  /** Splitting a whole cap of g slots at y overallots it by one slot exactly in these cases: a
      desk that would get none is given one, or a tie rounds both desks up. */
  predicate Overallots(g: int, y: real) {
    var z := g as real - y;
    || y < 0.5 || z < 0.5
    || ((y == 0.5 || z == 0.5) && (g % 2 == 0 || g == 1))
    || (Rounding.IsTie(y) && g % 2 == 1 && y.Floor % 2 == 1)
  }

  /** The desks' slots sum to the cap, one less on some ties, or one more as above. */
  lemma SplitSlots(g: int, y: real)
    requires g >= 1 && 0.0 <= y <= g as real
    ensures g - 1 <= WholeSlots(y) + WholeSlots(g as real - y) <= g + 1
    ensures WholeSlots(y) + WholeSlots(g as real - y) == g + 1 <==> Overallots(g, y)
  {
    var z := g as real - y;
    Rounding.HalfEvenComplement(y, g);
    WholeSlotsRange(g, y);
    WholeSlotsRange(g, z);
    var n := Rounding.HalfEven(y);
    assert n == 0 <==> y <= 0.5;
    assert Rounding.HalfEven(z) == 0 <==> z <= 0.5;
  }

  lemma SplitProduct(g: int, cap: real, x: real, x': real, y: real, y': real)
    requires g >= 1 && cap == g as real && x >= 0.0 && x' >= 0.0 && x + x' == 1.0
    requires y == cap * x && y' == cap * x'
    ensures y + y' == g as real && y >= 0.0 && y' >= 0.0
  {
    assert y + y' == cap * (x + x');
  }

  lemma SlotsAre(cap: real, x: real, y: real)
    requires y == cap * x
    ensures Slots(cap, x) == WholeSlots(y)
  {
  }

  lemma SlotsOfSplit(g: int, cap: real, x: real, x': real, y: real, y': real)
    requires g >= 1 && y + y' == g as real && y >= 0.0 && y' >= 0.0
    requires Slots(cap, x) == WholeSlots(y) && Slots(cap, x') == WholeSlots(y')
    ensures g - 1 <= Slots(cap, x) + Slots(cap, x') <= g + 1
    ensures Slots(cap, x) + Slots(cap, x') == g + 1 <==> Overallots(g, y)
  {
    SplitSlots(g, y);
    assert y' == g as real - y;
  }

  /** Desks whose shares sum to one may together exceed a whole global cap by at most one slot,
      and do so exactly when the split overallots it. */
  lemma SlotsNearCap(g: int, cap: real, x: real, x': real, y: real, y': real)
    requires g >= 1 && cap == g as real && x >= 0.0 && x' >= 0.0 && x + x' == 1.0
    requires y == cap * x && y' == cap * x'
    ensures g - 1 <= Slots(cap, x) + Slots(cap, x') <= g + 1
    ensures Slots(cap, x) + Slots(cap, x') == g + 1 <==> Overallots(g, y)
  {
    SplitProduct(g, cap, x, x', y, y');
    SlotsAre(cap, x, y);
    SlotsAre(cap, x', y');
    SlotsOfSplit(g, cap, x, x', y, y');
  }

  lemma BudgetPairNearCap(g: int, cap: real, d: real, e: real, x: real, x': real)
    requires g >= 1 && cap == g as real && x >= 0.0 && x' >= 0.0 && x + x' == 1.0
    ensures Min(d, Slots(cap, x) as real) + Min(e, Slots(cap, x') as real) <= (g + 1) as real
  {
    SlotsNearCap(g, cap, x, x', cap * x, cap * x');
  }

  /** A profile's budgets are whole. */
  lemma BaseBudgets(p: Profile)
    ensures BaseLimits(p).positions == BaseLimits(p).positions.Floor as real >= 1.0
    ensures BaseLimits(p).pending == BaseLimits(p).pending.Floor as real >= 1.0
  {
  }

  /** A whole cap of g slots split into y and y' is exceeded by profiles asking for d and e: it
      leaves no slot, or the split overallots it by a slot that neither profile takes back. */
  predicate Exceeded(g: int, y: real, y': real, d: real, e: real) {
    g < 1 || (Overallots(g, y) && WholeSlots(y) as real <= d && WholeSlots(y') as real <= e)
  }

  lemma PairExceedsIff(g: int, d: int, e: int, y: real, n: int, m: int)
    requires n >= 1 && m >= 1 && d >= 1 && e >= 1
    requires g >= 1 ==> n + m <= g + 1 && (n + m == g + 1 <==> Overallots(g, y))
    ensures Min(d as real, n as real) + Min(e as real, m as real) > g as real <==>
      g < 1 || (Overallots(g, y) && n as real <= d as real && m as real <= e as real)
  {
    if g >= 1 {
      MinPair(g, n, m, d, e);
    } else {
      AtLeastOne(g, n, m, d, e);
    }
  }

  lemma SplitExceedsIff(g: int, cap: real, d: int, e: int, x: real, x': real, y: real, y': real)
    requires cap == g as real && x >= 0.0 && x' >= 0.0 && x + x' == 1.0 && d >= 1 && e >= 1
    requires y == cap * x && y' == cap * x'
    ensures Min(d as real, WholeSlots(y) as real) + Min(e as real, WholeSlots(y') as real) > cap <==>
      Exceeded(g, y, y', d as real, e as real)
  {
    if g >= 1 {
      SplitProduct(g, cap, x, x', y, y');
      SplitSlots(g, y);
      assert y' == g as real - y;
    }
    PairExceedsIff(g, d, e, y, WholeSlots(y), WholeSlots(y'));
  }

  lemma MinPair(g: int, n: int, m: int, d: int, e: int)
    requires n + m <= g + 1
    ensures Min(d as real, n as real) + Min(e as real, m as real) > g as real <==>
      n + m == g + 1 && n as real <= d as real && m as real <= e as real
  {
    var k, l := if d <= n then d else n, if e <= m then e else m;
    assert Min(d as real, n as real) == k as real && Min(e as real, m as real) == l as real;
    assert k as real + l as real == (k + l) as real;
  }

  lemma AtLeastOne(g: int, n: int, m: int, d: int, e: int)
    requires g < 1 && n >= 1 && m >= 1 && d >= 1 && e >= 1
    ensures Min(d as real, n as real) + Min(e as real, m as real) > g as real
  {
  }

  /** The desks' position budgets, and their pending budgets, exceed a whole global cap by at
      most one. */
  lemma DeskBudgetsNearCap(s: Settings, positions: int, pending: int)
    requires GlobalLimits(s).positions == positions as real && positions >= 1
    requires GlobalLimits(s).pending == pending as real && pending >= 1
    ensures FastLimits(s).positions + SmcLimits(s).positions <= (positions + 1) as real
    ensures FastLimits(s).pending + SmcLimits(s).pending <= (pending + 1) as real
  {
    SharesSumToOne(s);
    var g, d, e := GlobalLimits(s), BaseLimits(s.profileFast), BaseLimits(s.profileSmc);
    BudgetPairNearCap(positions, g.positions, d.positions, e.positions, FastShare(s), SmcShare(s));
    BudgetPairNearCap(pending, g.pending, d.pending, e.pending, FastShare(s), SmcShare(s));
  }

  lemma SharedCapExceedsIff(
    s: Settings, g: int, cap: real, d: int, e: int, x: real, x': real, y: real, y': real)
    requires x == FastShare(s) && x' == SmcShare(s) && cap == g as real && d >= 1 && e >= 1
    requires y == cap * x && y' == cap * x'
    ensures Min(d as real, Slots(cap, x) as real) + Min(e as real, Slots(cap, x') as real) > cap <==>
      Exceeded(g, y, y', d as real, e as real)
  {
    SharesSumToOne(s);
    SlotsAre(cap, x, y);
    SlotsAre(cap, x', y');
    SplitExceedsIff(g, cap, d, e, x, x', y, y');
  }

  /** The position budgets of the desks exceed a whole cap together exactly if the cap is below
      one, or its split overallots it and neither desk's profile asks for less than its slots. */
  lemma PositionsExceedIff(s: Settings, g: int, cap: real, x: real, x': real, y: real, y': real)
    requires GlobalLimits(s).positions == cap == g as real && x == FastShare(s) && x' == SmcShare(s)
    requires y == cap * x && y' == cap * x'
    ensures FastLimits(s).positions + SmcLimits(s).positions > cap <==>
      Exceeded(g, y, y', BaseLimits(s.profileFast).positions, BaseLimits(s.profileSmc).positions)
  {
    var d, e := BaseLimits(s.profileFast), BaseLimits(s.profileSmc);
    BaseBudgets(s.profileFast);
    BaseBudgets(s.profileSmc);
    SharedCapExceedsIff(s, g, cap, d.positions.Floor, e.positions.Floor, x, x', y, y');
  }

  /** And so do the budgets of pending orders. */
  lemma PendingExceedIff(s: Settings, g: int, cap: real, x: real, x': real, y: real, y': real)
    requires GlobalLimits(s).pending == cap == g as real && x == FastShare(s) && x' == SmcShare(s)
    requires y == cap * x && y' == cap * x'
    ensures FastLimits(s).pending + SmcLimits(s).pending > cap <==>
      Exceeded(g, y, y', BaseLimits(s.profileFast).pending, BaseLimits(s.profileSmc).pending)
  {
    var d, e := BaseLimits(s.profileFast), BaseLimits(s.profileSmc);
    BaseBudgets(s.profileFast);
    BaseBudgets(s.profileSmc);
    SharedCapExceedsIff(s, g, cap, d.pending.Floor, e.pending.Floor, x, x', y, y');
  }

  /** A cap of one split evenly: each desk rounds to no slot, is given one, and keeps it. */
  lemma CapOfOneIsExceeded()
    ensures var s := Settings(2, 2, 2, 1.0, 1.0, Overrides(None, None, Some(1.0), None, None, None));
      GlobalLimits(s).positions == 1.0 && FastLimits(s).positions == 1.0 && SmcLimits(s).positions == 1.0
  {
    EvenShares(Settings(2, 2, 2, 1.0, 1.0, Overrides(None, None, Some(1.0), None, None, None)));
  }

  lemma EvenShares(s: Settings)
    requires Score(s.fastWeight, s.profileFast) == 1.0 && Score(s.smcWeight, s.profileSmc) == 1.0
    ensures FastShare(s) == 0.5 && SmcShare(s) == 0.5
  {
    assert (500000.0).Floor == 500000;
  }

  /** And a split that overallots a cap which the profiles then keep. */
  lemma SmallProfilesKeepCap()
    ensures var s := Settings(4, 2, 2, 0.99, 0.01, Overrides(None, None, None, None, None, None));
      && GlobalLimits(s).positions == 20.0 && Overallots(20, 20.0 * FastShare(s))
      && FastLimits(s).positions + SmcLimits(s).positions == 6.0
  {
    var s := Settings(4, 2, 2, 0.99, 0.01, Overrides(None, None, None, None, None, None));
    assert FastShare(s) == 0.99 by {
      assert 0.99 / (0.99 + 0.01) == 0.99;
      assert (990000.0).Floor == 990000;
    }
    SharesSumToOne(s);
    assert (19.8).Floor == 19 && (0.2).Floor == 0;
  }

  // ---- Raising one desk ----

  ghost predicate AtMost(a: Limits, b: Limits) {
    && a.drawdown <= b.drawdown && a.riskPerTrade <= b.riskPerTrade && a.positions <= b.positions
    && a.perSymbol <= b.perSymbol && a.pending <= b.pending && a.gross <= b.gross
  }

  predicate NonNegative(o: Overrides) {
    && Or(o.riskPerTrade, 0.0) >= 0.0 && Or(o.positions, 0.0) >= 0.0
    && Or(o.pending, 0.0) >= 0.0 && Or(o.gross, 0.0) >= 0.0
  }

  lemma ScoreMonotone(w: real, p: Profile, w': real, p': Profile)
    requires w <= w' && p <= p'
    ensures Score(w, p) <= Score(w', p')
  {
    assert 0.6 <= Factor(p) <= Factor(p');
    if w * Factor(p) > 0.0001 {
      assert w > 0.0;
      assert w * Factor(p) <= w' * Factor(p);
      assert w' * Factor(p) <= w' * Factor(p');
    }
  }

  lemma CrossDivide(a: real, b: real, c: real, d: real)
    requires b > 0.0 && d > 0.0 && a * d <= c * b
    ensures a / b <= c / d
  {
    var q, r := a / b, c / d;
    assert q * b == a && r * d == c;
    assert q * (b * d) == a * d && r * (b * d) == c * b;
    Reals.CancelPositive(q, r, b * d, a * d, c * b);
  }

  lemma RatioMonotone(a: real, a': real, b: real)
    requires 0.0 < a <= a' && b > 0.0
    ensures a / (a + b) <= a' / (a' + b) && b / (b + a') <= b / (b + a)
  {
    assert a * b <= a' * b;
    assert a * (a' + b) <= a' * (a + b);
    CrossDivide(a, a + b, a', a' + b);
    assert b * (b + a) <= b * (b + a');
    CrossDivide(b, b + a', b, b + a);
  }

  /** A desk's share grows with its own score and shrinks with the other's. */
  lemma ShareMonotone(a: real, a': real, b: real)
    requires 0.0 < a <= a' && b > 0.0
    ensures Share(a, b) <= Share(a', b) && Share(b, a') <= Share(b, a)
  {
    var own, own', other, other' := a / (a + b), a' / (a' + b), b / (b + a), b / (b + a');
    RatioMonotone(a, a', b);
    Rounding.RoundToMonotone(own, own', MICRO);
    Rounding.RoundToMonotone(other', other, MICRO);
  }

  /** A bigger share of the same cap gives no fewer slots. */
  lemma SlotsMonotone(cap: real, x: real, y: real)
    requires cap >= 0.0 && x <= y
    ensures Slots(cap, x) <= Slots(cap, y)
  {
    var u, v := cap * x, cap * y;
    assert u <= v by { ScaleMonotone(cap, x, y); }
    Rounding.HalfEvenMonotone(u, v);
  }

  lemma BaseLimitsMonotone(p: Profile, q: Profile)
    requires p <= q
    ensures AtMost(BaseLimits(p), BaseLimits(q))
  {
  }

  lemma GlobalNonNegative(s: Settings)
    requires NonNegative(s.overrides)
    ensures var g := GlobalLimits(s); g.riskPerTrade >= 0.0 && g.positions >= 0.0 && g.pending >= 0.0 && g.gross >= 0.0
  {
  }

  lemma WholeBudgetMonotone(cap: real, d: real, e: real, x: real, y: real)
    requires cap >= 0.0 && d <= e && x <= y
    ensures Min(d, Slots(cap, x) as real) <= Min(e, Slots(cap, y) as real)
  {
    SlotsMonotone(cap, x, y);
  }

  lemma BudgetMonotone(cap: real, d: real, e: real, x: real, y: real)
    requires cap >= 0.0 && d <= e && x <= y
    ensures Min(d, Max(0.01, cap * x)) <= Min(e, Max(0.01, cap * y))
  {
    ScaleMonotone(cap, x, y);
    MinMaxMonotone(d, e, cap * x, cap * y);
  }

  lemma MinMaxMonotone(d: real, e: real, u: real, v: real)
    requires d <= e && u <= v
    ensures Min(d, Max(0.01, u)) <= Min(e, Max(0.01, v))
  {
  }

  /** A bigger share of the same caps gives no smaller limit. */
  lemma AllottedMonotone(g: Limits, d: Limits, e: Limits, x: real, y: real)
    requires g.riskPerTrade >= 0.0 && g.positions >= 0.0 && g.pending >= 0.0 && g.gross >= 0.0
    requires AtMost(d, e) && x <= y
    ensures AtMost(Allotted(g, d, x), Allotted(g, e, y))
  {
    WholeBudgetMonotone(g.positions, d.positions, e.positions, x, y);
    WholeBudgetMonotone(g.pending, d.pending, e.pending, x, y);
    BudgetMonotone(g.gross, d.gross, e.gross, x, y);
    BudgetMonotone(g.riskPerTrade, d.riskPerTrade, e.riskPerTrade, x, y);
  }

  lemma ScaleMonotone(g: real, x: real, y: real)
    requires g >= 0.0 && x <= y
    ensures g * x <= g * y
  {
    if g == 0.0 {
      assert g * x == 0.0 && g * y == 0.0;
    } else if x < y {
      assert g * (y - x) > 0.0 && g * (y - x) == g * y - g * x;
    }
  }

  /** Raising the fast desk's weight or profile lowers none of its limits and raises none of the
      smc desk's. */
  lemma RaisingFast(s: Settings, weight: real, p: Profile)
    requires NonNegative(s.overrides) && s.fastWeight <= weight && s.profileFast <= p
    ensures var t := s.(fastWeight := weight, profileFast := p);
      AtMost(FastLimits(s), FastLimits(t)) && AtMost(SmcLimits(t), SmcLimits(s))
  {
    var t := s.(fastWeight := weight, profileFast := p);
    ScoreMonotone(s.fastWeight, s.profileFast, weight, p);
    ShareMonotone(Score(s.fastWeight, s.profileFast), Score(weight, p), Score(s.smcWeight, s.profileSmc));
    GlobalNonNegative(s);
    BaseLimitsMonotone(s.profileFast, p);
    AllottedMonotone(GlobalLimits(s), BaseLimits(s.profileFast), BaseLimits(p), FastShare(s), FastShare(t));
    AllottedMonotone(GlobalLimits(s), BaseLimits(s.profileSmc), BaseLimits(s.profileSmc), SmcShare(t), SmcShare(s));
  }

  /** And the same for the smc desk. */
  lemma RaisingSmc(s: Settings, weight: real, p: Profile)
    requires NonNegative(s.overrides) && s.smcWeight <= weight && s.profileSmc <= p
    ensures var t := s.(smcWeight := weight, profileSmc := p);
      AtMost(SmcLimits(s), SmcLimits(t)) && AtMost(FastLimits(t), FastLimits(s))
  {
    var t := s.(smcWeight := weight, profileSmc := p);
    ScoreMonotone(s.smcWeight, s.profileSmc, weight, p);
    ShareMonotone(Score(s.smcWeight, s.profileSmc), Score(weight, p), Score(s.fastWeight, s.profileFast));
    GlobalNonNegative(s);
    BaseLimitsMonotone(s.profileSmc, p);
    AllottedMonotone(GlobalLimits(s), BaseLimits(s.profileSmc), BaseLimits(p), SmcShare(s), SmcShare(t));
    AllottedMonotone(GlobalLimits(s), BaseLimits(s.profileFast), BaseLimits(s.profileFast), FastShare(t), FastShare(s));
  }
}
