/** Candidate scores: resolved weights, min-max components, traffic balance and the sticky bonus. */
module Scoring {
  import opened Basics
  import opened UsageTracking

  const EPSILON_32: real := 0.00000011920928955078125
  const EPSILON_64: real := 0.0000000000000002220446049250313080847263336181640625
  const STICKY_BONUS: real := 0.12
  const STICKY_MIN_HEADROOM: real := 0.2

  function Clamp(v: real, lo: real, hi: real): real { if v < lo then lo else if v > hi then hi else v }

  function Abs(x: real): real { if x < 0.0 then -x else x }

  // ---- weights ----

  datatype Weights = Weights(fast: real, slow: real, quality: real, cost: real, latency: real, priority: real,
                             traffic: real) {
    function Sum(): real { fast + slow + quality + cost + latency + priority + traffic }

    predicate NonNegative() {
      fast >= 0.0 && slow >= 0.0 && quality >= 0.0 && cost >= 0.0 && latency >= 0.0 && priority >= 0.0 && traffic >= 0.0
    }

    /** Division of every component by `d`. */
    function Over(d: real): Weights
      requires d != 0.0
    {
      Weights(fast / d, slow / d, quality / d, cost / d, latency / d, priority / d, traffic / d)
    }
  }

  const WITH_PRIORITY := Weights(0.20, 0.15, 0.20, 0.15, 0.10, 0.10, 0.10)
  const WITHOUT_PRIORITY := Weights(0.25, 0.20, 0.20, 0.15, 0.10, 0.00, 0.10)

  /** Overrides of the request, or else of the group. */
  datatype Overrides = Overrides(cost: Option<real>, latency: Option<real>, quality: Option<real>) {
    function Else(group: Overrides): Overrides {
      Overrides(cost.Or(group.cost), latency.Or(group.latency), quality.Or(group.quality))
    }
  }

  function Overridden(base: Weights, o: Overrides): Weights {
    var w := if o.cost.Some? then base.(cost := Clamp(o.cost.value, 0.0, 1.0)) else base;
    var v := if o.latency.Some? then w.(latency := Clamp(o.latency.value, 0.0, 1.0)) else w;
    if o.quality.Some? then v.(quality := Clamp(o.quality.value, 0.0, 1.0)) else v
  }

  function ResolveWeights(base: Weights, req: Overrides, group: Overrides): Weights {
    var w := Overridden(base, req.Else(group));
    w.Over(if w.Sum() > EPSILON_32 then w.Sum() else 1.0)
  }

  lemma QuotientSign(a: real, d: real)
    requires a >= 0.0 && d > 0.0
    ensures a / d >= 0.0
  {
  }

  lemma SelfQuotient(d: real)
    requires d > 0.0
    ensures d / d == 1.0
  {
  }

  lemma OverSum(w: Weights, d: real)
    requires d != 0.0
    ensures w.Over(d).Sum() == w.Sum() / d
  {
  }

  lemma OverriddenIsPositive(base: Weights, o: Overrides)
    requires base == WITH_PRIORITY || base == WITHOUT_PRIORITY
    ensures var w := Overridden(base, o);
            w.NonNegative() && w.Sum() >= 0.2 && w.Sum() > EPSILON_32 &&
            (o == Overrides(None, None, None) ==> w == base && w.Sum() == 1.0) &&
            w.fast == base.fast && w.slow == base.slow && w.priority == base.priority && w.traffic == base.traffic &&
            (o.cost.None? ==> w.cost == base.cost) && (o.latency.None? ==> w.latency == base.latency) &&
            (o.quality.None? ==> w.quality == base.quality)
  {
    assert base.NonNegative() && base.Sum() == 1.0;
  }

  lemma OverIsNonNegative(w: Weights, d: real)
    requires w.NonNegative() && d > 0.0
    ensures w.Over(d).NonNegative()
  {
    QuotientSign(w.fast, d);
    QuotientSign(w.slow, d);
    QuotientSign(w.quality, d);
    QuotientSign(w.cost, d);
    QuotientSign(w.latency, d);
    QuotientSign(w.priority, d);
    QuotientSign(w.traffic, d);
  }

  lemma OverOne(w: Weights)
    ensures w.Over(1.0) == w
  {
  }

  /** Resolved weights are nonnegative and sum to one; without an override they are the built-in ones. */
  lemma ResolvedWeightsAreNormalised(base: Weights, req: Overrides, group: Overrides)
    requires base == WITH_PRIORITY || base == WITHOUT_PRIORITY
    ensures var w := ResolveWeights(base, req, group);
            w.NonNegative() && w.Sum() == 1.0 &&
            (req.Else(group) == Overrides(None, None, None) ==> w == base)
  {
    OverriddenIsPositive(base, req.Else(group));
    var w := Overridden(base, req.Else(group));
    OverIsNonNegative(w, w.Sum());
    OverSum(w, w.Sum());
    SelfQuotient(w.Sum());
    OverOne(base);
  }

  lemma SameQuotientRatio(a: real, b: real, d: real)
    requires d != 0.0
    ensures (a / d) * b == (b / d) * a
  {
    var x, y := a / d, b / d;
    assert x * d == a && y * d == b;
    assert x * (y * d) == y * (x * d);
  }

  /** Components without an override keep their proportions. */
  lemma UntouchedKeepProportions(base: Weights, req: Overrides, group: Overrides)
    requires base == WITH_PRIORITY || base == WITHOUT_PRIORITY
    ensures var w := ResolveWeights(base, req, group);
            w.fast * base.slow == w.slow * base.fast && w.fast * base.priority == w.priority * base.fast &&
            w.fast * base.traffic == w.traffic * base.fast
    ensures var w, o := ResolveWeights(base, req, group), req.Else(group);
            (o.cost.None? ==> w.fast * base.cost == w.cost * base.fast) &&
            (o.latency.None? ==> w.fast * base.latency == w.latency * base.fast) &&
            (o.quality.None? ==> w.fast * base.quality == w.quality * base.fast)
  {
    OverriddenIsPositive(base, req.Else(group));
    var d := Overridden(base, req.Else(group)).Sum();
    SameQuotientRatio(base.fast, base.slow, d);
    SameQuotientRatio(base.fast, base.priority, d);
    SameQuotientRatio(base.fast, base.traffic, d);
    SameQuotientRatio(base.fast, base.cost, d);
    SameQuotientRatio(base.fast, base.latency, d);
    SameQuotientRatio(base.fast, base.quality, d);
  }

  /** An override keeps its clamped value in proportion to the built-in weights, the request's before the group's. */
  lemma OverridesKeepProportions(base: Weights, req: Overrides, group: Overrides)
    requires base == WITH_PRIORITY || base == WITHOUT_PRIORITY
    ensures var w := ResolveWeights(base, req, group);
            InProportion(w.cost, w.fast, base.fast, if req.cost.Some? then req.cost else group.cost) &&
            InProportion(w.latency, w.fast, base.fast, if req.latency.Some? then req.latency else group.latency) &&
            InProportion(w.quality, w.fast, base.fast, if req.quality.Some? then req.quality else group.quality)
  {
    var o := Overridden(base, req.Else(group));
    OverriddenIsPositive(base, req.Else(group));
    OverrideStays(base, req.Else(group));
    hide Overridden, Clamp, Clamped, Weights.Sum, InProportion;
    QuotientsInProportion(o.cost, o.fast, o.Sum(), if req.cost.Some? then req.cost else group.cost);
    QuotientsInProportion(o.latency, o.fast, o.Sum(), if req.latency.Some? then req.latency else group.latency);
    QuotientsInProportion(o.quality, o.fast, o.Sum(), if req.quality.Some? then req.quality else group.quality);
  }

  lemma QuotientsInProportion(a: real, fast: real, d: real, override: Option<real>)
    requires d != 0.0 && (override.Some? ==> a == Clamped(override.value))
    ensures InProportion(a / d, fast / d, fast, override)
  {
    SameQuotientRatio(a, fast, d);
  }

  lemma OverrideStays(base: Weights, o: Overrides)
    ensures var w := Overridden(base, o);
            (o.cost.Some? ==> w.cost == Clamped(o.cost.value)) &&
            (o.latency.Some? ==> w.latency == Clamped(o.latency.value)) &&
            (o.quality.Some? ==> w.quality == Clamped(o.quality.value))
  {
  }

  /** Between zero and one. */
  function Clamped(v: real): real { if v < 0.0 then 0.0 else if v > 1.0 then 1.0 else v }

  /** A resolved weight against the resolved fast weight is the override, between zero and one, against the built-in. */
  predicate InProportion(w: real, fast: real, base: real, override: Option<real>) {
    override.Some? ==> w * base == fast * Clamped(override.value)
  }

  // ---- components ----

  /** What scoring looks at in one candidate; `price` is the effective input price in USD. */
  datatype Entrant = Entrant(
    fast: Room, slow: Room, quality: real, price: Option<real>, latency: Option<real>, priority: Option<int>,
    brand: nat)

  /** The effective price of a sticky group is blended with the cached rate. */
  function EffectivePrice(list: Option<real>, cached: Option<real>, usdRate: real, sticky: bool): Option<real> {
    if list.None? then None
    else if sticky && cached.Some? then Some(0.25 * (list.value * usdRate) + 0.75 * (cached.value * usdRate))
    else Some(list.value * usdRate)
  }

  function Lowest(s: seq<Option<real>>): Option<real> {
    if s == [] then None
    else
      var rest := Lowest(s[1..]);
      if s[0].None? || (rest.Some? && rest.value <= s[0].value) then rest else s[0]
  }

  function Highest(s: seq<Option<real>>): Option<real> {
    if s == [] then None
    else
      var rest := Highest(s[1..]);
      if s[0].None? || (rest.Some? && rest.value >= s[0].value) then rest else s[0]
  }

  lemma {:induction false} RangeCovers(s: seq<Option<real>>)
    ensures forall i :: 0 <= i < |s| && s[i].Some? ==>
              Lowest(s).Some? && Highest(s).Some? && Lowest(s).value <= s[i].value <= Highest(s).value
  {
    if s != [] {
      RangeCovers(s[1..]);
      forall i | 0 <= i < |s| && s[i].Some?
        ensures Lowest(s).Some? && Highest(s).Some? && Lowest(s).value <= s[i].value <= Highest(s).value
      {
        assert i > 0 ==> s[i] == s[1..][i - 1];
      }
    }
  }

  /** Lower is better: 1 at the pool's minimum, 0 at its maximum, 0.5 when unknown or all equal. */
  function MinMaxScore(v: Option<real>, lo: Option<real>, hi: Option<real>): real {
    if v.None? || lo.None? || hi.None? || Abs(hi.value - lo.value) < EPSILON_64 then 0.5
    else 1.0 - (v.value - lo.value) / (hi.value - lo.value)
  }

  function PriorityScore(p: Option<int>, lo: Option<real>, hi: Option<real>): real {
    if p.None? || lo.None? || hi.None? then 0.5
    else if lo.value == hi.value then 1.0
    else 1.0 - (p.value as real - lo.value) / (hi.value - lo.value)
  }

  function RoomScore(room: Room): real {
    if room.NegInf? then 0.0 else (Clamp(room.v, -1.0, 1.0) + 1.0) / 2.0
  }

  function PriorityValue(p: Option<int>): Option<real> { if p.Some? then Some(p.value as real) else None }

  /** The ranges of a pool's known prices, latencies and member priorities. */
  datatype Ranges = Ranges(
    loPrice: Option<real>, hiPrice: Option<real>, loMs: Option<real>, hiMs: Option<real>,
    loPrio: Option<real>, hiPrio: Option<real>)

  function Prices(pool: seq<Entrant>): seq<Option<real>> { seq(|pool|, i requires 0 <= i < |pool| => pool[i].price) }
  function Latencies(pool: seq<Entrant>): seq<Option<real>> {
    seq(|pool|, i requires 0 <= i < |pool| => pool[i].latency)
  }
  function Priorities(pool: seq<Entrant>): seq<Option<real>> {
    seq(|pool|, i requires 0 <= i < |pool| => PriorityValue(pool[i].priority))
  }

  function RangesOf(pool: seq<Entrant>): Ranges {
    Ranges(Lowest(Prices(pool)), Highest(Prices(pool)), Lowest(Latencies(pool)), Highest(Latencies(pool)),
           Lowest(Priorities(pool)), Highest(Priorities(pool)))
  }

  /** The seven components of a candidate's score, in the shape of the weights. */
  function Parts(e: Entrant, r: Ranges, balance: real): Weights {
    Weights(RoomScore(e.fast), RoomScore(e.slow), e.quality, MinMaxScore(e.price, r.loPrice, r.hiPrice),
            MinMaxScore(e.latency, r.loMs, r.hiMs), PriorityScore(e.priority, r.loPrio, r.hiPrio), balance)
  }

  function SumOf(terms: seq<real>): real { if terms == [] then 0.0 else terms[0] + SumOf(terms[1..]) }

  function Terms(w: Weights, p: Weights): seq<real> {
    [w.fast * p.fast, w.slow * p.slow, w.quality * p.quality, w.cost * p.cost, w.latency * p.latency,
     w.priority * p.priority, w.traffic * p.traffic]
  }

  /** The weighted sum of the components. */
  function Dot(w: Weights, p: Weights): real { SumOf(Terms(w, p)) }

  predicate Unit(x: real) { 0.0 <= x <= 1.0 }

  predicate AllUnit(p: Weights) {
    Unit(p.fast) && Unit(p.slow) && Unit(p.quality) && Unit(p.cost) && Unit(p.latency) && Unit(p.priority) &&
    Unit(p.traffic)
  }

  lemma FractionIsUnit(v: real, lo: real, hi: real)
    requires lo <= v <= hi && lo < hi
    ensures Unit((v - lo) / (hi - lo))
  {
    FractionMonotone(v - lo, hi - lo, hi - lo);
    QuotientSign(v - lo, hi - lo);
    SelfQuotient(hi - lo);
  }

  lemma FractionMonotone(a: real, b: real, d: real)
    requires a <= b && d > 0.0
    ensures a / d <= b / d
  {
    assert b / d - a / d == (b - a) / d;
  }

  lemma WeightedTerm(w: real, a: real, b: real)
    requires w >= 0.0 && a <= b
    ensures w * a <= w * b
  {
  }

  /** A candidate that is no worse on every component scores no lower. */
  lemma DotMonotone(w: Weights, p: Weights, q: Weights)
    requires w.NonNegative()
    requires p.fast <= q.fast && p.slow <= q.slow && p.quality <= q.quality && p.cost <= q.cost
    requires p.latency <= q.latency && p.priority <= q.priority && p.traffic <= q.traffic
    ensures Dot(w, p) <= Dot(w, q)
  {
    WeightedTerm(w.fast, p.fast, q.fast);
    WeightedTerm(w.slow, p.slow, q.slow);
    WeightedTerm(w.quality, p.quality, q.quality);
    WeightedTerm(w.cost, p.cost, q.cost);
    WeightedTerm(w.latency, p.latency, q.latency);
    WeightedTerm(w.priority, p.priority, q.priority);
    WeightedTerm(w.traffic, p.traffic, q.traffic);
    SumMonotone(Terms(w, p), Terms(w, q));
  }

  lemma {:induction false} SumMonotone(a: seq<real>, b: seq<real>)
    requires |a| == |b| && forall i :: 0 <= i < |a| ==> a[i] <= b[i]
    ensures SumOf(a) <= SumOf(b)
  {
    if a != [] {
      SumMonotone(a[1..], b[1..]);
    }
  }

  /** Weights themselves are the score of a perfect candidate, and zero that of a worst one. */
  lemma DotExtremes(w: Weights)
    ensures Dot(w, Weights(0.0, 0.0, 0.0, 0.0, 0.0, 0.0, 0.0)) == 0.0
    ensures Dot(w, Weights(1.0, 1.0, 1.0, 1.0, 1.0, 1.0, 1.0)) == w.Sum()
  {
    SumOfSeven(Terms(w, Weights(0.0, 0.0, 0.0, 0.0, 0.0, 0.0, 0.0)));
    SumOfSeven(Terms(w, Weights(1.0, 1.0, 1.0, 1.0, 1.0, 1.0, 1.0)));
  }

  lemma SumOfSeven(t: seq<real>)
    requires |t| == 7
    ensures SumOf(t) == t[0] + t[1] + t[2] + t[3] + t[4] + t[5] + t[6]
  {
    assert SumOf(t[7..]) == 0.0;
    assert SumOf(t[6..]) == t[6] + SumOf(t[6..][1..]) && t[6..][1..] == t[7..];
    assert SumOf(t[5..]) == t[5] + SumOf(t[5..][1..]) && t[5..][1..] == t[6..];
    assert SumOf(t[4..]) == t[4] + SumOf(t[4..][1..]) && t[4..][1..] == t[5..];
    assert SumOf(t[3..]) == t[3] + SumOf(t[3..][1..]) && t[3..][1..] == t[4..];
    assert SumOf(t[2..]) == t[2] + SumOf(t[2..][1..]) && t[2..][1..] == t[3..];
    assert SumOf(t[1..]) == t[1] + SumOf(t[1..][1..]) && t[1..][1..] == t[2..];
  }

  /** Every component of a pool member lies in [0, 1] once its quality and its brand's balance do. */
  lemma PartsAreUnit(pool: seq<Entrant>, i: nat, balance: real)
    requires i < |pool| && Unit(pool[i].quality) && Unit(balance)
    ensures AllUnit(Parts(pool[i], RangesOf(pool), balance))
  {
    var e, r := pool[i], RangesOf(pool);
    RangeCovers(Prices(pool));
    RangeCovers(Latencies(pool));
    RangeCovers(Priorities(pool));
    assert Prices(pool)[i] == e.price && Latencies(pool)[i] == e.latency &&
           Priorities(pool)[i] == PriorityValue(e.priority);
    if e.price.Some? && r.loPrice.value < r.hiPrice.value {
      FractionIsUnit(e.price.value, r.loPrice.value, r.hiPrice.value);
    }
    if e.latency.Some? && r.loMs.value < r.hiMs.value {
      FractionIsUnit(e.latency.value, r.loMs.value, r.hiMs.value);
    }
    if e.priority.Some? && r.loPrio.value < r.hiPrio.value {
      FractionIsUnit(e.priority.value as real, r.loPrio.value, r.hiPrio.value);
    }
  }

  function Score(e: Entrant, pool: seq<Entrant>, w: Weights, balance: real): real {
    Dot(w, Parts(e, RangesOf(pool), balance))
  }

  /** With quality in [0, 1], every base score lies in [0, 1]. */
  lemma ScoreIsUnit(pool: seq<Entrant>, i: nat, w: Weights, balance: real)
    requires i < |pool| && Unit(pool[i].quality) && Unit(balance) && w.NonNegative() && w.Sum() == 1.0
    ensures Unit(Score(pool[i], pool, w, balance))
  {
    var p := Parts(pool[i], RangesOf(pool), balance);
    PartsAreUnit(pool, i, balance);
    DotExtremes(w);
    DotMonotone(w, Weights(0.0, 0.0, 0.0, 0.0, 0.0, 0.0, 0.0), p);
    DotMonotone(w, p, Weights(1.0, 1.0, 1.0, 1.0, 1.0, 1.0, 1.0));
  }

  /** `a` is known wherever `b` is, and nowhere worse. */
  predicate NoWorse(a: Entrant, b: Entrant) {
    Le(b.fast, a.fast) && Le(b.slow, a.slow) && b.quality <= a.quality &&
    a.price.Some? == b.price.Some? && (a.price.Some? ==> a.price.value <= b.price.value) &&
    a.latency.Some? == b.latency.Some? && (a.latency.Some? ==> a.latency.value <= b.latency.value) &&
    a.priority.Some? == b.priority.Some? && (a.priority.Some? ==> a.priority.value <= b.priority.value)
  }

  lemma RoomScoreMonotone(a: Room, b: Room)
    requires Le(b, a)
    ensures RoomScore(b) <= RoomScore(a)
  {
  }

  /** A pool member no worse than another on every known component never scores lower. */
  lemma NoWorseNeverScoresLower(pool: seq<Entrant>, i: nat, j: nat, w: Weights, balanceI: real, balanceJ: real)
    requires i < |pool| && j < |pool| && NoWorse(pool[i], pool[j]) && balanceJ <= balanceI && w.NonNegative()
    ensures Score(pool[j], pool, w, balanceJ) <= Score(pool[i], pool, w, balanceI)
  {
    var a, b, r := pool[i], pool[j], RangesOf(pool);
    RoomScoreMonotone(a.fast, b.fast);
    RoomScoreMonotone(a.slow, b.slow);
    RangeCovers(Prices(pool));
    RangeCovers(Latencies(pool));
    RangeCovers(Priorities(pool));
    assert Prices(pool)[i] == a.price && Latencies(pool)[i] == a.latency &&
           Priorities(pool)[i] == PriorityValue(a.priority);
    if a.price.Some? && r.loPrice.value < r.hiPrice.value {
      FractionMonotone(a.price.value - r.loPrice.value, b.price.value - r.loPrice.value,
                       r.hiPrice.value - r.loPrice.value);
    }
    if a.latency.Some? && r.loMs.value < r.hiMs.value {
      FractionMonotone(a.latency.value - r.loMs.value, b.latency.value - r.loMs.value, r.hiMs.value - r.loMs.value);
    }
    if a.priority.Some? && r.loPrio.value < r.hiPrio.value {
      FractionMonotone(a.priority.value as real - r.loPrio.value, b.priority.value as real - r.loPrio.value,
                       r.hiPrio.value - r.loPrio.value);
    }
    DotMonotone(w, Parts(b, r, balanceJ), Parts(a, r, balanceI));
  }

  /** What each component of a score measures, as a line between its worst and its best. */
  lemma ComponentsAreLinear(e: Entrant, r: Ranges, balance: real)
    ensures var p := Parts(e, r, balance);
            Centred(e.fast, p.fast) && Centred(e.slow, p.slow) && p.quality == e.quality && p.traffic == balance
    ensures var p := Parts(e, r, balance);
            Halfway(e.price, r.loPrice, r.hiPrice, p.cost) && Halfway(e.latency, r.loMs, r.hiMs, p.latency) &&
            (e.priority.None? ==> p.priority == 0.5) &&
            (e.priority.Some? && r.loPrio.Some? && r.hiPrio.Some? ==>
               if r.loPrio == r.hiPrio then p.priority == 1.0
               else Falls(e.priority.value as real, r.loPrio.value, r.hiPrio.value, p.priority))
  {
  }

  /** Headroom from -1 to 1, and nothing beyond, as a score from zero to one. */
  predicate Centred(room: Room, score: real) {
    match room
    case NegInf => score == 0.0
    case Fin(v) => 2.0 * score - 1.0 == if v > 1.0 then 1.0 else if v < -1.0 then -1.0 else v
  }

  /** A score that falls from one at `lo` to zero at `hi`. */
  predicate Falls(v: real, lo: real, hi: real, score: real) { score * (hi - lo) == hi - v }

  /** One half for the unknown and for what does not differ; otherwise the lower the better. */
  predicate Halfway(v: Option<real>, lo: Option<real>, hi: Option<real>, score: real) {
    if v.None? || lo.None? || hi.None? || -EPSILON_64 < hi.value - lo.value < EPSILON_64 then score == 0.5
    else Falls(v.value, lo.value, hi.value, score)
  }

  // ---- traffic balance ----

  /** A brand of the pool: its target weight and its selections in the last five minutes. */
  datatype Share = Share(weight: real, recent: nat)

  function TotalWeight(shares: seq<Share>): real {
    if shares == [] then 0.0 else RMax(shares[0].weight, 0.0) + TotalWeight(shares[1..])
  }

  function TotalRecent(shares: seq<Share>): nat {
    if shares == [] then 0 else shares[0].recent + TotalRecent(shares[1..])
  }

  /** The totals add up the shares; a negative weight counts for nothing. */
  lemma {:induction false} TotalsAddUp(shares: seq<Share>, s: Share)
    ensures TotalRecent([]) == 0 && TotalRecent(shares + [s]) == TotalRecent(shares) + s.recent
    ensures TotalWeight([]) == 0.0 &&
            TotalWeight(shares + [s]) == TotalWeight(shares) + if s.weight < 0.0 then 0.0 else s.weight
  {
    if shares == [] {
      assert [s][1..] == [] && [] + [s] == [s];
    } else {
      assert (shares + [s])[1..] == shares[1..] + [s];
      TotalsAddUp(shares[1..], s);
    }
  }

  /** Target share over actual share: high for an under-served brand. */
  function BalanceRatio(s: Share, totalWeight: real, totalRecent: nat): real {
    (RMax(s.weight, 0.0) / RMax(totalWeight, EPSILON_64))
    / (s.recent as real / (totalRecent as real + EPSILON_64) + EPSILON_64)
  }

  function Ratios(shares: seq<Share>): seq<Option<real>> {
    seq(|shares|, i requires 0 <= i < |shares| =>
        Some(BalanceRatio(shares[i], TotalWeight(shares), TotalRecent(shares))))
  }

  function BalanceScore(shares: seq<Share>, i: nat): real
    requires i < |shares|
  {
    RangeCovers(Ratios(shares));
    assert Ratios(shares)[i].Some?;
    var lo, hi := Lowest(Ratios(shares)).value, Highest(Ratios(shares)).value;
    if Abs(hi - lo) < EPSILON_32 then 0.5 else (Ratios(shares)[i].value - lo) / (hi - lo)
  }

  lemma BalanceIsUnit(shares: seq<Share>, i: nat)
    requires i < |shares|
    ensures Unit(BalanceScore(shares, i))
  {
    RangeCovers(Ratios(shares));
    assert Ratios(shares)[i].Some?;
    var lo, hi := Lowest(Ratios(shares)).value, Highest(Ratios(shares)).value;
    if lo < hi {
      FractionIsUnit(Ratios(shares)[i].value, lo, hi);
    }
  }

  lemma SmallerDivisor(a: real, c: real, d: real)
    requires a >= 0.0 && 0.0 < c <= d
    ensures a / d <= a / c
  {
    var x, y := a / c, a / d;
    assert x * c == a && y * d == a;
    QuotientSign(a, d);
    if y > x {
      assert y * c > x * c;
      assert y * d >= y * c;
    }
  }

  /** At equal weight, the brand with fewer recent selections never gets the lower traffic score. */
  lemma UnderServedScoresHigher(shares: seq<Share>, i: nat, j: nat)
    requires i < |shares| && j < |shares|
    requires shares[i].weight == shares[j].weight && shares[i].recent <= shares[j].recent
    ensures BalanceScore(shares, j) <= BalanceScore(shares, i)
  {
    var t := TotalRecent(shares) as real + EPSILON_64;
    var target := RMax(shares[i].weight, 0.0) / RMax(TotalWeight(shares), EPSILON_64);
    QuotientSign(RMax(shares[i].weight, 0.0), RMax(TotalWeight(shares), EPSILON_64));
    FractionMonotone(shares[i].recent as real, shares[j].recent as real, t);
    QuotientSign(shares[i].recent as real, t);
    SmallerDivisor(target, shares[i].recent as real / t + EPSILON_64, shares[j].recent as real / t + EPSILON_64);
    RangeCovers(Ratios(shares));
    var ri, rj := Ratios(shares)[i], Ratios(shares)[j];
    assert ri.Some? && rj.Some? && rj.value <= ri.value;
    var lo, hi := Lowest(Ratios(shares)).value, Highest(Ratios(shares)).value;
    if lo < hi {
      FractionMonotone(rj.value - lo, ri.value - lo, hi - lo);
    }
  }

  /** A score that rises from zero at `lo` to one at `hi`; one half when they do not differ. */
  predicate Rises(v: real, lo: real, hi: real, score: real) {
    if hi - lo < EPSILON_32 then score == 0.5 else score * (hi - lo) == v - lo
  }

  lemma QuotientRises(v: real, lo: real, hi: real)
    requires lo <= hi
    ensures Rises(v, lo, hi, if Abs(hi - lo) < EPSILON_32 then 0.5 else (v - lo) / (hi - lo))
  {
    if hi - lo >= EPSILON_32 {
      TimesQuotient(v - lo, hi - lo);
    }
  }

  /** The traffic score rises with the ratio of the share a brand is due to the share it had. */
  lemma BalanceIsLinear(shares: seq<Share>, i: nat) returns (lo: real, hi: real)
    requires i < |shares|
    ensures forall j :: 0 <= j < |shares| ==>
              lo <= BalanceRatio(shares[j], TotalWeight(shares), TotalRecent(shares)) <= hi
    ensures Rises(BalanceRatio(shares[i], TotalWeight(shares), TotalRecent(shares)), lo, hi, BalanceScore(shares, i))
  {
    hide BalanceRatio, Lowest, Highest, TotalWeight, TotalRecent, Abs, Rises;
    var ratios := Ratios(shares);
    RangeCovers(ratios);
    assert ratios[i].Some?;
    lo, hi := Lowest(ratios).value, Highest(ratios).value;
    QuotientRises(ratios[i].value, lo, hi);
    forall j | 0 <= j < |shares|
      ensures lo <= BalanceRatio(shares[j], TotalWeight(shares), TotalRecent(shares)) <= hi
    {
      assert ratios[j].Some? && lo <= ratios[j].value <= hi;
    }
  }

  /** That ratio: the share of the pool's weight over the share of the pool's recent selections. */
  lemma RatioIsDueOverHad(s: Share, totalWeight: real, totalRecent: nat)
    requires totalWeight >= EPSILON_64
    ensures var had := s.recent as real / (totalRecent as real + EPSILON_64);
            BalanceRatio(s, totalWeight, totalRecent) * (had + EPSILON_64) * totalWeight ==
            if s.weight < 0.0 then 0.0 else s.weight
  {
    var had := s.recent as real / (totalRecent as real + EPSILON_64) + EPSILON_64;
    QuotientSign(s.recent as real, totalRecent as real + EPSILON_64);
    var due := RMax(s.weight, 0.0) / totalWeight;
    TimesQuotient(due, had);
    TimesQuotient(RMax(s.weight, 0.0), totalWeight);
  }

  lemma TimesQuotient(a: real, d: real)
    requires d > 0.0
    ensures a / d * d == a
  {
  }

  // ---- stickiness ----

  /** The scores once the first fresh sticky entry with comfortable fast headroom has its bonus. */
  function WithBonus(scores: seq<real>, at: Option<nat>): seq<real>
    requires at.Some? ==> at.value < |scores|
  {
    if at.Some? then scores[at.value := scores[at.value] + STICKY_BONUS] else scores
  }

  /** The bonus lets its holder pass only candidates that were ahead by at most 0.12, and moves no other pair. */
  lemma BonusIsBounded(scores: seq<real>, at: Option<nat>, i: nat, j: nat)
    requires (at.Some? ==> at.value < |scores|) && i < |scores| && j < |scores|
    requires scores[j] > scores[i] && WithBonus(scores, at)[i] >= WithBonus(scores, at)[j]
    ensures at == Some(i) && scores[j] - scores[i] <= STICKY_BONUS
  {
  }
}
