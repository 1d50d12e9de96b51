/** What the winner of a selection is, in the fields of the request, the catalogue and the live state. */
module Winners {
  import opened Basics
  import opened UsageTracking
  import opened Scoring
  import opened Selection
  import opened SelectionLaws
  import opened Selector

  // ---- the winner among the pool ----

  /** The candidates that the ceiling leaves, and their scores. */
  function PoolOf(t: Task, w: World, rules: seq<Rule>): seq<Cand> {
    Pool(t, Offers(Verdicts(t, w, rules)), Ceiling(t, FastestBaseline(t, w, rules)))
  }

  function ScoresOf(
    t: Task, w: World, rules: seq<Rule>, traffic: map<nat, seq<int>>, sticky: map<nat, (nat, int)>): (s: seq<real>)
    ensures |s| == |PoolOf(t, w, rules)|
  {
    Scores(t, PoolOf(t, w, rules), traffic, sticky, w.now)
  }

  /** Prepaid capacity: a cap on calls in flight and tokens at price zero. */
  predicate IsPrepaid(c: Cand) {
    c.model.cap.Some? && c.model.priceIn.Some? && c.model.priceIn.value == 0.0 &&
    c.model.priceOut.Some? && c.model.priceOut.value == 0.0
  }

  /** Nobody of the pool meets the ceiling of a request that has one. */
  predicate Relaxed(t: Task, w: World, rules: seq<Rule>) {
    SpeedPolicy(t) && Passing(Offers(Verdicts(t, w, rules)), Ceiling(t, FastestBaseline(t, w, rules))) == []
  }

  /**
   `a` comes before `b`: prepaid capacity first, then the better score, then the lower priority number. When the
   ceiling had to be given up the shorter prediction comes first, and prepaid capacity has no say. Of two
   candidates that tie in everything `a` is the `earlier` one of the pool.
   */
  predicate Outranks(a: Ranked, b: Ranked, relaxed: bool, earlier: bool) {
    (!relaxed && IsPrepaid(b.c) ==> IsPrepaid(a.c)) &&
    (relaxed && b.c.predicted.Some? ==> a.c.predicted.Some? && a.c.predicted.value <= b.c.predicted.value) &&
    ((if relaxed then a.c.predicted == b.c.predicted else IsPrepaid(a.c) == IsPrepaid(b.c)) ==>
       b.score <= a.score &&
       (b.score == a.score ==> a.c.priority <= b.c.priority && (a.c.priority == b.c.priority ==> earlier)))
  }

  lemma HeadOutranks(a: Ranked, b: Ranked, relaxed: bool, earlier: bool)
    requires SecondKey(relaxed)(a, b) && (SecondKey(relaxed)(b, a) ==> ByScore(a, b))
    requires !earlier ==> !(SecondKey(relaxed)(b, a) && ByScore(b, a))
    ensures Outranks(a, b, relaxed, earlier)
  {
  }

  lemma FirstOutranks(ranked: seq<Ranked>, relaxed: bool) returns (k: nat)
    requires Order(ranked, relaxed) != []
    ensures k < |ranked| && Order(ranked, relaxed)[0] == ranked[k]
    ensures forall j :: 0 <= j < |ranked| ==> Outranks(ranked[k], ranked[j], relaxed, k <= j)
  {
    assert ranked != [] by {
      NobodyWins(relaxed);
    }
    hide Order, ByScore;
    k := HeadOfOrder(ranked, relaxed);
    hide SecondKey;
    forall j | 0 <= j < |ranked|
      ensures Outranks(ranked[k], ranked[j], relaxed, k <= j)
    {
      if j < k {
        assert !(SecondKey(relaxed)(ranked[j], ranked[k]) && ByScore(ranked[j], ranked[k]));
      }
      HeadOutranks(ranked[k], ranked[j], relaxed, k <= j);
    }
  }

  lemma NobodyWins(relaxed: bool)
    ensures Order([], relaxed) == []
  {
  }

  /** The winner of a selection comes before every other candidate of the pool. */
  lemma WinnerIsBest(
    t: Task, w: World, rules: seq<Rule>, traffic: map<nat, seq<int>>, sticky: map<nat, (nat, int)>, c: Cand)
    returns (k: nat)
    requires IsWinner(t, w, rules, traffic, sticky, c)
    ensures var pool, scores := PoolOf(t, w, rules), ScoresOf(t, w, rules, traffic, sticky);
            k < |pool| && pool[k] == c &&
            forall j :: 0 <= j < |pool| ==>
              Outranks(Ranked(c, scores[k]), Ranked(pool[j], scores[j]), Relaxed(t, w, rules), k <= j)
  {
    var pool, scores := PoolOf(t, w, rules), ScoresOf(t, w, rules, traffic, sticky);
    hide Pool, Scores, Verdicts, Offers, Ceiling, FastestBaseline, Passing, Order, HasRoom, Outranks;
    k := FirstOutranks(RankedPool(pool, scores), Relaxed(t, w, rules));
    forall j | 0 <= j < |pool|
      ensures RankedPool(pool, scores)[j] == Ranked(pool[j], scores[j])
    {
    }
  }

  // ---- what the winner meets ----

  /** The request's own requirements on a model, its brand and the rule that lists it. */
  predicate Meets(t: Task, m: Model, brand: Brand, rule: Rule) {
    var req := t.req;
    rule.enabled && m.enabled && brand.active &&
    (req.pin.Some? ==> req.pin.value in m.names) &&
    req.tokens <= m.maxContext && (rule.maxCtx.None? || req.tokens <= rule.maxCtx.value) &&
    (if req.categories == {} then m.category.None? || m.category.value in {"text", "code", "vision"}
     else m.category.Some? && m.category.value in req.categories) &&
    (req.languages == {} || m.languages.None? || exists l :: l in req.languages && l in m.languages.value) &&
    (!req.fnCall || m.fnCall) && (!req.jsonMode || m.jsonMode) &&
    (req.streaming.None? || req.streaming.value == (m.streaming == Some(true))) &&
    (req.qualityMin <= 0.0 ||
     if (m.id, req.step) in t.cat.stepQuality then t.cat.stepQuality[(m.id, req.step)] >= req.qualityMin
     else m.quality.Some? && m.quality.value >= req.qualityMin) &&
    (!req.noTraining || m.trainsOnData == Some(false) || (t.pol.gateway && brand.slug == "openrouter"))
  }

  lemma EligibleMeets(t: Task, rule: Rule)
    ensures Eligible(t, rule) <==>
            rule.model in t.cat.models && t.cat.models[rule.model].brand in t.cat.brands &&
            Meets(t, t.cat.models[rule.model], t.cat.brands[t.cat.models[rule.model].brand], rule)
  {
    if rule.model in t.cat.models && t.req.languages != {} && t.cat.models[rule.model].languages.Some? {
      LanguagesMeet(t.req.languages, t.cat.models[rule.model].languages.value);
    }
  }

  lemma LanguagesMeet(xs: set<string>, ys: set<string>)
    ensures xs * ys != {} <==> exists l :: l in xs && l in ys
  {
    if xs * ys != {} {
      var l :| l in xs * ys;
      assert l in xs && l in ys;
    } else {
      forall l | l in xs
        ensures l !in ys
      {
        assert l !in xs * ys;
      }
    }
  }

  /** Why an account can take the call: it is under the cap, and under its learned limit where one applies. */
  predicate HasAccountRoom(u: Usage, m: Model, now: int) {
    (m.cap.Some? ==> u.inReq < m.cap.value) &&
    (u.limReq.Some? || u.limTok.Some? || u.learned.None? || Load(u, now) < FloorNat(u.learned.value))
  }

  /** The account `key` of the winner: an active key that no mark blocks, or none where the brand has no active key. */
  predicate ServedBy(t: Task, w: World, m: Model, key: Option<nat>) {
    var keys := if m.brand in t.cat.keys then t.cat.keys[m.brand] else [];
    if key.None? then forall k :: k in keys ==> !k.active
    else
      (exists k :: k in keys && k.active && k.id == key.value) &&
      !(key.value in w.keyMarks && w.now < w.keyMarks[key.value]) &&
      !(key.value in w.quotaMarks && w.now < w.quotaMarks[key.value])
  }

  lemma {:induction false} ServingKeyServes(t: Task, w: World, m: Model, keys: seq<Key>)
    ensures var key := FirstServing(w, m, keys);
            key.Some? ==>
              (exists k :: k in keys && k.active && k.id == key.value) && !KeyLive(w, key.value) && HasRoom(w, m, key)
  {
    if keys != [] && !CanServe(w, m, keys[0]) {
      ServingKeyServes(t, w, m, keys[1..]);
    } else if keys != [] {
      assert keys[0] in keys;
    }
  }

  /** What the scores look at is the state of the account that would serve. */
  predicate Looks(t: Task, w: World, c: Cand) {
    var u := UsageAt(w.usage, Bucket(c.model.id, c.key));
    c.fast == FastRoom(Drained(u, w.now), c.model.limits, t.req.tokens) &&
    c.slow == SlowRoom(Drained(u, w.now), c.model.limits, t.req.tokens) &&
    c.memberPriority == (if t.pol.usePriority then Some(c.priority) else None) &&
    c.predicted == Predict(t, w, c.model, c.key)
  }

  lemma CandLooks(t: Task, w: World, rule: Rule, key: Option<nat>)
    requires Eligible(t, rule)
    ensures var c := MakeCand(t, w, rule, key);
            Looks(t, w, c) && c.model == t.cat.models[rule.model] && c.brand == t.cat.brands[c.model.brand] &&
            c.priority == rule.priority && c.key == key
  {
    var m := ModelOf(t, rule);
    DrainsAreIndependent(UsageAt(w.usage, Bucket(m.id, key)), m.limits, t.req.tokens, w.now);
    hide FastRoom, SlowRoom, FastDrained, SlowDrained, Predict;
  }

  lemma OfferMeets(t: Task, w: World, rule: Rule)
    requires VerdictOf(t, w, rule).Offered?
    ensures var c := VerdictOf(t, w, rule).c;
            Eligible(t, rule) && c.model == t.cat.models[rule.model] && c.brand == t.cat.brands[c.model.brand] &&
            c.priority == rule.priority && c.model.id !in t.req.exclude &&
            !ModelCooling(w, c.model) && ServedBy(t, w, c.model, c.key) && HasRoom(w, c.model, c.key) &&
            Looks(t, w, c)
  {
    OfferedIffAvailable(t, w, rule);
    var m := ModelOf(t, rule);
    var keys := KeysOf(t, m).GetOr([]);
    var key := FirstServing(w, m, keys);
    ServingKeyServes(t, w, m, keys);
    CandLooks(t, w, rule, key);
    hide VerdictOf, MakeCand, FirstServing, Looks, Eligible, HasRoom, ModelCooling, KeysCooling, Servable;
  }

  lemma {:induction false} OfferIsOfRule(t: Task, w: World, rules: seq<Rule>, c: Cand) returns (rule: Rule)
    requires c in Offers(Verdicts(t, w, rules))
    ensures rule in rules && VerdictOf(t, w, rule) == Offered(c)
  {
    hide VerdictOf;
    if VerdictOf(t, w, rules[0]) == Offered(c) {
      rule := rules[0];
    } else {
      rule := OfferIsOfRule(t, w, rules[1..], c);
    }
  }

  /**
   Whoever wins is listed by a rule, meets the request, is neither excluded nor cooling down, and is served by an
   account that is not blocked and has room.
   */
  lemma WinnerMeetsRequest(
    t: Task, w: World, rules: seq<Rule>, traffic: map<nat, seq<int>>, sticky: map<nat, (nat, int)>, c: Cand)
    returns (rule: Rule)
    requires IsWinner(t, w, rules, traffic, sticky, c)
    ensures rule in rules && rule.model in t.cat.models && c.model == t.cat.models[rule.model] &&
            c.priority == rule.priority && c.model.brand in t.cat.brands && c.brand == t.cat.brands[c.model.brand] &&
            Meets(t, c.model, c.brand, rule)
    ensures c.model.id !in t.req.exclude &&
            !(c.model.id in w.marks && w.now < w.marks[c.model.id]) &&
            !(c.model.brand in w.brandMarks && w.now < w.brandMarks[c.model.brand]) &&
            ServedBy(t, w, c.model, c.key) && Looks(t, w, c) &&
            HasAccountRoom(UsageAt(w.usage, Bucket(c.model.id, c.key)), c.model, w.now)
  {
    var k := WinnerIsBest(t, w, rules, traffic, sticky, c);
    PassingIsFilter(Offers(Verdicts(t, w, rules)), Ceiling(t, FastestBaseline(t, w, rules)));
    assert c in Offers(Verdicts(t, w, rules));
    hide Verdicts, Offers, VerdictOf, Eligible, Meets, ServedBy, Looks;
    rule := OfferIsOfRule(t, w, rules, c);
    OfferMeets(t, w, rule);
    EligibleMeets(t, rule);
  }

  // ---- latency ----

  /** The latency limits in force: the request's own before the group's, where they limit anything. */
  lemma CeilingInForce(t: Task, c: Cand, fastest: Option<real>)
    ensures var ms := if t.req.maxMs.Some? then t.req.maxMs else t.pol.maxMs;
            var ratio := if t.req.maxRatio.Some? then t.req.maxRatio else t.pol.maxRatio;
            (SpeedPolicy(t) <==> (ms.Some? && ms.value > 0) || (ratio.Some? && ratio.value >= 1.0)) &&
            (Passes(c, Ceiling(t, fastest)) <==>
               c.predicted.Some? && (ms.Some? && ms.value > 0 ==> c.predicted.value <= ms.value as real) &&
               (ratio.Some? && ratio.value >= 1.0 && fastest.Some? ==>
                  c.predicted.value <= ratio.value * fastest.value))
  {
  }

  /** A prediction: the history's where latency is limited, else the response times seen, else the catalogue's. */
  lemma PredictionInForce(t: Task, w: World, m: Model, key: Option<nat>)
    ensures var b := Bucket(m.id, key);
            var seen := if SpeedPolicy(t) then if b in w.history then Some(w.history[b]) else None
                        else UsageAt(w.usage, b).latency;
            Predict(t, w, m, key) == if seen.Some? then seen
                                     else if m.avgMs.Some? then Some(m.avgMs.value as real) else None
  {
  }

  /** The baseline of a model: the least prediction of its active keys, or where they have none the keyless one. */
  lemma {:induction false} FastestKeyIsLeast(t: Task, w: World, m: Model, keys: seq<Key>)
    ensures var ms := FastestKey(t, w, m, keys);
            (forall k :: k in keys && k.active && Predict(t, w, m, Some(k.id)).Some? ==>
               ms.Some? && ms.value <= Predict(t, w, m, Some(k.id)).value) &&
            (ms.Some? ==> exists k :: k in keys && k.active && Predict(t, w, m, Some(k.id)) == ms)
  {
    hide Predict;
    if keys != [] {
      FastestKeyIsLeast(t, w, m, keys[1..]);
      assert forall k :: k in keys <==> k == keys[0] || k in keys[1..];
    }
  }

  lemma BaselineIsFastestKey(t: Task, w: World, m: Model)
    ensures var keys := if m.brand in t.cat.keys then t.cat.keys[m.brand] else [];
            var ms := Baseline(t, w, m);
            (forall k :: k in keys && k.active && Predict(t, w, m, Some(k.id)).Some? ==>
               ms.Some? && ms.value <= Predict(t, w, m, Some(k.id)).value) &&
            ((exists k :: k in keys && k.active && Predict(t, w, m, Some(k.id)) == ms && ms.Some?) ||
             (ms == Predict(t, w, m, None) &&
              forall k :: k in keys && k.active ==> Predict(t, w, m, Some(k.id)).None?))
  {
    hide Predict;
    FastestKeyIsLeast(t, w, m, KeysOf(t, m).GetOr([]));
  }

  // ---- scores ----

  /** The price a score compares: in dollars, and for a sticky group three quarters of it at the cached rate. */
  predicate Costs(t: Task, c: Cand, price: Option<real>) {
    match c.model.priceIn
    case None => price.None?
    case Some(list) =>
      price.Some? &&
      if t.pol.sticky.Some? && c.model.priceCached.Some?
      then 4.0 * price.value == (list + 3.0 * c.model.priceCached.value) * c.brand.usdRate
      else price.value == list * c.brand.usdRate
  }

  lemma PriceCosts(t: Task, c: Cand)
    ensures Costs(t, c, EntrantOf(t, c).price)
  {
  }

  /** What is scored of a candidate; quality is the step's, else the model's, else one half. */
  predicate Scored(t: Task, c: Cand, e: Entrant) {
    e.fast == c.fast && e.slow == c.slow && e.latency == c.predicted && e.priority == c.memberPriority &&
    Costs(t, c, e.price) &&
    e.quality == if (c.model.id, t.req.step) in t.cat.stepQuality then t.cat.stepQuality[(c.model.id, t.req.step)]
                 else c.model.quality.GetOr(0.5)
  }

  lemma EntrantIsScored(t: Task, c: Cand)
    ensures Scored(t, c, EntrantOf(t, c))
  {
    PriceCosts(t, c);
    hide Costs, EffectivePrice;
  }

  function WeightedSum(v: Weights, p: Weights): real {
    v.fast * p.fast + v.slow * p.slow + v.quality * p.quality + v.cost * p.cost + v.latency * p.latency +
    v.priority * p.priority + v.traffic * p.traffic
  }

  /** A base score weighs the candidate's own components, within the ranges of the pool and its brand's traffic. */
  lemma BaseScoreWeighs(t: Task, pool: seq<Cand>, traffic: map<nat, seq<int>>, cutoff: int, i: nat)
    returns (e: Entrant, b: nat)
    requires i < |pool|
    ensures Scored(t, pool[i], e) && b < |BrandsOf(pool)| && BrandsOf(pool)[b].id == pool[i].brand.id
    ensures BaseScore(t, pool, traffic, cutoff, i) ==
            WeightedSum(WeightsOf(t), Parts(e, RangesOf(Entrants(t, pool)),
                                            BalanceScore(SharesOf(BrandsOf(pool), traffic, cutoff), b)))
  {
    assert pool[i] in pool;
    b := BrandIndex(BrandsOf(pool), pool[i].brand.id);
    e := EntrantOf(t, pool[i]);
    EntrantIsScored(t, pool[i]);
    assert Entrants(t, pool)[i] == e;
    hide EntrantOf, Entrants, RangesOf, BalanceScore, SharesOf, BrandsOf, WeightsOf, Parts, Scored, WeightedSum, Dot;
    DotIsSum(WeightsOf(t), Parts(e, RangesOf(Entrants(t, pool)),
                                 BalanceScore(SharesOf(BrandsOf(pool), traffic, cutoff), b)));
  }

  lemma DotIsSum(v: Weights, p: Weights)
    ensures Dot(v, p) == WeightedSum(v, p)
  {
    var ts := Terms(v, p);
    assert ts[1..][0] == ts[1] && ts[1..][1..] == ts[2..] && ts[2..][1..] == ts[3..] && ts[3..][1..] == ts[4..];
    assert ts[4..][1..] == ts[5..] && ts[5..][1..] == ts[6..] && ts[6..][1..] == [];
    assert SumOf(ts[6..]) == ts[6] && SumOf(ts[5..]) == ts[5] + ts[6] && SumOf(ts[4..]) == ts[4] + SumOf(ts[5..]);
    assert SumOf(ts[3..]) == ts[3] + SumOf(ts[4..]) && SumOf(ts[2..]) == ts[2] + SumOf(ts[3..]);
    assert SumOf(ts[1..]) == ts[1] + SumOf(ts[2..]);
  }

  /** The built-in weights of a request without overrides: in the order of the sum, and with or without priorities. */
  lemma BuiltInWeights(t: Task)
    requires t.req.weights == Overrides(None, None, None) && t.pol.weights == Overrides(None, None, None)
    ensures WeightsOf(t) == if t.pol.usePriority then Weights(0.20, 0.15, 0.20, 0.15, 0.10, 0.10, 0.10)
                            else Weights(0.25, 0.20, 0.20, 0.15, 0.10, 0.00, 0.10)
  {
    ResolvedWeightsAreNormalised(if t.pol.usePriority then WITH_PRIORITY else WITHOUT_PRIORITY, t.req.weights,
                                 t.pol.weights);
    hide ResolveWeights;
  }

  /** Overrides in force: the request's before the group's. */
  lemma WeightsInForce(t: Task)
    ensures var v, base := WeightsOf(t), if t.pol.usePriority then 0.20 else 0.25;
            var req, group := t.req.weights, t.pol.weights;
            InProportion(v.cost, v.fast, base, if req.cost.Some? then req.cost else group.cost) &&
            InProportion(v.latency, v.fast, base, if req.latency.Some? then req.latency else group.latency) &&
            InProportion(v.quality, v.fast, base, if req.quality.Some? then req.quality else group.quality)
  {
    hide ResolveWeights, InProportion;
    OverridesKeepProportions(if t.pol.usePriority then WITH_PRIORITY else WITHOUT_PRIORITY, t.req.weights,
                             t.pol.weights);
  }

  /** How many of the times lie after the cutoff. */
  function After(times: seq<int>, cutoff: int): nat {
    if times == [] then 0
    else
      var last := |times| - 1;
      After(times[..last], cutoff) + if times[last] <= cutoff then 0 else 1
  }

  lemma {:induction false} RecentIsAfter(times: seq<int>, cutoff: int)
    ensures Recent(times, cutoff) == After(times, cutoff)
  {
    if times != [] {
      var last := |times| - 1;
      RecentIsAfter(times[..last], cutoff);
      assert times == times[..last] + [times[last]];
      RecentOfConcat(times[..last], times[last], cutoff);
    }
  }

  lemma {:induction false} RecentOfConcat(times: seq<int>, time: int, cutoff: int)
    ensures Recent(times + [time], cutoff) == Recent(times, cutoff) + if time <= cutoff then 0 else 1
  {
    if times != [] {
      assert (times + [time])[1..] == times[1..] + [time];
      RecentOfConcat(times[1..], time, cutoff);
    } else {
      assert [time][1..] == [];
    }
  }

  /** A brand's share: its traffic weight, and how often it was selected after the cutoff. */
  lemma SharesAreOfBrands(bs: seq<Brand>, traffic: map<nat, seq<int>>, cutoff: int, i: nat)
    requires i < |bs|
    ensures |SharesOf(bs, traffic, cutoff)| == |bs|
    ensures var s := SharesOf(bs, traffic, cutoff)[i];
            s.weight == bs[i].weight &&
            s.recent == if bs[i].id in traffic then After(traffic[bs[i].id], cutoff) else 0
  {
    if bs[i].id in traffic {
      RecentIsAfter(traffic[bs[i].id], cutoff);
    }
  }

  // ---- stickiness ----

  /**
   Who gets the bonus: the first of the pool that is the model the group selected last, less than five minutes
   ago, and that has more than a fifth of its fast headroom left. Everybody else keeps the base score.
   */
  lemma BonusGoesToSticky(
    t: Task, w: World, pool: seq<Cand>, traffic: map<nat, seq<int>>, sticky: map<nat, (nat, int)>, i: nat)
    requires i < |pool|
    ensures var g := t.pol.sticky;
            Scores(t, pool, traffic, sticky, w.now)[i] ==
            BaseScore(t, pool, traffic, w.now - 300 * SECOND, i) +
            if g.Some? && g.value in sticky && w.now - sticky[g.value].1 < 300 * SECOND &&
               Keeps(pool[i], sticky[g.value].0) && forall j :: 0 <= j < i ==> !Keeps(pool[j], sticky[g.value].0)
            then 0.12 else 0.0
  {
    hide BaseScore;
  }

  /** The sticky model with comfortable fast headroom. */
  predicate Keeps(c: Cand, model: nat) { c.model.id == model && c.fast.Fin? && c.fast.v > 0.2 }

  // ---- who has been tried ----

  /** How many rules the request could be met by although they are not available. */
  function Unavailable(t: Task, w: World, rules: seq<Rule>): nat {
    if rules == [] then 0
    else (if Eligible(t, rules[0]) && !Available(t, w, rules[0]) then 1 else 0) + Unavailable(t, w, rules[1..])
  }

  /** A refusal counts as tried exactly the rules that meet the request and are not available. */
  lemma {:induction false} TriedAreUnavailable(t: Task, w: World, rules: seq<Rule>)
    ensures Tried(Verdicts(t, w, rules)) == Unavailable(t, w, rules)
  {
    if rules != [] {
      TriedAreUnavailable(t, w, rules[1..]);
      OfferedIffAvailable(t, w, rules[0]);
      FoldsSplit(VerdictOf(t, w, rules[0]), Verdicts(t, w, rules[1..]));
      hide Available, Offers, BlocksOf;
    }
  }
}
