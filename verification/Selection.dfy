/** What a selection decides, as functions of the catalogue, the request and a snapshot of the live state. */
module Selection {
  import opened Basics
  import opened Windows
  import opened UsageTracking
  import opened Scoring
  import opened Ranking
  import Cooldowns

  const TRAFFIC_WINDOW: int := 300 * SECOND
  const STICKY_TTL: int := 300 * SECOND

  /** `names` are the case-folded names a pin may use; languages are case-folded too. */
  datatype Model = Model(
    id: nat, brand: nat, names: set<string>, enabled: bool, maxContext: nat, category: Option<string>,
    languages: Option<set<string>>, fnCall: bool, jsonMode: bool, streaming: Option<bool>, quality: Option<real>,
    trainsOnData: Option<bool>, cap: Option<nat>, priceIn: Option<real>, priceOut: Option<real>,
    priceCached: Option<real>, avgMs: Option<nat>, limits: Limits)

  /** `usdRate` converts the brand's currency. */
  datatype Brand = Brand(id: nat, slug: string, active: bool, weight: real, usdRate: real)

  datatype Key = Key(id: nat, active: bool)

  datatype Rule = Rule(model: nat, priority: int, maxCtx: Option<nat>, enabled: bool)

  datatype Catalog = Catalog(
    models: map<nat, Model>, brands: map<nat, Brand>, keys: map<nat, seq<Key>>, stepQuality: map<(nat, string), real>)

  datatype Request = Request(
    step: string, tokens: nat, fnCall: bool, jsonMode: bool, streaming: Option<bool>, qualityMin: real,
    exclude: set<nat>, categories: set<string>, languages: set<string>, noTraining: bool, pin: Option<string>,
    maxMs: Option<nat>, maxRatio: Option<real>, weights: Overrides)

  /** The group's part of a selection, and whether the caller is the gateway's own completion path. */
  datatype Policy = Policy(
    usePriority: bool, sticky: Option<nat>, weights: Overrides, maxMs: Option<nat>, maxRatio: Option<real>,
    gateway: bool)

  /** The live state a selection looks at; `history` holds the size-aware predictions for this request. */
  datatype World = World(
    now: int, usage: map<Bucket, Usage>, marks: Cooldowns.Marks, keyMarks: Cooldowns.Marks,
    quotaMarks: Cooldowns.Marks, brandMarks: Cooldowns.Marks, history: map<Bucket, real>)

  /** A selection task: what is fixed before any candidate is looked at. */
  datatype Task = Task(cat: Catalog, req: Request, pol: Policy)

  datatype Cand = Cand(
    model: Model, brand: Brand, priority: int, memberPriority: Option<int>, key: Option<nat>,
    fast: Room, slow: Room, predicted: Option<real>)

  /** Why a rule yields no candidate, with what is recorded for the retry hint; or the candidate. */
  datatype Verdict =
    | Ineligible
    | CallerExcluded
    | Cooling(models: seq<nat>, keys: seq<nat>, brands: seq<nat>)
    | Full(bucket: Bucket)
    | Offered(c: Cand)

  function UsageAt(usage: map<Bucket, Usage>, b: Bucket): Usage { if b in usage then usage[b] else EMPTY }

  // ---- structural eligibility ----

  function EffectiveQuality(cat: Catalog, m: Model, step: string): Option<real> {
    if (m.id, step) in cat.stepQuality then Some(cat.stepQuality[(m.id, step)]) else m.quality
  }

  predicate CategoryFits(m: Model, categories: set<string>) {
    if categories != {} then m.category.Some? && m.category.value in categories
    else m.category.Some? ==> m.category.value in {"text", "code", "vision"}
  }

  predicate Eligible(t: Task, rule: Rule) {
    rule.enabled && rule.model in t.cat.models &&
    var m, req := t.cat.models[rule.model], t.req;
    m.enabled && m.brand in t.cat.brands && t.cat.brands[m.brand].active &&
    (req.pin.Some? ==> req.pin.value in m.names) &&
    req.tokens <= m.maxContext && (rule.maxCtx.Some? ==> req.tokens <= rule.maxCtx.value) &&
    CategoryFits(m, req.categories) &&
    (req.languages != {} && m.languages.Some? ==> req.languages * m.languages.value != {}) &&
    (req.fnCall ==> m.fnCall) && (req.jsonMode ==> m.jsonMode) &&
    (req.streaming.Some? ==> m.streaming.GetOr(false) == req.streaming.value) &&
    (req.qualityMin > 0.0 ==>
       EffectiveQuality(t.cat, m, req.step).Some? && EffectiveQuality(t.cat, m, req.step).value >= req.qualityMin) &&
    (req.noTraining ==> m.trainsOnData == Some(false) || (t.pol.gateway && t.cat.brands[m.brand].slug == "openrouter"))
  }

  function ModelOf(t: Task, rule: Rule): Model
    requires Eligible(t, rule)
  {
    t.cat.models[rule.model]
  }

  /** `None` for a brand without key rows. */
  function KeysOf(t: Task, m: Model): Option<seq<Key>> {
    if m.brand in t.cat.keys then Some(t.cat.keys[m.brand]) else None
  }

  // ---- speed policy ----

  function MaxMs(t: Task): Option<nat> {
    var v := t.req.maxMs.Or(t.pol.maxMs);
    if v.Some? && v.value > 0 then v else None
  }

  function MaxRatio(t: Task): Option<real> {
    var v := t.req.maxRatio.Or(t.pol.maxRatio);
    if v.Some? && v.value >= 1.0 then v else None
  }

  predicate SpeedPolicy(t: Task) { MaxMs(t).Some? || MaxRatio(t).Some? }

  function Lookup(history: map<Bucket, real>, b: Bucket): Option<real> {
    if b in history then Some(history[b]) else None
  }

  function Catalogued(m: Model): Option<real> { if m.avgMs.Some? then Some(m.avgMs.value as real) else None }

  function Predict(t: Task, w: World, m: Model, key: Option<nat>): Option<real> {
    var b := Bucket(m.id, key);
    (if SpeedPolicy(t) then Lookup(w.history, b) else UsageAt(w.usage, b).latency).Or(Catalogued(m))
  }

  /** The lower of two predictions, where `None` is no prediction. */
  function Faster(a: Option<real>, b: Option<real>): Option<real> {
    if a.None? || (b.Some? && b.value < a.value) then b else a
  }

  function FastestKey(t: Task, w: World, m: Model, keys: seq<Key>): Option<real> {
    if keys == [] then None
    else
      var rest := FastestKey(t, w, m, keys[1..]);
      if keys[0].active then Faster(Predict(t, w, m, Some(keys[0].id)), rest) else rest
  }

  /** The speed baseline of a model: its fastest active key, or the keyless prediction. */
  function Baseline(t: Task, w: World, m: Model): Option<real> {
    FastestKey(t, w, m, KeysOf(t, m).GetOr([])).Or(Predict(t, w, m, None))
  }

  function EligibleBaseline(t: Task, w: World, rule: Rule): Option<real> {
    if Eligible(t, rule) then Baseline(t, w, ModelOf(t, rule)) else None
  }

  /** The fastest baseline among the structurally eligible rules. */
  function FastestBaseline(t: Task, w: World, rules: seq<Rule>): Option<real> {
    if rules == [] then None else Faster(EligibleBaseline(t, w, rules[0]), FastestBaseline(t, w, rules[1..]))
  }

  /** Both ceilings must pass when both are set; `None` is no ceiling. */
  function Ceiling(t: Task, fastest: Option<real>): Option<real> { LowerCeiling(MaxMs(t), MaxRatio(t), fastest) }

  function LowerCeiling(maxMs: Option<nat>, ratio: Option<real>, fastest: Option<real>): Option<real> {
    var absolute := if maxMs.Some? then Some(maxMs.value as real) else None;
    var relative := if ratio.Some? && fastest.Some? then Some(ratio.value * fastest.value) else None;
    Faster(absolute, relative)
  }

  predicate Passes(c: Cand, ceiling: Option<real>) {
    c.predicted.Some? && (ceiling.Some? ==> c.predicted.value <= ceiling.value)
  }

  // ---- cooldowns and capacity ----

  predicate KeyLive(w: World, id: nat) {
    Cooldowns.Live(w.keyMarks, id, w.now) || Cooldowns.Live(w.quotaMarks, id, w.now)
  }

  /** There are active keys and all of them are blocked. */
  predicate KeysCooling(w: World, keys: seq<Key>) {
    (exists k :: k in keys && k.active) && forall k :: k in keys && k.active ==> KeyLive(w, k.id)
  }

  predicate BrandCooling(w: World, m: Model) { Cooldowns.Live(w.brandMarks, m.brand, w.now) }

  predicate ModelCooling(w: World, m: Model) { Cooldowns.Live(w.marks, m.id, w.now) || BrandCooling(w, m) }

  predicate CoolingDown(t: Task, w: World, m: Model) {
    KeysCooling(w, KeysOf(t, m).GetOr([])) || ModelCooling(w, m)
  }

  predicate HasRoom(w: World, m: Model, key: Option<nat>) {
    var u := UsageAt(w.usage, Bucket(m.id, key));
    !AtCap(u, m.cap) && !Exhausted(u, w.now)
  }

  predicate CanServe(w: World, m: Model, k: Key) { k.active && !KeyLive(w, k.id) && HasRoom(w, m, Some(k.id)) }

  /** The first key able to serve the model. */
  function FirstServing(w: World, m: Model, keys: seq<Key>): Option<nat> {
    if keys == [] then None
    else if CanServe(w, m, keys[0]) then Some(keys[0].id)
    else FirstServing(w, m, keys[1..])
  }

  /** The account that would serve the model: one of its keys, or none for a brand without active keys. */
  predicate Servable(t: Task, w: World, m: Model) {
    var keys := KeysOf(t, m).GetOr([]);
    if exists k :: k in keys && k.active then exists k :: k in keys && CanServe(w, m, k) else HasRoom(w, m, None)
  }

  /** A rule is available when its model fits, is not excluded or cooling down, and has an account with room. */
  predicate Available(t: Task, w: World, rule: Rule) {
    Eligible(t, rule) &&
    var m := ModelOf(t, rule);
    m.id !in t.req.exclude && !CoolingDown(t, w, m) && Servable(t, w, m)
  }

  function ActiveIds(keys: seq<Key>): seq<nat> {
    if keys == [] then [] else if keys[0].active then [keys[0].id] + ActiveIds(keys[1..]) else ActiveIds(keys[1..])
  }

  predicate AnyActive(keys: seq<Key>) { exists k :: k in keys && k.active }

  function MakeCand(t: Task, w: World, rule: Rule, key: Option<nat>): Cand
    requires Eligible(t, rule)
  {
    var m := ModelOf(t, rule);
    var u := UsageAt(w.usage, Bucket(m.id, key));
    Cand(m, t.cat.brands[m.brand], rule.priority, if t.pol.usePriority then Some(rule.priority) else None, key,
         FastRoom(FastDrained(u, w.now), m.limits, t.req.tokens),
         SlowRoom(SlowDrained(u, w.now), m.limits, t.req.tokens),
         Predict(t, w, m, key))
  }

  function VerdictOf(t: Task, w: World, rule: Rule): Verdict {
    if !Eligible(t, rule) then Ineligible
    else
      var m := ModelOf(t, rule);
      var keys := KeysOf(t, m).GetOr([]);
      if m.id in t.req.exclude then CallerExcluded
      else if CoolingDown(t, w, m) then
        Cooling(if ModelCooling(w, m) then [m.id] else [], if KeysCooling(w, keys) then ActiveIds(keys) else [],
                if BrandCooling(w, m) then [m.brand] else [])
      else
        var key := FirstServing(w, m, keys);
        if (AnyActive(keys) && key.None?) || !HasRoom(w, m, key) then Full(Bucket(m.id, key))
        else Offered(MakeCand(t, w, rule, key))
  }

  function Verdicts(t: Task, w: World, rules: seq<Rule>): seq<Verdict> {
    if rules == [] then [] else [VerdictOf(t, w, rules[0])] + Verdicts(t, w, rules[1..])
  }

  function OfferOf(v: Verdict): seq<Cand> { if v.Offered? then [v.c] else [] }

  function Offers(vs: seq<Verdict>): seq<Cand> {
    if vs == [] then [] else OfferOf(vs[0]) + Offers(vs[1..])
  }

  /** Counted as tried: eligible, yet no candidate. */
  predicate Skipped(v: Verdict) { !v.Ineligible? && !v.Offered? }

  function Tried(vs: seq<Verdict>): nat {
    if vs == [] then 0 else (if Skipped(vs[0]) then 1 else 0) + Tried(vs[1..])
  }

  /** What the exhausted branch asks each store about. */
  datatype Blocks = Blocks(models: seq<nat>, keys: seq<nat>, brands: seq<nat>, buckets: seq<Bucket>)

  function BlockOf(v: Verdict): Blocks {
    match v
    case Cooling(models, keys, brands) => Blocks(models, keys, brands, [])
    case Full(b) => Blocks([], [], [], [b])
    case _ => Blocks([], [], [], [])
  }

  function Both(a: Blocks, b: Blocks): Blocks {
    Blocks(a.models + b.models, a.keys + b.keys, a.brands + b.brands, a.buckets + b.buckets)
  }

  function BlocksOf(vs: seq<Verdict>): Blocks {
    if vs == [] then Blocks([], [], [], []) else Both(BlockOf(vs[0]), BlocksOf(vs[1..]))
  }

  // ---- what the filter leaves of the keyless buckets ----

  /** The models whose keyless account is asked for its learned limit when the rule is considered. */
  function ProbedBy(t: Task, w: World, rule: Rule): set<nat> {
    if !Eligible(t, rule) then {}
    else
      var m := ModelOf(t, rule);
      if m.id in t.req.exclude || CoolingDown(t, w, m) || AnyActive(KeysOf(t, m).GetOr([])) ||
         AtCap(UsageAt(w.usage, Bucket(m.id, None)), m.cap)
      then {} else {m.id}
  }

  function ProbedIn(t: Task, w: World, rules: seq<Rule>): set<nat> {
    if rules == [] then {} else ProbedBy(t, w, rules[0]) + ProbedIn(t, w, rules[1..])
  }

  /** The keyless bucket of a model once the accounts of `seen` have been asked. */
  function KeylessUsage(w: World, seen: set<nat>, model: nat): Usage {
    var u := UsageAt(w.usage, Bucket(model, None));
    if model in seen then Probed(u, w.now) else u
  }

  // ---- the values a hint is taken from ----

  /** The milliseconds until an entry leaves a minute-scale window of the keyless buckets. */
  ghost function WindowHints(w: World, seen: set<nat>, buckets: seq<Bucket>): set<nat> {
    set b, h | b in buckets && h in DrainHints(KeylessUsage(w, seen, b.model), w.now) :: h
  }

  /** One of the buckets has no history, so that only calls in flight can block it. */
  ghost predicate OnlyInFlight(w: World, seen: set<nat>, buckets: seq<Bucket>) {
    exists b :: b in buckets && NoHistory(KeylessUsage(w, seen, b.model))
  }

  const FLAT_HINT: nat := 2_000

  /**
   The hint is the least of the cooldown and window values; two seconds stand in for windows that offer none
   when calls in flight block; zero means that there is nothing to wait for.
   */
  ghost predicate IsHint(ms: nat, cooldowns: set<nat>, windows: set<nat>, onlyInFlight: bool) {
    var values := cooldowns + (if windows == {} && onlyInFlight then {FLAT_HINT} else windows);
    if values == {} then ms == 0 else ms in values && forall h :: h in values ==> ms <= h
  }

  /** Every millisecond value any store offers for the blocked identifiers. */
  ghost function CooldownHints(w: World, b: Blocks): set<nat> {
    Cooldowns.Remaining(w.marks, b.models, w.now) + Cooldowns.Remaining(w.keyMarks, b.keys, w.now) +
    Cooldowns.Remaining(w.quotaMarks, b.keys, w.now) + Cooldowns.Remaining(w.brandMarks, b.brands, w.now)
  }

  /** The values that come from marks still live. */
  ghost function LiveHints(w: World, b: Blocks): set<nat> {
    Cooldowns.LiveRemaining(w.marks, b.models, w.now) + Cooldowns.LiveRemaining(w.keyMarks, b.keys, w.now) +
    Cooldowns.LiveRemaining(w.quotaMarks, b.keys, w.now) + Cooldowns.LiveRemaining(w.brandMarks, b.brands, w.now)
  }

  /** The candidates left by the latency ceiling, and whether the ceiling had to be given up. */
  function Passing(cands: seq<Cand>, ceiling: Option<real>): seq<Cand> {
    if cands == [] then []
    else (if Passes(cands[0], ceiling) then [cands[0]] else []) + Passing(cands[1..], ceiling)
  }

  predicate Fallback(t: Task, cands: seq<Cand>, ceiling: Option<real>) {
    SpeedPolicy(t) && Passing(cands, ceiling) == []
  }

  function Pool(t: Task, cands: seq<Cand>, ceiling: Option<real>): seq<Cand> {
    if SpeedPolicy(t) && Passing(cands, ceiling) != [] then Passing(cands, ceiling) else cands
  }

  // ---- order ----

  datatype Ranked = Ranked(c: Cand, score: real)

  function RankedPool(pool: seq<Cand>, scores: seq<real>): seq<Ranked>
    requires |scores| == |pool|
  {
    seq(|pool|, i requires 0 <= i < |pool| => Ranked(pool[i], scores[i]))
  }

  /** Score descending, then rule priority ascending. */
  predicate ByScore(a: Ranked, b: Ranked) { a.score > b.score || (a.score == b.score && a.c.priority <= b.c.priority) }

  /** Prediction ascending, unknown last. */
  predicate ByLatency(a: Ranked, b: Ranked) {
    b.c.predicted.None? || (a.c.predicted.Some? && a.c.predicted.value <= b.c.predicted.value)
  }

  predicate Prepaid(c: Cand) { c.model.cap.Some? && c.model.priceIn == Some(0.0) && c.model.priceOut == Some(0.0) }

  /** Prepaid capacity first. */
  predicate ByPrepaid(a: Ranked, b: Ranked) { Prepaid(a.c) || !Prepaid(b.c) }

  function Order(ranked: seq<Ranked>, fallback: bool): seq<Ranked> {
    StableSort(StableSort(ranked, (a, b) => ByScore(a, b)), SecondKey(fallback))
  }

  function SecondKey(fallback: bool): (Ranked, Ranked) -> bool {
    if fallback then (a, b) => ByLatency(a, b) else (a, b) => ByPrepaid(a, b)
  }

  function BucketOf(c: Cand): Bucket { Bucket(c.model.id, c.key) }

  // ---- scores ----

  function EntrantOf(t: Task, c: Cand): Entrant {
    Entrant(c.fast, c.slow, EffectiveQuality(t.cat, c.model, t.req.step).GetOr(0.5),
            EffectivePrice(c.model.priceIn, c.model.priceCached, c.brand.usdRate, t.pol.sticky.Some?),
            c.predicted, c.memberPriority, c.brand.id)
  }

  function Entrants(t: Task, pool: seq<Cand>): seq<Entrant> {
    seq(|pool|, i requires 0 <= i < |pool| => EntrantOf(t, pool[i]))
  }

  function Recent(q: seq<int>, cutoff: int): nat {
    if q == [] then 0 else (if q[0] > cutoff then 1 else 0) + Recent(q[1..], cutoff)
  }

  predicate Listed(bs: seq<Brand>, id: nat) { exists i :: 0 <= i < |bs| && bs[i].id == id }

  lemma ListedAfter(b: Brand, bs: seq<Brand>, id: nat)
    requires b.id == id || Listed(bs, id)
    ensures Listed([b] + bs, id)
  {
    if b.id == id {
      assert ([b] + bs)[0].id == id;
    } else {
      var i :| 0 <= i < |bs| && bs[i].id == id;
      assert ([b] + bs)[i + 1].id == id;
    }
  }

  /** The brands of a pool, each once. */
  function BrandsOf(pool: seq<Cand>): (bs: seq<Brand>)
    ensures forall c :: c in pool ==> Listed(bs, c.brand.id)
    ensures forall i, j :: 0 <= i < j < |bs| ==> bs[i].id != bs[j].id
    ensures forall b :: b in bs ==> exists c :: c in pool && c.brand == b
  {
    if pool == [] then []
    else
      var rest := BrandsOf(pool[1..]);
      assert forall b :: b in rest ==> exists c :: c in pool && c.brand == b by {
        forall b | b in rest
          ensures exists c :: c in pool && c.brand == b
        {
          var c :| c in pool[1..] && c.brand == b;
          assert c in pool;
        }
      }
      if Listed(rest, pool[0].brand.id) then rest
      else
        assert forall c :: c in pool ==> Listed([pool[0].brand] + rest, c.brand.id) by {
          forall c | c in pool
            ensures Listed([pool[0].brand] + rest, c.brand.id)
          {
            assert c == pool[0] || c in pool[1..];
            ListedAfter(pool[0].brand, rest, c.brand.id);
          }
        }
        assert pool[0] in pool;
        [pool[0].brand] + rest
  }

  function SharesOf(bs: seq<Brand>, traffic: map<nat, seq<int>>, cutoff: int): seq<Share> {
    seq(|bs|, i requires 0 <= i < |bs| =>
      Share(bs[i].weight, if bs[i].id in traffic then Recent(traffic[bs[i].id], cutoff) else 0))
  }

  function BrandIndex(bs: seq<Brand>, id: nat): (i: nat)
    requires Listed(bs, id)
    ensures i < |bs| && bs[i].id == id
  {
    if bs[0].id == id then 0
    else
      assert Listed(bs[1..], id) by {
        var j :| 0 <= j < |bs| && bs[j].id == id;
        assert bs[1..][j - 1].id == id;
      }
      BrandIndex(bs[1..], id) + 1
  }

  function WeightsOf(t: Task): Weights {
    ResolveWeights(if t.pol.usePriority then WITH_PRIORITY else WITHOUT_PRIORITY, t.req.weights, t.pol.weights)
  }

  function BaseScore(t: Task, pool: seq<Cand>, traffic: map<nat, seq<int>>, cutoff: int, i: nat): real
    requires i < |pool|
  {
    var bs := BrandsOf(pool);
    var shares := SharesOf(bs, traffic, cutoff);
    Score(Entrants(t, pool)[i], Entrants(t, pool), WeightsOf(t), BalanceScore(shares, BrandIndex(bs, pool[i].brand.id)))
  }

  function BaseScores(t: Task, pool: seq<Cand>, traffic: map<nat, seq<int>>, cutoff: int): seq<real> {
    seq(|pool|, i requires 0 <= i < |pool| => BaseScore(t, pool, traffic, cutoff, i))
  }

  predicate Comfortable(c: Cand) { c.fast.Fin? && c.fast.v > STICKY_MIN_HEADROOM }

  predicate StickyFit(c: Cand, model: nat) { c.model.id == model && Comfortable(c) }

  /** The first candidate of the sticky model with comfortable fast headroom; none only when there is none. */
  function StickyAt(pool: seq<Cand>, model: nat): (at: Option<nat>)
    ensures at.Some? ==>
              at.value < |pool| && StickyFit(pool[at.value], model) &&
              forall j :: 0 <= j < at.value ==> !StickyFit(pool[j], model)
    ensures at.None? ==> forall j :: 0 <= j < |pool| ==> !StickyFit(pool[j], model)
  {
    if pool == [] then None
    else if StickyFit(pool[0], model) then Some(0)
    else
      var rest := StickyAt(pool[1..], model);
      if rest.Some? then Some(rest.value + 1) else None
  }

  /** The group's last winner, while it is fresh. */
  function FreshSticky(t: Task, sticky: map<nat, (nat, int)>, now: int): Option<nat> {
    if t.pol.sticky.Some? && t.pol.sticky.value in sticky && now - sticky[t.pol.sticky.value].1 < STICKY_TTL
    then Some(sticky[t.pol.sticky.value].0) else None
  }

  function Scores(t: Task, pool: seq<Cand>, traffic: map<nat, seq<int>>, sticky: map<nat, (nat, int)>,
                  now: int): (s: seq<real>)
    ensures |s| == |pool|
  {
    var last := FreshSticky(t, sticky, now);
    WithBonus(BaseScores(t, pool, traffic, now - TRAFFIC_WINDOW),
              if last.Some? then StickyAt(pool, last.value) else None)
  }

  // ---- traffic window ----

  /** What is left of a brand's selection times when the stale front has been popped. */
  function DropStale(q: seq<int>, cutoff: int): seq<int> {
    if q == [] || q[0] > cutoff then q else DropStale(q[1..], cutoff)
  }

  function TimesOf(traffic: map<nat, seq<int>>, brand: nat): seq<int> {
    if brand in traffic then traffic[brand] else []
  }
}
