/** The selector: cooldown stores, the usage tracker, and the selection that reads and updates them. */
module Selector {
  import opened Basics
  import opened UsageTracking
  import opened Scoring
  import opened Selection
  import opened SelectionLaws
  import opened QuotaLaws
  import Cooldowns

  datatype Choice = Selected(c: Cand) | AllExhausted(tried: nat, retryAfterMs: nat)

  // ---- what a selection answers ----

  /**
   Nothing was available. The hint is the least of the cooldowns of the blocked identifiers, where a mark that
   expires at this very instant may or may not be among them, and of the windows of the blocked buckets.
   */
  ghost predicate Refused(t: Task, w: World, rules: seq<Rule>, tried: nat, ms: nat) {
    var vs := Verdicts(t, w, rules);
    tried == Tried(vs) && HintFor(w, ProbedIn(t, w, rules), BlocksOf(vs), ms)
  }

  ghost predicate HintFor(w: World, seen: set<nat>, b: Blocks, ms: nat) {
    exists cooldowns ::
      LiveHints(w, b) <= cooldowns <= CooldownHints(w, b) &&
      IsHint(ms, cooldowns, WindowHints(w, seen, b.buckets), OnlyInFlight(w, seen, b.buckets))
  }

  /** The candidates that the ceiling leaves, scored and ordered. */
  function OrderOf(
    t: Task, cands: seq<Cand>, fastest: Option<real>, traffic: map<nat, seq<int>>, sticky: map<nat, (nat, int)>,
    now: int): seq<Ranked>
  {
    var ceiling := Ceiling(t, fastest);
    var pool := Pool(t, cands, ceiling);
    Order(RankedPool(pool, Scores(t, pool, traffic, sticky, now)), Fallback(t, cands, ceiling))
  }

  /** The head of the order of the declared candidates. */
  ghost predicate IsWinner(t: Task, w: World, rules: seq<Rule>, traffic: map<nat, seq<int>>,
                           sticky: map<nat, (nat, int)>, c: Cand) {
    var order := OrderOf(t, Offers(Verdicts(t, w, rules)), FastestBaseline(t, w, rules), traffic, sticky, w.now);
    order != [] && c == order[0].c && HasRoom(w, c.model, c.key)
  }

  /** A refusal's hint is zero exactly when nothing cools down and every blocked bucket has only stale windows. */
  lemma RefusalHintIsZeroIff(t: Task, w: World, rules: seq<Rule>, tried: nat, ms: nat)
    requires Refused(t, w, rules, tried, ms)
    ensures ms == 0 <==>
            forall r :: r in rules ==>
              !VerdictOf(t, w, r).Cooling? &&
              (VerdictOf(t, w, r).Full? ==>
               Quiet(KeylessUsage(w, ProbedIn(t, w, rules), VerdictOf(t, w, r).bucket.model), w.now))
  {
    hide Verdicts, BlocksOf, VerdictOf, ProbedIn, LiveHints, CooldownHints, IsHint, WindowHints, OnlyInFlight;
    var b, seen := BlocksOf(Verdicts(t, w, rules)), ProbedIn(t, w, rules);
    var cooldowns :| LiveHints(w, b) <= cooldowns <= CooldownHints(w, b) &&
                     IsHint(ms, cooldowns, WindowHints(w, seen, b.buckets), OnlyInFlight(w, seen, b.buckets));
    ZeroHintIff(t, w, rules, ms, cooldowns);
  }

  /** A refusal's hint is two seconds when nothing cools down, no window offers a value and a bucket has no history. */
  lemma RefusalHintIsFlat(t: Task, w: World, rules: seq<Rule>, tried: nat, ms: nat)
    requires Refused(t, w, rules, tried, ms) && forall r :: r in rules ==> !VerdictOf(t, w, r).Cooling?
    requires WindowHints(w, ProbedIn(t, w, rules), BlocksOf(Verdicts(t, w, rules)).buckets) == {}
    requires OnlyInFlight(w, ProbedIn(t, w, rules), BlocksOf(Verdicts(t, w, rules)).buckets)
    ensures ms == FLAT_HINT
  {
    BlocksComeFromRules(t, w, rules);
    hide Verdicts, BlocksOf, VerdictOf, ProbedIn, WindowHints, OnlyInFlight;
    NoCoolingNoHints(w, BlocksOf(Verdicts(t, w, rules)));
    hide LiveHints, CooldownHints;
  }

  /**
   A selection refused for cooldowns only: without new reports no rule becomes available before a millisecond
   ahead of the hint, and by the end of the hint a mark has expired.
   */
  lemma RefusalHintIsSoundAndTight(t: Task, w: World, rules: seq<Rule>, tried: nat, ms: nat, r: Rule)
    requires Refused(t, w, rules, tried, ms) && Offers(Verdicts(t, w, rules)) == []
    requires BlocksOf(Verdicts(t, w, rules)).buckets == [] && r in rules && VerdictOf(t, w, r).Cooling?
    ensures ms > 0 && SomeMarkExpires(w, BlocksOf(Verdicts(t, w, rules)), w.now + ms * MILLI)
    ensures forall at, q :: w.now <= at < w.now + (ms - 1) * MILLI && q in rules ==> !Available(t, Later(w, at), q)
  {
    var b, seen := BlocksOf(Verdicts(t, w, rules)), ProbedIn(t, w, rules);
    CoolingGivesHint(t, w, rules, r);
    hide Verdicts, BlocksOf, VerdictOf, Available, LiveHints, CooldownHints, Offers, WindowHints, OnlyInFlight,
         ProbedIn;
    CooldownOnlyHint(w, seen, b, ms);
    hide HintFor;
    HintTight(w, b, ms);
    hide SomeMarkExpires;
    forall at | w.now <= at < w.now + (ms - 1) * MILLI
      ensures forall q :: q in rules ==> !Available(t, Later(w, at), q)
    {
      HintSound(t, w, rules, ms, at);
    }
  }

  lemma CooldownOnlyHint(w: World, seen: set<nat>, b: Blocks, ms: nat)
    requires HintFor(w, seen, b, ms) && b.buckets == [] && exists h :: h in LiveHints(w, b)
    ensures ms > 0 && ms in CooldownHints(w, b) && forall h :: h in LiveHints(w, b) ==> ms <= h
  {
    NoBucketsNoHints(w, seen);
    ValuesArePositive(w, b, seen);
    hide LiveHints, CooldownHints, WindowHints, OnlyInFlight;
  }

  lemma NoBucketsNoHints(w: World, seen: set<nat>)
    ensures WindowHints(w, seen, []) == {} && !OnlyInFlight(w, seen, [])
  {
  }

  lemma {:induction false} OffersHaveRoom(t: Task, w: World, rules: seq<Rule>)
    ensures forall c :: c in Offers(Verdicts(t, w, rules)) ==> HasRoom(w, c.model, c.key)
  {
    CandidatesAreTheAvailableRules(t, w, rules);
  }

  /** The head of a non-empty pool's order has room, so that it reserves at the first try. */
  lemma HeadReserves(t: Task, w: World, rules: seq<Rule>, traffic: map<nat, seq<int>>, sticky: map<nat, (nat, int)>)
    requires Offers(Verdicts(t, w, rules)) != []
    ensures var order := OrderOf(t, Offers(Verdicts(t, w, rules)), FastestBaseline(t, w, rules), traffic, sticky,
                                 w.now);
            order != [] && IsWinner(t, w, rules, traffic, sticky, order[0].c) &&
            !AtCap(UsageAt(w.usage, BucketOf(order[0].c)), order[0].c.model.cap)
  {
    var cands := Offers(Verdicts(t, w, rules));
    var ceiling := Ceiling(t, FastestBaseline(t, w, rules));
    var pool := Pool(t, cands, ceiling);
    var scores := Scores(t, pool, traffic, sticky, w.now);
    var ranked := RankedPool(pool, scores);
    hide Verdicts, Offers, Scores, Ceiling, FastestBaseline, Order, AtCap, UsageAt;
    OffersHaveRoom(t, w, rules);
    PassingIsFilter(cands, ceiling);
    var k := HeadOfOrder(ranked, Fallback(t, cands, ceiling));
    assert ranked[k].c == pool[k] && pool[k] in pool && pool[k] in cands;
  }

  /** The world once `c` has its reservation. */
  ghost function Taken(w: World, t: Task, c: Cand): World {
    w.(usage := w.usage[BucketOf(c) := Reserved(UsageAt(w.usage, BucketOf(c)), t.req.tokens)])
  }

  function TrafficWith(traffic: map<nat, seq<int>>, c: Cand, now: int): map<nat, seq<int>> {
    traffic[c.brand.id := DropStale(TimesOf(traffic, c.brand.id), now - TRAFFIC_WINDOW) + [now]]
  }

  function StickyWith(sticky: map<nat, (nat, int)>, t: Task, c: Cand, now: int): map<nat, (nat, int)> {
    if t.pol.sticky.Some? then sticky[t.pol.sticky.value := (c.model.id, now)] else sticky
  }

  // ---- what a report changes ----

  function KeyMarksAfter(marks: Cooldowns.Marks, b: Bucket, error: Cooldowns.ErrorType, now: int): Cooldowns.Marks {
    if b.key.Some? && error.AccountScoped() then Cooldowns.Marked(marks, b.key.value, error, now) else marks
  }

  function ModelMarksAfter(marks: Cooldowns.Marks, b: Bucket, error: Cooldowns.ErrorType, now: int): Cooldowns.Marks {
    if b.key.Some? && error.AccountScoped() then marks else Cooldowns.Marked(marks, b.model, error, now)
  }

  /** A catalogued model that declares no rate limit. */
  predicate LimitsUnknown(cat: Catalog, model: nat) {
    model in cat.models &&
    var m := cat.models[model].limits;
    m.rpm.None? && m.tpm.None? && m.rps.None?
  }

  /** Prompt plus completion when both are reported, else the reported total. */
  function Spent(actual: Option<nat>, prompt: Option<nat>, completion: Option<nat>): Option<nat> {
    if prompt.Some? && completion.Some? then Some(prompt.value + completion.value) else actual
  }

  function Timed(u: Usage, ms: Option<nat>): Usage { if ms.Some? then LatencyRecorded(u, ms.value) else u }

  datatype Scope = NoScope | ModelScope | KeyScope(key: nat) | BrandScope(brand: nat)

  function QuotaScope(cat: Catalog, b: Bucket, retryMs: Option<nat>, brandQuota: bool): Scope {
    if b.model !in cat.models || (retryMs.None? && !brandQuota) then NoScope
    else if b.key.Some? then KeyScope(b.key.value)
    else if brandQuota then BrandScope(cat.models[b.model].brand)
    else ModelScope
  }

  /**
   Recording the outcome after the remaining counts and the response time gives what recording it before them does.
   */
  lemma OutcomeCommutes(u: Usage, tokens: nat, actual: Option<nat>, remReq: Option<nat>, remTok: Option<nat>,
                        ms: Option<nat>, now: int)
    ensures OutcomeRecorded(Timed(Anchored(Released(u, tokens, actual, now), remReq, remTok), ms), now, false, false) ==
            Timed(Anchored(Reported(u, Report(Success, tokens, actual, now)), remReq, remTok), ms)
  {
    var v := Released(u, tokens, actual, now);
    assert Reported(u, Report(Success, tokens, actual, now)) == OutcomeRecorded(v, now, false, false);
    OutcomeIgnoresAnchors(v, remReq, remTok, now);
    OutcomeIgnoresLatency(Anchored(v, remReq, remTok), ms, now);
    hide *;
  }

  lemma OutcomeIgnoresAnchors(u: Usage, remReq: Option<nat>, remTok: Option<nat>, now: int)
    ensures OutcomeRecorded(Anchored(u, remReq, remTok), now, false, false) ==
            Anchored(OutcomeRecorded(u, now, false, false), remReq, remTok)
  {
    hide Retained;
  }

  lemma OutcomeIgnoresLatency(u: Usage, ms: Option<nat>, now: int)
    ensures OutcomeRecorded(Timed(u, ms), now, false, false) == Timed(OutcomeRecorded(u, now, false, false), ms)
  {
    hide Retained;
  }

  /** The report of a served call gives its reservation back, whatever the outcome and whatever else it records. */
  lemma ReportGivesBack(u: Usage, r: Report, remReq: Option<nat>, remTok: Option<nat>, ms: Option<nat>)
    requires u.inReq < U32_MAX && u.inTok + r.tokens <= U64_MAX
    ensures var v := Timed(Anchored(Reported(Reserved(u, r.tokens), r), remReq, remTok), ms);
            v.inReq == u.inReq && v.inTok == u.inTok
  {
  }

  /** An account-scoped failure takes its key out for the length of the cooldown, and no other key at all. */
  lemma FailedKeyIsOut(w: World, b: Bucket, error: Cooldowns.ErrorType, m: Model, k: Key, at: int)
    requires b.key.Some? && error.AccountScoped() && w.now <= at < w.now + error.CooldownSecs() * SECOND
    ensures var marked := w.(keyMarks := KeyMarksAfter(w.keyMarks, b, error, w.now), now := at);
            (k.id == b.key.value ==> !CanServe(marked, m, k)) &&
            (k.id != b.key.value ==> CanServe(marked, m, k) == CanServe(w.(now := at), m, k))
  {
    var marked := w.(keyMarks := KeyMarksAfter(w.keyMarks, b, error, w.now), now := at);
    assert KeyLive(marked, b.key.value);
    assert HasRoom(marked, m, Some(k.id)) == HasRoom(w.(now := at), m, Some(k.id));
  }

  /** A failure laid at the model's door makes its rules unavailable and leaves every other model's rules alone. */
  lemma FailedModelIsOut(t: Task, w: World, b: Bucket, error: Cooldowns.ErrorType, rule: Rule, at: int)
    requires (b.key.None? || !error.AccountScoped()) && w.now <= at < w.now + error.CooldownSecs() * SECOND
    requires Eligible(t, rule)
    ensures var marked := w.(marks := ModelMarksAfter(w.marks, b, error, w.now), now := at);
            (ModelOf(t, rule).id == b.model ==> !Available(t, marked, rule)) &&
            (ModelOf(t, rule).id != b.model ==> Available(t, marked, rule) == Available(t, w.(now := at), rule))
  {
    var later := w.(now := at);
    var marked := later.(marks := ModelMarksAfter(w.marks, b, error, w.now));
    var m := ModelOf(t, rule);
    var keys := KeysOf(t, m).GetOr([]);
    hide Eligible, Exhausted;
    forall k: Key
      ensures KeyLive(marked, k.id) == KeyLive(later, k.id) && CanServe(marked, m, k) == CanServe(later, m, k)
    {
      assert HasRoom(marked, m, Some(k.id)) == HasRoom(later, m, Some(k.id));
    }
    assert KeysCooling(marked, keys) == KeysCooling(later, keys);
    assert Servable(t, marked, m) == Servable(t, later, m);
  }

  /** A success counts prompt plus completion where both are reported, else the total, else the estimate. */
  lemma SplitTokensCount(total: Option<nat>, prompt: Option<nat>, completion: Option<nat>, estimate: nat)
    ensures Spent(total, prompt, completion).GetOr(estimate) ==
            if prompt.Some? && completion.Some? then prompt.value + completion.value
            else if total.Some? then total.value else estimate
  {
  }

  /** A measured response time is recorded, and only that. */
  lemma MeasuredTimeCounts(u: Usage, ms: Option<nat>)
    ensures var v := Timed(u, ms);
            v == u.(latency := v.latency) &&
            if ms.None? then v == u
            else if u.latency.None? then v.latency == Some(ms.value as real)
            else v.latency.Some? && 5.0 * (v.latency.value - u.latency.value) == ms.value as real - u.latency.value
  {
    if ms.Some? {
      LatencyMovesAFifth(u, ms.value);
    }
    hide LatencyRecorded;
  }

  /** Whom a provider's delay concerns: the account where there is one, else the brand or the model. */
  lemma QuotaConcerns(cat: Catalog, b: Bucket, retryMs: Option<nat>, brandQuota: bool)
    ensures var scope, known := QuotaScope(cat, b, retryMs, brandQuota), b.model in cat.models;
            (forall k: nat :: scope == KeyScope(k) <==> known && (retryMs.Some? || brandQuota) && b.key == Some(k)) &&
            (forall x: nat :: scope == BrandScope(x) <==>
                         known && brandQuota && b.key == None && x == cat.models[b.model].brand) &&
            (scope == ModelScope <==> known && retryMs.Some? && !brandQuota && b.key == None)
  {
  }

  /** Only a catalogued model that declares no limit of a minute or a second learns one from a rejection. */
  lemma DeclaredLimitsAreNotLearned(cat: Catalog, model: nat, u: Usage, tokens: nat, actual: Option<nat>, at: int)
    ensures var v := Reported(u, Report(RateLimit(LimitsUnknown(cat, model)), tokens, actual, at));
            if model in cat.models && cat.models[model].limits.rpm == cat.models[model].limits.tpm == None &&
               cat.models[model].limits.rps == None
            then v.learned.Some? && v.lastIncrease == Some(at) else v.learned == u.learned
  {
    hide Retained;
  }

  /** A selection puts one more call of the request's tokens on its account, and on no other. */
  lemma TakenReserves(w: World, t: Task, c: Cand, b: Bucket)
    ensures var u, v := UsageAt(w.usage, b), UsageAt(Taken(w, t, c).usage, b);
            if b == Bucket(c.model.id, c.key) then
              v == u.(inReq := v.inReq, inTok := v.inTok) &&
              (u.inReq < 0xFFFF_FFFF ==> v.inReq == u.inReq + 1) &&
              (u.inTok + t.req.tokens <= 0xFFFF_FFFF_FFFF_FFFF ==> v.inTok == u.inTok + t.req.tokens)
            else v == u
  {
  }

  /** It counts once in its brand's traffic of the last five minutes, and in no other brand's. */
  lemma SelectionIsCounted(traffic: map<nat, seq<int>>, c: Cand, now: int, brand: nat)
    ensures Recent(TimesOf(TrafficWith(traffic, c, now), brand), now - 300 * SECOND) ==
            Recent(TimesOf(traffic, brand), now - 300 * SECOND) + if brand == c.brand.id then 1 else 0
  {
    RecordedSelectionCounts(TimesOf(traffic, c.brand.id), now - TRAFFIC_WINDOW, now);
  }

  /** Its model is the sticky one of a sticky group for five minutes; other groups keep theirs. */
  lemma WinnerIsSticky(t: Task, sticky: map<nat, (nat, int)>, c: Cand, now: int, later: int, group: nat)
    ensures var after := StickyWith(sticky, t, c, now);
            if t.pol.sticky == Some(group) then
              FreshSticky(t, after, later) == if later - now < 300 * SECOND then Some(c.model.id) else None
            else (group in after <==> group in sticky) && (group in sticky ==> after[group] == sticky[group])
  {
  }

  // ---- helpers of the loops ----

  /**
   The models whose keyless accounts have been asked for their learned limit during a selection; `None` once
   headroom has been computed, which drains windows of the candidates too.
   */
  type Seen = Option<set<nat>>

  function Also(seen: Seen, ids: set<nat>): (more: Seen)
    ensures ids == {} ==> more == seen
  {
    if seen.None? then None else assert ids == {} ==> seen.value + ids == seen.value; Some(seen.value + ids)
  }

  function SeenAfter(t: Task, w: World, rule: Rule, v: Verdict, seen: Seen): Seen {
    if v.Offered? then None else Also(seen, ProbedBy(t, w, rule))
  }

  /** A serving key has room, and without active keys none serves. */
  lemma NoKeyToServe(w: World, m: Model, keys: seq<Key>)
    ensures FirstServing(w, m, keys).Some? ==> HasRoom(w, m, FirstServing(w, m, keys)) && AnyActive(keys)
  {
    FirstServingIsFirst(w, m, keys);
  }

  /** Asking an account drains its keyless bucket, if it is one, and no other. */
  lemma AskedUsage(w: World, seen: Seen, b: Bucket, m: nat)
    ensures Asked(seen, b).Some? == seen.Some?
    ensures seen.Some? ==>
              KeylessUsage(w, Asked(seen, b).value, m) ==
              if b == Bucket(m, None) then Probed(KeylessUsage(w, seen.value, m), w.now)
              else KeylessUsage(w, seen.value, m)
  {
    DrainIsIdempotent(UsageAt(w.usage, Bucket(m, None)), w.now);
    hide Probed, UsageAt;
  }

  lemma RoomIsUnderCap(w: World, m: Model, key: Option<nat>)
    requires HasRoom(w, m, key)
    ensures !AtCap(UsageAt(w.usage, Bucket(m.id, key)), m.cap)
  {
  }

  function Asked(seen: Seen, b: Bucket): Seen { if b.key.None? then Also(seen, {b.model}) else seen }

  function Sooner(a: Option<nat>, b: Option<nat>): (c: Option<nat>)
    ensures (a.Some? ==> c.Some? && c.value <= a.value) && (b.Some? ==> c.Some? && c.value <= b.value)
    ensures c == a || c == b
  {
    if a.None? || (b.Some? && b.value < a.value) then b else a
  }

  /** The least of the answers of two stores is the least of their values together. */
  lemma SoonerIsLeast(a: Option<nat>, xs: set<nat>, b: Option<nat>, ys: set<nat>)
    requires Cooldowns.IsLeast(a, xs) && Cooldowns.IsLeast(b, ys)
    ensures Cooldowns.IsLeast(Sooner(a, b), xs + ys)
  {
  }

  /** The values of the four cooldown stores, some marks expiring now left out. */
  ghost predicate FromStores(w: World, b: Blocks, rm: set<nat>, rk: set<nat>, rq: set<nat>, rb: set<nat>) {
    Cooldowns.LiveRemaining(w.marks, b.models, w.now) <= rm <= Cooldowns.Remaining(w.marks, b.models, w.now) &&
    Cooldowns.LiveRemaining(w.keyMarks, b.keys, w.now) <= rk <= Cooldowns.Remaining(w.keyMarks, b.keys, w.now) &&
    Cooldowns.LiveRemaining(w.quotaMarks, b.keys, w.now) <= rq <= Cooldowns.Remaining(w.quotaMarks, b.keys, w.now) &&
    Cooldowns.LiveRemaining(w.brandMarks, b.brands, w.now) <= rb <= Cooldowns.Remaining(w.brandMarks, b.brands, w.now)
  }

  lemma StoresTogether(w: World, b: Blocks, rm: set<nat>, rk: set<nat>, rq: set<nat>, rb: set<nat>)
    requires FromStores(w, b, rm, rk, rq, rb)
    ensures LiveHints(w, b) <= rm + rk + rq + rb <= CooldownHints(w, b)
  {
    hide Cooldowns.LiveRemaining, Cooldowns.Remaining;
  }

  /** The answer about capacity, in the terms of the snapshot. */
  lemma CapacityAnswer(w: World, seen: set<nat>, buckets: seq<Bucket>, us: seq<Usage>, ms: Option<nat>)
    requires |us| == |buckets| && forall i :: 0 <= i < |us| ==> us[i] == KeylessUsage(w, seen, buckets[i].model)
    requires IsEarliest(ms, us, w.now)
    ensures Cooldowns.IsLeast(ms, if WindowHints(w, seen, buckets) == {} && OnlyInFlight(w, seen, buckets)
                                  then {FLAT_HINT} else WindowHints(w, seen, buckets))
  {
    hide DrainHints, NoHistory, KeylessUsage;
    forall u
      ensures u in us <==> exists b :: b in buckets && u == KeylessUsage(w, seen, b.model)
    {
      if u in us {
        var i :| 0 <= i < |us| && us[i] == u;
        assert buckets[i] in buckets;
      }
      if exists b :: b in buckets && u == KeylessUsage(w, seen, b.model) {
        var b :| b in buckets && u == KeylessUsage(w, seen, b.model);
        var i :| 0 <= i < |buckets| && buckets[i] == b;
        assert us[i] in us;
      }
    }
    SameWindowValues(w, seen, buckets, us);
    hide AllDrainHints, WindowHints;
  }

  lemma SameWindowValues(w: World, seen: set<nat>, buckets: seq<Bucket>, us: seq<Usage>)
    requires forall u :: u in us <==> exists b :: b in buckets && u == KeylessUsage(w, seen, b.model)
    ensures AllDrainHints(us, w.now) == WindowHints(w, seen, buckets)
    ensures (exists u :: u in us && NoHistory(u)) <==> OnlyInFlight(w, seen, buckets)
  {
    hide DrainHints, NoHistory, KeylessUsage;
    forall h | h in WindowHints(w, seen, buckets)
      ensures h in AllDrainHints(us, w.now)
    {
      var b :| b in buckets && h in DrainHints(KeylessUsage(w, seen, b.model), w.now);
      assert KeylessUsage(w, seen, b.model) in us;
    }
  }

  lemma LeastIsHint(ms: Option<nat>, cooldowns: set<nat>, windows: set<nat>, onlyInFlight: bool)
    requires Cooldowns.IsLeast(ms, cooldowns + if windows == {} && onlyInFlight then {FLAT_HINT} else windows)
    ensures IsHint(ms.GetOr(0), cooldowns, windows, onlyInFlight)
  {
  }

  lemma FasterAssociates(a: Option<real>, b: Option<real>, c: Option<real>)
    ensures Faster(Faster(a, b), c) == Faster(a, Faster(b, c))
  {
  }

  /** What the filter loop has gathered from the first `i` rules, completed by the rest, is the whole. */
  ghost predicate Remains(
    t: Task, w: World, rules: seq<Rule>, i: nat, cands: seq<Cand>, blocks: Blocks, tried: nat, fastest: Option<real>)
    requires i <= |rules|
  {
    cands + Offers(Verdicts(t, w, rules[i..])) == Offers(Verdicts(t, w, rules)) &&
    Both(blocks, BlocksOf(Verdicts(t, w, rules[i..]))) == BlocksOf(Verdicts(t, w, rules)) &&
    tried + Tried(Verdicts(t, w, rules[i..])) == Tried(Verdicts(t, w, rules)) &&
    Faster(fastest, FastestBaseline(t, w, rules[i..])) == FastestBaseline(t, w, rules)
  }

  /** While there is no candidate, the accounts asked so far and those of the rest are all that are asked. */
  ghost predicate SeenRemains(t: Task, w: World, rules: seq<Rule>, i: nat, cands: seq<Cand>, seen: Seen)
    requires i <= |rules|
  {
    cands == [] ==> Also(seen, ProbedIn(t, w, rules[i..])) == Some(ProbedIn(t, w, rules))
  }

  lemma SeenStep(t: Task, w: World, rules: seq<Rule>, i: nat, cands: seq<Cand>, seen: Seen)
    requires i < |rules| && SeenRemains(t, w, rules, i, cands, seen)
    ensures var v := VerdictOf(t, w, rules[i]);
            SeenRemains(t, w, rules, i + 1, cands + OfferOf(v), SeenAfter(t, w, rules[i], v, seen))
  {
    hide VerdictOf, Also, ProbedIn, ProbedBy;
    VerdictsSplit(t, w, rules, i);
    AlsoAssociates(seen, ProbedBy(t, w, rules[i]), ProbedIn(t, w, rules[i + 1..]));
  }

  lemma RemainsStep(
    t: Task, w: World, rules: seq<Rule>, i: nat, cands: seq<Cand>, blocks: Blocks, tried: nat, fastest: Option<real>)
    requires i < |rules| && Remains(t, w, rules, i, cands, blocks, tried, fastest)
    ensures var v := VerdictOf(t, w, rules[i]);
            Remains(t, w, rules, i + 1, cands + OfferOf(v), Both(blocks, BlockOf(v)),
                    if Skipped(v) then tried + 1 else tried, Faster(fastest, EligibleBaseline(t, w, rules[i])))
  {
    var v, rest := VerdictOf(t, w, rules[i]), rules[i + 1..];
    var vs := Verdicts(t, w, rest);
    hide VerdictOf, Verdicts, EligibleBaseline, FastestBaseline, Offers, BlocksOf, Tried, Both, BlockOf, OfferOf,
         Faster;
    VerdictsSplit(t, w, rules, i);
    FoldsSplit(v, vs);
    FasterAssociates(fastest, EligibleBaseline(t, w, rules[i]), FastestBaseline(t, w, rest));
    BothAssociates(blocks, BlockOf(v), BlocksOf(vs));
    Associates(cands, OfferOf(v), Offers(vs));
  }

  lemma RemainsAtFirst(t: Task, w: World, rules: seq<Rule>)
    ensures Remains(t, w, rules, 0, [], Blocks([], [], [], []), 0, None) && SeenRemains(t, w, rules, 0, [], Some({}))
  {
    assert rules[0..] == rules;
    hide Verdicts, FastestBaseline, ProbedIn;
    assert Both(Blocks([], [], [], []), BlocksOf(Verdicts(t, w, rules))) == BlocksOf(Verdicts(t, w, rules));
    assert {} + ProbedIn(t, w, rules) == ProbedIn(t, w, rules);
  }

  lemma RemainsAtLast(
    t: Task, w: World, rules: seq<Rule>, cands: seq<Cand>, blocks: Blocks, tried: nat, fastest: Option<real>,
    seen: Seen)
    requires Remains(t, w, rules, |rules|, cands, blocks, tried, fastest) &&
             SeenRemains(t, w, rules, |rules|, cands, seen)
    ensures cands == Offers(Verdicts(t, w, rules)) && blocks == BlocksOf(Verdicts(t, w, rules))
    ensures tried == Tried(Verdicts(t, w, rules)) && fastest == FastestBaseline(t, w, rules)
    ensures cands == [] ==> seen == Some(ProbedIn(t, w, rules))
  {
    assert rules[|rules|..] == [];
    assert Both(blocks, Blocks([], [], [], [])) == blocks;
  }

  lemma Associates<T>(a: seq<T>, b: seq<T>, c: seq<T>)
    ensures (a + b) + c == a + (b + c)
  {
  }

  lemma AlsoAssociates(seen: Seen, a: set<nat>, b: set<nat>)
    ensures Also(seen, a + b) == Also(Also(seen, a), b)
  {
    if seen.Some? {
      assert seen.value + (a + b) == (seen.value + a) + b;
    }
  }

  lemma BothAssociates(a: Blocks, b: Blocks, c: Blocks)
    ensures Both(Both(a, b), c) == Both(a, Both(b, c))
  {
    assert (a.models + b.models) + c.models == a.models + (b.models + c.models);
    assert (a.keys + b.keys) + c.keys == a.keys + (b.keys + c.keys);
    assert (a.brands + b.brands) + c.brands == a.brands + (b.brands + c.brands);
    assert (a.buckets + b.buckets) + c.buckets == a.buckets + (b.buckets + c.buckets);
  }

  lemma FoldsSplit(v: Verdict, vs: seq<Verdict>)
    ensures Offers([v] + vs) == OfferOf(v) + Offers(vs) && BlocksOf([v] + vs) == Both(BlockOf(v), BlocksOf(vs))
    ensures Tried([v] + vs) == (if Skipped(v) then 1 else 0) + Tried(vs)
  {
    assert ([v] + vs)[1..] == vs;
  }

  lemma VerdictsSplit(t: Task, w: World, rules: seq<Rule>, i: nat)
    requires i < |rules|
    ensures Verdicts(t, w, rules[i..]) == [VerdictOf(t, w, rules[i])] + Verdicts(t, w, rules[i + 1..])
    ensures FastestBaseline(t, w, rules[i..]) ==
            Faster(EligibleBaseline(t, w, rules[i]), FastestBaseline(t, w, rules[i + 1..]))
    ensures ProbedIn(t, w, rules[i..]) == ProbedBy(t, w, rules[i]) + ProbedIn(t, w, rules[i + 1..])
  {
    hide VerdictOf, EligibleBaseline, ProbedBy;
    assert rules[i..][0] == rules[i] && rules[i..][1..] == rules[i + 1..];
  }

  lemma ReserveAfterDrain(u: Usage, v: Usage, tokens: nat, now: int)
    requires Drained(u, now) == Drained(v, now)
    ensures Drained(Reserved(u, tokens), now) == Drained(Reserved(v, tokens), now)
  {
    assert Drained(Reserved(u, tokens), now) == Reserved(Drained(u, now), tokens);
    assert Drained(Reserved(v, tokens), now) == Reserved(Drained(v, now), tokens);
  }

  // ---- the object ----

  class Selector {
    const modelState: Cooldowns.RateLimitState
    const keyState: Cooldowns.RateLimitState
    const quotaState: Cooldowns.RateLimitState
    const brandState: Cooldowns.RateLimitState
    const tracker: UsageTracker
    var traffic: map<nat, seq<int>>
    var sticky: map<nat, (nat, int)>

    ghost function Frame(): (objects: set<object>)
      reads tracker
      ensures this !in objects
    {
      {modelState, keyState, quotaState, brandState, tracker} + tracker.cells.Values
    }

    ghost predicate Valid()
      reads tracker
    {
      tracker.Valid() && modelState != keyState && modelState != quotaState && modelState != brandState &&
      keyState != quotaState && keyState != brandState && quotaState != brandState
    }

    constructor ()
      ensures Valid() && fresh(Frame()) && traffic == map[] && sticky == map[]
    {
      modelState := new Cooldowns.RateLimitState();
      keyState := new Cooldowns.RateLimitState();
      quotaState := new Cooldowns.RateLimitState();
      brandState := new Cooldowns.RateLimitState();
      tracker := new UsageTracker();
      traffic, sticky := map[], map[];
    }

    /** The live state at one instant, with the predictions `history` offers for the request. */
    ghost function Snapshot(now: int, history: map<Bucket, real>): World
      reads Frame()
    {
      World(now, tracker.Usages(), modelState.limited, keyState.limited, quotaState.limited, brandState.limited,
            history)
    }

    /**
     The state is still `w` but for windows drained and expired marks removed at that instant; the keyless
     buckets are exactly as `seen` says.
     */
    ghost predicate Agrees(w: World, seen: Seen)
      reads Frame()
    {
      Valid() && LedgerAgrees(w, seen) && StoresAgree(w)
    }

    ghost predicate LedgerAgrees(w: World, seen: Seen)
      reads tracker, tracker.cells.Values
    {
      (forall b :: Drained(tracker.At(b), w.now) == Drained(UsageAt(w.usage, b), w.now)) &&
      (seen.Some? ==> forall m :: tracker.At(Bucket(m, None)) == KeylessUsage(w, seen.value, m))
    }

    ghost predicate StoresAgree(w: World)
      reads modelState, keyState, quotaState, brandState
    {
      Cooldowns.Purged(w.marks, modelState.limited, w.now) && Cooldowns.Purged(w.keyMarks, keyState.limited, w.now) &&
      Cooldowns.Purged(w.quotaMarks, quotaState.limited, w.now) &&
      Cooldowns.Purged(w.brandMarks, brandState.limited, w.now)
    }

    lemma AgreesAtOnce(now: int, history: map<Bucket, real>)
      requires Valid()
      ensures Agrees(Snapshot(now, history), Some({}))
      ensures Snapshot(now, history).now == now && Snapshot(now, history).history == history
    {
    }

    lemma AgreesIsValid(w: World, seen: Seen)
      requires Agrees(w, seen)
      ensures Valid() && Agrees(w, None)
    {
    }

    // ---- questions to the stores ----

    method KeyLimited(ghost w: World, ghost seen: Seen, id: nat, now: int) returns (b: bool)
      requires Agrees(w, seen) && now == w.now
      modifies Frame()
      ensures Agrees(w, seen) && fresh(Frame() - old(Frame())) && b == KeyLive(w, id)
    {
      hide LedgerAgrees;
      b := keyState.IsLimited(id, now);
      if !b {
        b := quotaState.IsLimited(id, now);
      }
    }

    method BrandLimited(ghost w: World, ghost seen: Seen, m: Model, now: int) returns (b: bool)
      requires Agrees(w, seen) && now == w.now
      modifies Frame()
      ensures Agrees(w, seen) && fresh(Frame() - old(Frame())) && b == BrandCooling(w, m)
    {
      hide LedgerAgrees;
      b := brandState.IsLimited(m.brand, now);
    }

    method ModelLimited(ghost w: World, ghost seen: Seen, m: Model, now: int) returns (b: bool)
      requires Agrees(w, seen) && now == w.now
      modifies Frame()
      ensures Agrees(w, seen) && fresh(Frame() - old(Frame())) && b == Cooldowns.Live(w.marks, m.id, now)
    {
      hide LedgerAgrees;
      b := modelState.IsLimited(m.id, now);
    }

    method LearnedOut(ghost w: World, ghost seen: Seen, b: Bucket, now: int) returns (out: bool)
      requires Agrees(w, seen) && now == w.now
      modifies Frame()
      ensures Agrees(w, Asked(seen, b)) && fresh(Frame() - old(Frame())) &&
              out == UsageTracking.Exhausted(UsageAt(w.usage, b), now)
    {
      hide LedgerAgrees, StoresAgree, Asked;
      out := AskLedger(w, seen, b, now);
    }

    method AskLedger(ghost w: World, ghost seen: Seen, b: Bucket, now: int) returns (out: bool)
      requires Valid() && LedgerAgrees(w, seen) && now == w.now
      modifies tracker, tracker.cells.Values
      ensures Valid() && LedgerAgrees(w, Asked(seen, b)) && fresh(tracker.cells.Values - old(tracker.cells.Values))
      ensures out == UsageTracking.Exhausted(UsageAt(w.usage, b), now)
    {
      DrainIsIdempotent(tracker.At(b), w.now);
      LedgerAt(w, seen, b);
      AskedUsage(w, seen, b, b.model);
      hide UsageTracking.Exhausted, Drained, Probed, KeylessUsage, UsageAt, Asked;
      out := tracker.LearnedExhausted(b, now);
      forall m | seen.Some?
        ensures tracker.At(Bucket(m, None)) == KeylessUsage(w, Asked(seen, b).value, m)
      {
        AskedUsage(w, seen, b, m);
      }
    }

    /** A bucket's value and the snapshot's agree on exhaustion. */
    lemma LedgerAt(w: World, seen: Seen, b: Bucket)
      requires LedgerAgrees(w, seen)
      ensures UsageTracking.Exhausted(tracker.At(b), w.now) == UsageTracking.Exhausted(UsageAt(w.usage, b), w.now)
    {
      hide Drained, UsageAt;
      DrainedAlikeCapacity(tracker.At(b), UsageAt(w.usage, b), w.now);
    }

    method RoomFor(ghost w: World, ghost seen: Seen, m: Model, key: Option<nat>, now: int) returns (room: bool)
      requires Agrees(w, seen) && now == w.now
      modifies Frame()
      ensures Agrees(w, if AtCap(UsageAt(w.usage, Bucket(m.id, key)), m.cap) then seen
                        else Asked(seen, Bucket(m.id, key)))
      ensures fresh(Frame() - old(Frame())) && room == HasRoom(w, m, key)
    {
      hide StoresAgree, UsageTracking.Exhausted, Drained;
      var b := Bucket(m.id, key);
      var n := tracker.InFlight(b);
      DrainedAlikeCapacity(tracker.At(b), UsageAt(w.usage, b), now);
      if m.cap.Some? && n >= m.cap.value {
        return false;
      }
      var out := LearnedOut(w, seen, b, now);
      room := !out;
    }

    method KeysBlocked(ghost w: World, ghost seen: Seen, keys: seq<Key>, now: int) returns (b: bool)
      requires Agrees(w, seen) && now == w.now
      modifies Frame()
      ensures Agrees(w, seen) && fresh(Frame() - old(Frame())) && b == KeysCooling(w, keys)
    {
      hide LedgerAgrees, StoresAgree, KeyLive;
      b := false;
      for i := 0 to |keys|
        invariant Agrees(w, seen) && fresh(Frame() - old(Frame()))
        invariant b <==> AnyActive(keys[..i])
        invariant forall k :: k in keys[..i] && k.active ==> KeyLive(w, k.id)
      {
        assert keys[..i + 1] == keys[..i] + [keys[i]];
        if keys[i].active {
          b := true;
          var limited := KeyLimited(w, seen, keys[i].id, now);
          if !limited {
            assert keys[i] in keys;
            return false;
          }
        }
      }
      assert keys[..|keys|] == keys;
    }

    method PickKey(ghost w: World, ghost seen: Seen, m: Model, keys: seq<Key>, now: int) returns (key: Option<nat>)
      requires Agrees(w, seen) && now == w.now
      modifies Frame()
      ensures Agrees(w, seen) && fresh(Frame() - old(Frame())) && key == FirstServing(w, m, keys)
    {
      hide LedgerAgrees, StoresAgree, KeyLive, HasRoom;
      for i := 0 to |keys|
        invariant Agrees(w, seen) && fresh(Frame() - old(Frame()))
        invariant FirstServing(w, m, keys[i..]) == FirstServing(w, m, keys)
      {
        assert keys[i..][0] == keys[i] && keys[i..][1..] == keys[i + 1..];
        if keys[i].active {
          var limited := KeyLimited(w, seen, keys[i].id, now);
          if !limited {
            var room := RoomFor(w, seen, m, Some(keys[i].id), now);
            if room {
              return Some(keys[i].id);
            }
          }
        }
      }
      key := None;
    }

    // ---- pass 1: filter ----

    method Predicted(ghost w: World, ghost seen: Seen, t: Task, history: map<Bucket, real>, m: Model, key: Option<nat>)
      returns (ms: Option<real>)
      requires Agrees(w, seen) && history == w.history
      modifies Frame()
      ensures Agrees(w, seen) && fresh(Frame() - old(Frame())) && ms == Predict(t, w, m, key)
    {
      hide StoresAgree;
      var b := Bucket(m.id, key);
      if SpeedPolicy(t) {
        ms := Lookup(history, b);
      } else {
        DrainedAlikeCapacity(tracker.At(b), UsageAt(w.usage, b), w.now);
        ms := tracker.AvgLatency(b);
      }
      ms := ms.Or(Catalogued(m));
    }

    method BaselineFor(ghost w: World, ghost seen: Seen, t: Task, history: map<Bucket, real>, m: Model)
      returns (ms: Option<real>)
      requires Agrees(w, seen) && history == w.history
      modifies Frame()
      ensures Agrees(w, seen) && fresh(Frame() - old(Frame())) && ms == Baseline(t, w, m)
    {
      hide LedgerAgrees, StoresAgree, Predict;
      var keys := KeysOf(t, m).GetOr([]);
      ms := None;
      for i := 0 to |keys|
        invariant Agrees(w, seen) && fresh(Frame() - old(Frame()))
        invariant Faster(ms, FastestKey(t, w, m, keys[i..])) == FastestKey(t, w, m, keys)
      {
        assert keys[i..][0] == keys[i] && keys[i..][1..] == keys[i + 1..];
        if keys[i].active {
          var one := Predicted(w, seen, t, history, m, Some(keys[i].id));
          FasterAssociates(ms, one, FastestKey(t, w, m, keys[i + 1..]));
          ms := Faster(ms, one);
        }
      }
      if ms.None? {
        ms := Predicted(w, seen, t, history, m, None);
      }
    }

    method FastFor(ghost w: World, ghost seen: Seen, b: Bucket, m: Model, tokens: nat, now: int) returns (room: Room)
      requires Agrees(w, seen) && now == w.now
      modifies Frame()
      ensures Agrees(w, None) && fresh(Frame() - old(Frame()))
      ensures room == FastRoom(FastDrained(UsageAt(w.usage, b), now), m.limits, tokens)
    {
      hide StoresAgree, FastRoom, SlowRoom;
      DrainedAlikeRoom(tracker.At(b), UsageAt(w.usage, b), m.limits, tokens, now);
      DrainIsIdempotent(tracker.At(b), now);
      room := tracker.HeadroomFast(b, tokens, m.limits, now);
    }

    method SlowFor(ghost w: World, ghost seen: Seen, b: Bucket, m: Model, tokens: nat, now: int) returns (room: Room)
      requires Agrees(w, seen) && now == w.now
      modifies Frame()
      ensures Agrees(w, None) && fresh(Frame() - old(Frame()))
      ensures room == SlowRoom(SlowDrained(UsageAt(w.usage, b), now), m.limits, tokens)
    {
      hide StoresAgree, FastRoom, SlowRoom;
      DrainedAlikeRoom(tracker.At(b), UsageAt(w.usage, b), m.limits, tokens, now);
      DrainIsIdempotent(tracker.At(b), now);
      room := tracker.HeadroomSlow(b, tokens, m.limits, now);
    }

    method MakeCandidate(ghost w: World, ghost seen: Seen, t: Task, history: map<Bucket, real>, rule: Rule,
                         key: Option<nat>, now: int) returns (c: Cand)
      requires Agrees(w, seen) && history == w.history && now == w.now && Eligible(t, rule)
      modifies Frame()
      ensures Agrees(w, None) && fresh(Frame() - old(Frame())) && c == MakeCand(t, w, rule, key)
    {
      hide Agrees, FastRoom, SlowRoom, FastDrained, SlowDrained, Predict;
      var m := ModelOf(t, rule);
      var b := Bucket(m.id, key);
      var fast := FastFor(w, seen, b, m, t.req.tokens, now);
      var slow := SlowFor(w, None, b, m, t.req.tokens, now);
      var ms := Predicted(w, None, t, history, m, key);
      c := Cand(m, t.cat.brands[m.brand], rule.priority, if t.pol.usePriority then Some(rule.priority) else None, key,
                fast, slow, ms);
    }

    /** One pass of the filter loop on a rule that is eligible. */
    method Consider(ghost w: World, ghost seen: Seen, t: Task, history: map<Bucket, real>, rule: Rule, now: int)
      returns (v: Verdict)
      requires Agrees(w, seen) && history == w.history && now == w.now && Eligible(t, rule)
      modifies Frame()
      ensures Agrees(w, SeenAfter(t, w, rule, v, seen)) && fresh(Frame() - old(Frame())) && v == VerdictOf(t, w, rule)
    {
      hide Agrees, FirstServing, KeysCooling, HasRoom, MakeCand, Eligible, ActiveIds, Also;
      var m := ModelOf(t, rule);
      var keys := KeysOf(t, m).GetOr([]);
      if m.id in t.req.exclude {
        return CallerExcluded;
      }
      var keyBlocked := KeysBlocked(w, seen, keys, now);
      var brandBlocked := BrandLimited(w, seen, m, now);
      var modelBlocked := ModelLimited(w, seen, m, now);
      modelBlocked := modelBlocked || brandBlocked;
      if keyBlocked || modelBlocked {
        return Cooling(if modelBlocked then [m.id] else [], if keyBlocked then ActiveIds(keys) else [],
                       if brandBlocked then [m.brand] else []);
      }
      hide BrandCooling;
      v := Serve(w, seen, t, history, rule, now);
    }

    /** The account that would serve an eligible rule that is neither excluded nor cooling down. */
    method Serve(ghost w: World, ghost seen: Seen, t: Task, history: map<Bucket, real>, rule: Rule, now: int)
      returns (v: Verdict)
      requires Agrees(w, seen) && history == w.history && now == w.now && Eligible(t, rule)
      requires ModelOf(t, rule).id !in t.req.exclude && !CoolingDown(t, w, ModelOf(t, rule))
      modifies Frame()
      ensures Agrees(w, SeenAfter(t, w, rule, v, seen)) && fresh(Frame() - old(Frame())) && v == VerdictOf(t, w, rule)
    {
      hide Agrees, FirstServing, CoolingDown, HasRoom, MakeCand, Eligible, ActiveIds, Also, AtCap, UsageAt;
      var m := ModelOf(t, rule);
      var keys := KeysOf(t, m).GetOr([]);
      var key := PickKey(w, seen, m, keys, now);
      if AnyActive(keys) && key.None? {
        return Full(Bucket(m.id, key));
      }
      NoKeyToServe(w, m, keys);
      var room := RoomFor(w, seen, m, key, now);
      if !room {
        return Full(Bucket(m.id, key));
      }
      RoomIsUnderCap(w, m, key);
      var c := MakeCandidate(w, Asked(seen, Bucket(m.id, key)), t, history, rule, key, now);
      v := Offered(c);
    }

    /** The filter loop: candidates, what blocked the others, and the speed baseline. */
    method Filter(ghost w: World, t: Task, history: map<Bucket, real>, rules: seq<Rule>, now: int)
      returns (cands: seq<Cand>, blocks: Blocks, tried: nat, fastest: Option<real>)
      requires Agrees(w, Some({})) && history == w.history && now == w.now
      modifies Frame()
      ensures Agrees(w, if cands == [] then Some(ProbedIn(t, w, rules)) else None) && fresh(Frame() - old(Frame()))
      ensures cands == Offers(Verdicts(t, w, rules)) && blocks == BlocksOf(Verdicts(t, w, rules))
      ensures tried == Tried(Verdicts(t, w, rules)) && fastest == FastestBaseline(t, w, rules)
    {
      cands, blocks, tried, fastest := [], Blocks([], [], [], []), 0, None;
      ghost var seen: Seen := Some({});
      RemainsAtFirst(t, w, rules);
      for i := 0 to |rules|
        invariant Agrees(w, seen) && fresh(Frame() - old(Frame()))
        invariant Remains(t, w, rules, i, cands, blocks, tried, fastest) && SeenRemains(t, w, rules, i, cands, seen)
      {
        hide *;
        var v, baseline := Visit(w, seen, t, history, rules[i], now);
        RemainsStep(t, w, rules, i, cands, blocks, tried, fastest);
        SeenStep(t, w, rules, i, cands, seen);
        seen := SeenAfter(t, w, rules[i], v, seen);
        fastest := Faster(fastest, baseline);
        blocks := Both(blocks, BlockOf(v));
        tried := if Skipped(v) then tried + 1 else tried;
        cands := cands + OfferOf(v);
      }
      RemainsAtLast(t, w, rules, cands, blocks, tried, fastest, seen);
      AgreesIsValid(w, seen);
    }

    /** One pass of the filter loop, with the model's speed baseline when the rule is eligible. */
    method Visit(ghost w: World, ghost seen: Seen, t: Task, history: map<Bucket, real>, rule: Rule, now: int)
      returns (v: Verdict, baseline: Option<real>)
      requires Agrees(w, seen) && history == w.history && now == w.now
      modifies Frame()
      ensures Agrees(w, SeenAfter(t, w, rule, v, seen)) && fresh(Frame() - old(Frame()))
      ensures v == VerdictOf(t, w, rule) && baseline == EligibleBaseline(t, w, rule)
    {
      hide Agrees, Baseline;
      v, baseline := Ineligible, None;
      if Eligible(t, rule) {
        baseline := BaselineFor(w, seen, t, history, ModelOf(t, rule));
        v := Consider(w, seen, t, history, rule, now);
      }
    }

    /** What the tracker says about buckets blocked on capacity, in the terms of the snapshot. */
    method CapacityHint(ghost w: World, ghost seen: set<nat>, buckets: seq<Bucket>, now: int) returns (ms: Option<nat>)
      requires Agrees(w, Some(seen)) && now == w.now && forall b :: b in buckets ==> b.key.None?
      ensures Cooldowns.IsLeast(ms, if WindowHints(w, seen, buckets) == {} && OnlyInFlight(w, seen, buckets)
                                    then {FLAT_HINT} else WindowHints(w, seen, buckets))
    {
      ms := tracker.EarliestDrainMs(buckets, now);
      ghost var us := seq(|buckets|, i requires 0 <= i < |buckets| => KeylessUsage(w, seen, buckets[i].model));
      forall i | 0 <= i < |buckets|
        ensures tracker.At(buckets[i]) == us[i]
      {
        assert buckets[i] in buckets && buckets[i] == Bucket(buckets[i].model, None);
      }
      hide Agrees, DrainHints, NoHistory, WindowHints, OnlyInFlight;
      EarliestByIndex(ms, us, now);
      CapacityAnswer(w, seen, buckets, us, ms);
    }

    /** What the four cooldown stores say. */
    method CooldownHint(ghost w: World, ghost seen: Seen, b: Blocks, now: int)
      returns (ms: Option<nat>, ghost values: set<nat>)
      requires Agrees(w, seen) && now == w.now
      ensures Cooldowns.IsLeast(ms, values) && LiveHints(w, b) <= values <= CooldownHints(w, b)
    {
      var modelMs := modelState.MinRemainingMs(b.models, now);
      var keyMs := keyState.MinRemainingMs(b.keys, now);
      var brandMs := brandState.MinRemainingMs(b.brands, now);
      var quotaMs := quotaState.MinRemainingMs(b.keys, now);
      ghost var rm := Cooldowns.Remaining(modelState.limited, b.models, now);
      ghost var rk := Cooldowns.Remaining(keyState.limited, b.keys, now);
      ghost var rq := Cooldowns.Remaining(quotaState.limited, b.keys, now);
      ghost var rb := Cooldowns.Remaining(brandState.limited, b.brands, now);
      Cooldowns.PurgedRemaining(w.marks, modelState.limited, b.models, now);
      Cooldowns.PurgedRemaining(w.keyMarks, keyState.limited, b.keys, now);
      Cooldowns.PurgedRemaining(w.brandMarks, brandState.limited, b.brands, now);
      Cooldowns.PurgedRemaining(w.quotaMarks, quotaState.limited, b.keys, now);
      hide Agrees, Cooldowns.IsLeast, Cooldowns.Remaining, Cooldowns.LiveRemaining, Cooldowns.Purged, LiveHints,
           CooldownHints, Sooner;
      StoresTogether(w, b, rm, rk, rq, rb);
      SoonerIsLeast(modelMs, rm, keyMs, rk);
      SoonerIsLeast(Sooner(modelMs, keyMs), rm + rk, quotaMs, rq);
      SoonerIsLeast(Sooner(Sooner(modelMs, keyMs), quotaMs), rm + rk + rq, brandMs, rb);
      ms, values := Sooner(Sooner(Sooner(modelMs, keyMs), quotaMs), brandMs), rm + rk + rq + rb;
    }

    /** The retry hint of the exhausted branch: the least answer of the five stores, or zero. */
    method RetryHint(ghost w: World, ghost seen: set<nat>, b: Blocks, now: int) returns (ms: nat)
      requires Agrees(w, Some(seen)) && now == w.now && forall x :: x in b.buckets ==> x.key.None?
      ensures HintFor(w, seen, b, ms)
    {
      var cooldown, values := CooldownHint(w, Some(seen), b, now);
      var capacity := CapacityHint(w, seen, b.buckets, now);
      hide Agrees, Cooldowns.IsLeast, IsHint, WindowHints, OnlyInFlight, LiveHints, CooldownHints, Sooner;
      ghost var windows, flat := WindowHints(w, seen, b.buckets), OnlyInFlight(w, seen, b.buckets);
      SoonerIsLeast(cooldown, values, capacity, if windows == {} && flat then {FLAT_HINT} else windows);
      LeastIsHint(Sooner(cooldown, capacity), values, windows, flat);
      ms := Sooner(cooldown, capacity).GetOr(0);
    }

    // ---- pass 2: score, order, reserve ----

    method ScorePool(t: Task, pool: seq<Cand>, now: int) returns (scores: seq<real>)
      ensures scores == Scores(t, pool, traffic, sticky, now)
    {
      hide BrandsOf, EntrantOf, Recent, WeightsOf, BalanceScore, BrandIndex, Score, StickyAt, FreshSticky;
      var cutoff := now - TRAFFIC_WINDOW;
      var brands := BrandsOf(pool);
      var shares := SharesOf(brands, traffic, cutoff);
      var entrants := Entrants(t, pool);
      var weights := WeightsOf(t);
      scores := [];
      for i := 0 to |pool|
        invariant |scores| == i
        invariant forall j :: 0 <= j < i ==> scores[j] == BaseScore(t, pool, traffic, cutoff, j)
      {
        var balance := BalanceScore(shares, BrandIndex(brands, pool[i].brand.id));
        scores := scores + [Score(entrants[i], entrants, weights, balance)];
      }
      assert scores == BaseScores(t, pool, traffic, cutoff);
      var last := FreshSticky(t, sticky, now);
      if last.Some? {
        var at := StickyAt(pool, last.value);
        if at.Some? {
          scores := scores[at.value := scores[at.value] + STICKY_BONUS];
        }
      }
    }

    /** The first candidate of the order with room wins; every earlier one was at its cap when tried. */
    method ReserveFirst(ghost w: World, t: Task, order: seq<Ranked>, now: int) returns (k: Option<nat>)
      requires Agrees(w, None) && now == w.now
      modifies Frame()
      ensures fresh(Frame() - old(Frame()))
      ensures k.None? ==>
              Agrees(w, None) &&
              forall j :: 0 <= j < |order| ==> AtCap(UsageAt(w.usage, BucketOf(order[j].c)), order[j].c.model.cap)
      ensures k.Some? ==>
                k.value < |order| && Agrees(Taken(w, t, order[k.value].c), None) &&
                !AtCap(UsageAt(w.usage, BucketOf(order[k.value].c)), order[k.value].c.model.cap) &&
                forall j :: 0 <= j < k.value ==> AtCap(UsageAt(w.usage, BucketOf(order[j].c)), order[j].c.model.cap)
    {
      hide Agrees, AtCap, Reserved, UsageAt;
      for i := 0 to |order|
        invariant Agrees(w, None) && fresh(Frame() - old(Frame()))
        invariant forall j :: 0 <= j < i ==> AtCap(UsageAt(w.usage, BucketOf(order[j].c)), order[j].c.model.cap)
      {
        var c := order[i].c;
        var ok := TakeOne(w, t, c, now);
        if ok {
          return Some(i);
        }
      }
      k := None;
    }

    method TakeOne(ghost w: World, t: Task, c: Cand, now: int) returns (ok: bool)
      requires Agrees(w, None) && now == w.now
      modifies Frame()
      ensures fresh(Frame() - old(Frame())) && ok == !AtCap(UsageAt(w.usage, BucketOf(c)), c.model.cap)
      ensures Agrees(if ok then Taken(w, t, c) else w, None)
    {
      hide Cooldowns.Purged, Drained;
      DrainedAlikeCapacity(tracker.At(BucketOf(c)), UsageAt(w.usage, BucketOf(c)), now);
      ReserveAfterDrain(tracker.At(BucketOf(c)), UsageAt(w.usage, BucketOf(c)), t.req.tokens, now);
      ok := tracker.TryReserve(BucketOf(c), t.req.tokens, c.model.cap);
    }

    method RecordTraffic(brand: nat, now: int)
      modifies this`traffic
      ensures traffic == old(traffic)[brand := DropStale(TimesOf(old(traffic), brand), now - TRAFFIC_WINDOW) + [now]]
    {
      var q := TimesOf(traffic, brand);
      while |q| > 0 && q[0] <= now - TRAFFIC_WINDOW
        invariant DropStale(q, now - TRAFFIC_WINDOW) == DropStale(TimesOf(traffic, brand), now - TRAFFIC_WINDOW)
        decreases |q|
      {
        q := q[1..];
      }
      traffic := traffic[brand := q + [now]];
    }

    /** The candidates within the latency ceiling, or all of them when nobody is. */
    method ApplyCeiling(t: Task, cands: seq<Cand>, fastest: Option<real>) returns (pool: seq<Cand>, fallback: bool)
      ensures pool == Pool(t, cands, Ceiling(t, fastest)) && fallback == Fallback(t, cands, Ceiling(t, fastest))
    {
      var ceiling := Ceiling(t, fastest);
      pool, fallback := cands, false;
      if SpeedPolicy(t) {
        var kept := [];
        for i := 0 to |cands|
          invariant kept + Passing(cands[i..], ceiling) == Passing(cands, ceiling)
        {
          if Passes(cands[i], ceiling) {
            kept := kept + [cands[i]];
          }
        }
        if kept != [] {
          pool := kept;
        } else {
          fallback := true;
        }
      }
    }

    /** The candidates in the order in which they are tried. */
    method RankAll(t: Task, cands: seq<Cand>, fastest: Option<real>, now: int) returns (order: seq<Ranked>)
      ensures order == OrderOf(t, cands, fastest, traffic, sticky, now)
    {
      hide Pool, Fallback, Ceiling, Scores, Order;
      var pool, fallback := ApplyCeiling(t, cands, fastest);
      var scores := ScorePool(t, pool, now);
      order := Order(RankedPool(pool, scores), fallback);
    }

    /**
     Orders the candidates and reserves: the second exhausted answer, for a race lost meanwhile, is never given here.
     */
    method Choose(ghost w: World, t: Task, ghost rules: seq<Rule>, cands: seq<Cand>, fastest: Option<real>, now: int)
      returns (r: Choice)
      requires Agrees(w, None) && now == w.now && cands != []
      requires cands == Offers(Verdicts(t, w, rules)) && fastest == FastestBaseline(t, w, rules)
      modifies Frame()
      ensures fresh(Frame() - old(Frame()))
      ensures r.Selected? && IsWinner(t, w, rules, old(traffic), old(sticky), r.c) && Agrees(Taken(w, t, r.c), None)
    {
      hide LedgerAgrees, StoresAgree, OrderOf, IsWinner, Taken, AtCap, UsageAt, Verdicts, Offers, FastestBaseline,
           Valid;
      ghost var trafficThen, stickyThen := traffic, sticky;
      var order := RankAll(t, cands, fastest, now);
      var k := ReserveFirst(w, t, order, now);
      r := if k.Some? then Selected(order[k.value].c) else AllExhausted(|order|, 2_000);
      HeadReserves(t, w, rules, trafficThen, stickyThen);
    }

    method Attempt(ghost w: World, t: Task, rules: seq<Rule>, history: map<Bucket, real>, now: int) returns (r: Choice)
      requires Agrees(w, Some({})) && history == w.history && now == w.now
      modifies Frame()
      ensures fresh(Frame() - old(Frame()))
      ensures r.AllExhausted? <==> Offers(Verdicts(t, w, rules)) == []
      ensures r.AllExhausted? ==>
              Refused(t, w, rules, r.tried, r.retryAfterMs) && Agrees(w, Some(ProbedIn(t, w, rules)))
      ensures r.Selected? ==> IsWinner(t, w, rules, old(traffic), old(sticky), r.c) && Agrees(Taken(w, t, r.c), None)
    {
      hide Verdicts, Offers, BlocksOf, Tried, FastestBaseline, HintFor, IsWinner, LiveHints, CooldownHints, Taken,
           Cooldowns.Purged, Drained, UsageAt, Valid, ProbedIn, KeylessUsage;
      var cands, blocks, tried, fastest := Filter(w, t, history, rules, now);
      if cands == [] {
        BlockedBucketsAreKeyless(t, w, rules);
        var ms := RetryHint(w, ProbedIn(t, w, rules), blocks, now);
        r := AllExhausted(tried, ms);
      } else {
        r := Choose(w, t, rules, cands, fastest, now);
      }
    }

    /**
     What a selection measured against the state `w`, `trafficThen` and `stickyThen` leaves behind. It is
     exhausted exactly when there is no declared candidate; otherwise it is the declared winner that has one
     more reservation, that joins the traffic and that is the group's sticky model.
     */
    ghost predicate Answered(
      w: World, t: Task, rules: seq<Rule>, trafficThen: map<nat, seq<int>>, stickyThen: map<nat, (nat, int)>, r: Choice)
      reads this, Frame()
    {
      (r.AllExhausted? <==> Offers(Verdicts(t, w, rules)) == []) &&
      match r
      case AllExhausted(tried, ms) =>
        Refused(t, w, rules, tried, ms) && Agrees(w, Some(ProbedIn(t, w, rules))) && traffic == trafficThen &&
        sticky == stickyThen
      case Selected(c) =>
        IsWinner(t, w, rules, trafficThen, stickyThen, c) && Agrees(Taken(w, t, c), None) &&
        traffic == TrafficWith(trafficThen, c, w.now) && sticky == StickyWith(stickyThen, t, c, w.now)
    }

    /** One selection, undisturbed: the first of the ordered candidates, or why there is none. */
    method Select(t: Task, rules: seq<Rule>, history: map<Bucket, real>, now: int) returns (r: Choice)
      requires Valid()
      modifies this`traffic, this`sticky, Frame()
      ensures Valid() && fresh(Frame() - old(Frame()))
      ensures Answered(old(Snapshot(now, history)), t, rules, old(traffic), old(sticky), r)
    {
      ghost var w := Snapshot(now, history);
      AgreesAtOnce(now, history);
      hide Agrees, Answered, Snapshot, Valid;
      r := Resolve(w, t, rules, history, now);
    }

    method Resolve(ghost w: World, t: Task, rules: seq<Rule>, history: map<Bucket, real>, now: int) returns (r: Choice)
      requires Agrees(w, Some({})) && history == w.history && now == w.now
      modifies this`traffic, this`sticky, Frame()
      ensures Valid() && fresh(Frame() - old(Frame())) && Answered(w, t, rules, old(traffic), old(sticky), r)
    {
      hide Agrees, Refused, IsWinner, Verdicts, Offers, Taken, UsageAt, Valid, TrafficWith, StickyWith, ProbedIn;
      r := Attempt(w, t, rules, history, now);
      if r.Selected? {
        Remember(t, r.c, now);
        AgreesIsValid(Taken(w, t, r.c), None);
      } else {
        AgreesIsValid(w, Some(ProbedIn(t, w, rules)));
      }
    }

    /** The winner joins its brand's traffic and becomes its group's sticky model. */
    method Remember(t: Task, c: Cand, now: int)
      modifies this`traffic, this`sticky
      ensures traffic == TrafficWith(old(traffic), c, now) && sticky == StickyWith(old(sticky), t, c, now)
    {
      RecordTraffic(c.brand.id, now);
      if t.pol.sticky.Some? {
        sticky := sticky[t.pol.sticky.value := (c.model.id, now)];
      }
    }

    // ---- reports ----

    /** An account-scoped failure blocks the key that served the call; any other blocks the model. */
    method MarkFailure(b: Bucket, error: Cooldowns.ErrorType, now: int)
      requires Valid()
      modifies keyState, modelState
      ensures keyState.limited == KeyMarksAfter(old(keyState.limited), b, error, now)
      ensures modelState.limited == ModelMarksAfter(old(modelState.limited), b, error, now)
    {
      if b.key.Some? && error.AccountScoped() {
        keyState.Mark(b.key.value, error, now);
      } else {
        modelState.Mark(b.model, error, now);
      }
    }

    method ReportRateLimit(cat: Catalog, b: Bucket, error: Cooldowns.ErrorType, tokens: nat, actual: Option<nat>,
                           remReq: Option<nat>, remTok: Option<nat>, now: int)
      requires Valid()
      modifies keyState, modelState, tracker, tracker.cells.Values
      ensures Valid() && fresh(tracker.cells.Values - old(tracker.cells.Values))
      ensures keyState.limited == KeyMarksAfter(old(keyState.limited), b, error, now)
      ensures modelState.limited == ModelMarksAfter(old(modelState.limited), b, error, now)
      ensures tracker.OnlyAt(b)
      ensures tracker.At(b) ==
              Anchored(Reported(old(tracker.At(b)),
                                Report(RateLimit(LimitsUnknown(cat, b.model)), tokens, actual, now)), remReq, remTok)
    {
      hide Reported, Anchored;
      MarkFailure(b, error, now);
      SettleRejection(b, LimitsUnknown(cat, b.model), tokens, actual, remReq, remTok, now);
    }

    /** A rejected call of unknown limits consumed no quota, unless its tokens are known. */
    method SettleRejection(
      b: Bucket, unknown: bool, tokens: nat, actual: Option<nat>, remReq: Option<nat>, remTok: Option<nat>, now: int)
      requires Valid()
      modifies tracker, tracker.cells.Values
      ensures Valid() && fresh(tracker.cells.Values - old(tracker.cells.Values)) && tracker.OnlyAt(b)
      ensures tracker.At(b) ==
              Anchored(Reported(old(tracker.At(b)), Report(RateLimit(unknown), tokens, actual, now)), remReq, remTok)
    {
      hide Released, OutcomeRecorded, Cancelled, Anchored;
      tracker.RecordOutcome(b, true, unknown, now);
      if unknown && actual.None? {
        tracker.CancelReservation(b, tokens);
      } else {
        tracker.Release(b, tokens, actual, now);
      }
      tracker.AnchorRemaining(b, remReq, remTok);
    }

    /** The accounting shared by the reports of a call that reached the provider. */
    method Settle(b: Bucket, tokens: nat, actual: Option<nat>, remReq: Option<nat>, remTok: Option<nat>,
                  ms: Option<nat>, now: int)
      requires Valid()
      modifies tracker, tracker.cells.Values
      ensures Valid() && fresh(tracker.cells.Values - old(tracker.cells.Values)) && tracker.OnlyAt(b)
      ensures tracker.At(b) == Timed(Anchored(Released(old(tracker.At(b)), tokens, actual, now), remReq, remTok), ms)
    {
      hide Released, Anchored, LatencyRecorded;
      tracker.Release(b, tokens, actual, now);
      tracker.AnchorRemaining(b, remReq, remTok);
      if ms.Some? {
        tracker.RecordLatency(b, ms.value);
      }
    }

    method SettleSuccess(b: Bucket, tokens: nat, actual: Option<nat>, remReq: Option<nat>, remTok: Option<nat>,
                         ms: Option<nat>, now: int)
      requires Valid()
      modifies tracker, tracker.cells.Values
      ensures Valid() && fresh(tracker.cells.Values - old(tracker.cells.Values)) && tracker.OnlyAt(b)
      ensures tracker.At(b) ==
              Timed(Anchored(Reported(old(tracker.At(b)), Report(Success, tokens, actual, now)), remReq, remTok), ms)
    {
      OutcomeCommutes(tracker.At(b), tokens, actual, remReq, remTok, ms, now);
      hide Released, OutcomeRecorded, Anchored, Reported, Timed;
      Settle(b, tokens, actual, remReq, remTok, ms, now);
      tracker.RecordOutcome(b, false, false, now);
    }

    method ReportSuccess(b: Bucket, tokens: nat, actual: Option<nat>, prompt: Option<nat>, completion: Option<nat>,
                         remReq: Option<nat>, remTok: Option<nat>, ms: Option<nat>, now: int)
      requires Valid()
      modifies keyState, modelState, tracker, tracker.cells.Values
      ensures Valid() && fresh(tracker.cells.Values - old(tracker.cells.Values))
      ensures modelState.limited == old(modelState.limited) - {b.model}
      ensures keyState.limited == if b.key.Some? then old(keyState.limited) - {b.key.value} else old(keyState.limited)
      ensures tracker.OnlyAt(b)
      ensures tracker.At(b) ==
              Timed(Anchored(Reported(old(tracker.At(b)),
                                      Report(Success, tokens, Spent(actual, prompt, completion), now)),
                             remReq, remTok), ms)
    {
      hide Anchored, Reported, Spent, Timed;
      modelState.Clear(b.model);
      if b.key.Some? {
        keyState.Clear(b.key.value);
      }
      SettleSuccess(b, tokens, Spent(actual, prompt, completion), remReq, remTok, ms, now);
    }

    method ReportError(b: Bucket, error: Cooldowns.ErrorType, tokens: nat, actual: Option<nat>,
                       remReq: Option<nat>, remTok: Option<nat>, ms: Option<nat>, now: int)
      requires Valid()
      modifies keyState, modelState, tracker, tracker.cells.Values
      ensures Valid() && fresh(tracker.cells.Values - old(tracker.cells.Values))
      ensures keyState.limited == KeyMarksAfter(old(keyState.limited), b, error, now)
      ensures modelState.limited == ModelMarksAfter(old(modelState.limited), b, error, now)
      ensures tracker.OnlyAt(b)
      ensures tracker.At(b) ==
              Timed(Anchored(Reported(old(tracker.At(b)), Report(Error, tokens, actual, now)), remReq, remTok), ms)
    {
      MarkFailure(b, error, now);
      Settle(b, tokens, actual, remReq, remTok, ms, now);
    }

    /** A provider's retry delay replaces the default cooldown of the account or the model it concerns. */
    method ReportQuotaDetails(cat: Catalog, b: Bucket, retryMs: Option<nat>, brandQuota: bool, now: int)
      requires Valid()
      modifies modelState, keyState, quotaState, brandState
      ensures var scope := QuotaScope(cat, b, retryMs, brandQuota);
              var ms := Max(retryMs.GetOr(60_000), 1);
              modelState.limited ==
              (if scope == ModelScope then Cooldowns.MarkedFor(old(modelState.limited), b.model, ms, now)
               else old(modelState.limited)) &&
              keyState.limited ==
              (if scope.KeyScope? then Cooldowns.MarkedFor(old(keyState.limited), scope.key, ms, now)
               else old(keyState.limited)) &&
              quotaState.limited ==
              (if scope.KeyScope? then Cooldowns.MarkedFor(old(quotaState.limited), scope.key, ms, now)
               else old(quotaState.limited)) &&
              brandState.limited ==
              (if scope.BrandScope? then Cooldowns.MarkedFor(old(brandState.limited), scope.brand, ms, now)
               else old(brandState.limited))
    {
      if b.model !in cat.models {
        return;
      }
      var ms := Max(retryMs.GetOr(60_000), 1);
      if brandQuota {
        if b.key.Some? {
          keyState.MarkForMs(b.key.value, ms, now);
          quotaState.MarkForMs(b.key.value, ms, now);
        } else {
          brandState.MarkForMs(cat.models[b.model].brand, ms, now);
        }
      } else if retryMs.Some? {
        if b.key.Some? {
          keyState.MarkForMs(b.key.value, ms, now);
          quotaState.MarkForMs(b.key.value, ms, now);
        } else {
          modelState.MarkForMs(b.model, ms, now);
        }
      }
    }
  }
}
