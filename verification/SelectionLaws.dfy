/** What a selection guarantees: availability, exhaustion and its hint, the latency ceiling, the order. */
module SelectionLaws {
  import opened Basics
  import opened UsageTracking
  import opened Ranking
  import opened Scoring
  import opened Selection
  import Cooldowns

  // ---- the candidate list ----

  lemma FirstServingIsFirst(w: World, m: Model, keys: seq<Key>)
    ensures FirstServing(w, m, keys).None? <==> forall k :: k in keys ==> !CanServe(w, m, k)
    ensures FirstServing(w, m, keys).Some? ==>
              exists i :: 0 <= i < |keys| && keys[i].id == FirstServing(w, m, keys).value && CanServe(w, m, keys[i]) &&
                          forall j :: 0 <= j < i ==> !CanServe(w, m, keys[j])
  {
    if keys != [] && !CanServe(w, m, keys[0]) {
      FirstServingIsFirst(w, m, keys[1..]);
      assert forall k :: k in keys ==> k == keys[0] || k in keys[1..];
      if FirstServing(w, m, keys[1..]).Some? {
        var i :| 0 <= i < |keys[1..]| && keys[1..][i].id == FirstServing(w, m, keys[1..]).value &&
            CanServe(w, m, keys[1..][i]) &&
                 forall j :: 0 <= j < i ==> !CanServe(w, m, keys[1..][j]);
        assert keys[i + 1] == keys[1..][i];
        assert forall j :: 0 < j < i + 1 ==> keys[j] == keys[1..][j - 1];
      }
    } else if keys != [] {
      assert keys[0] in keys;
    }
  }

  /** A rule yields a candidate exactly when it is available, and the candidate has room. */
  lemma OfferedIffAvailable(t: Task, w: World, rule: Rule)
    ensures VerdictOf(t, w, rule).Offered? <==> Available(t, w, rule)
    ensures var v := VerdictOf(t, w, rule);
            v.Offered? ==>
              v.c.model == ModelOf(t, rule) && HasRoom(w, v.c.model, v.c.key) &&
              (v.c.key.None? <==> !AnyActive(KeysOf(t, v.c.model).GetOr([]))) &&
              v.c == MakeCand(t, w, rule, FirstServing(w, v.c.model, KeysOf(t, v.c.model).GetOr([])))
  {
    if Eligible(t, rule) {
      var m := ModelOf(t, rule);
      FirstServingIsFirst(w, m, KeysOf(t, m).GetOr([]));
    }
  }

  function OnlyAvailable(t: Task, w: World, rules: seq<Rule>): seq<Rule> {
    if rules == [] then []
    else if Available(t, w, rules[0]) then [rules[0]] + OnlyAvailable(t, w, rules[1..])
    else OnlyAvailable(t, w, rules[1..])
  }

  /** The candidate an available rule stands for: its model served by the first account able to. */
  function CandOf(t: Task, w: World, rule: Rule): Cand
    requires Eligible(t, rule)
  {
    MakeCand(t, w, rule, FirstServing(w, ModelOf(t, rule), KeysOf(t, ModelOf(t, rule)).GetOr([])))
  }

  lemma AvailableIsOffered(t: Task, w: World, rule: Rule)
    ensures VerdictOf(t, w, rule).Offered? <==> Available(t, w, rule)
    ensures Available(t, w, rule) ==> Eligible(t, rule) && VerdictOf(t, w, rule) == Offered(CandOf(t, w, rule)) &&
                                      HasRoom(w, CandOf(t, w, rule).model, CandOf(t, w, rule).key)
  {
    OfferedIffAvailable(t, w, rule);
    hide VerdictOf, HasRoom;
  }

  /** The candidates stand for exactly these rules, one each and in their order, and every one has room. */
  ghost predicate StandFor(t: Task, w: World, cands: seq<Cand>, rules: seq<Rule>) {
    |cands| == |rules| &&
    forall i :: 0 <= i < |rules| ==>
      Available(t, w, rules[i]) && cands[i] == CandOf(t, w, rules[i]) && HasRoom(w, cands[i].model, cands[i].key)
  }

  lemma StandForMore(t: Task, w: World, rule: Rule, cands: seq<Cand>, rules: seq<Rule>)
    requires StandFor(t, w, cands, rules) && Available(t, w, rule)
    requires HasRoom(w, CandOf(t, w, rule).model, CandOf(t, w, rule).key)
    ensures StandFor(t, w, [CandOf(t, w, rule)] + cands, [rule] + rules)
  {
    hide Available, CandOf, HasRoom;
  }

  /** The candidate list is exactly the available rules, in rule order, each served by its first able account. */
  lemma {:induction false} CandidatesAreTheAvailableRules(t: Task, w: World, rules: seq<Rule>)
    ensures StandFor(t, w, Offers(Verdicts(t, w, rules)), OnlyAvailable(t, w, rules))
  {
    if rules == [] {
    } else {
      hide *;
      CandidatesAreTheAvailableRules(t, w, rules[1..]);
      AvailableIsOffered(t, w, rules[0]);
      FirstRule(t, w, rules);
      if Available(t, w, rules[0]) {
        StandForMore(t, w, rules[0], Offers(Verdicts(t, w, rules[1..])), OnlyAvailable(t, w, rules[1..]));
      }
    }
  }

  lemma FirstRule(t: Task, w: World, rules: seq<Rule>)
    requires rules != []
    ensures Offers(Verdicts(t, w, rules)) == OfferOf(VerdictOf(t, w, rules[0])) + Offers(Verdicts(t, w, rules[1..]))
    ensures VerdictOf(t, w, rules[0]).Offered? ==>
              Offers(Verdicts(t, w, rules)) == [VerdictOf(t, w, rules[0]).c] + Offers(Verdicts(t, w, rules[1..]))
    ensures !VerdictOf(t, w, rules[0]).Offered? ==> Offers(Verdicts(t, w, rules)) == Offers(Verdicts(t, w, rules[1..]))
    ensures OnlyAvailable(t, w, rules) ==
            (if Available(t, w, rules[0]) then [rules[0]] + OnlyAvailable(t, w, rules[1..])
             else OnlyAvailable(t, w, rules[1..]))
  {
    hide VerdictOf, Available;
    var v, rest := VerdictOf(t, w, rules[0]), Verdicts(t, w, rules[1..]);
    assert Verdicts(t, w, rules) == [v] + rest && ([v] + rest)[1..] == rest;
  }

  /** Selection fails early if and only if no rule is available. */
  lemma {:induction false} ExhaustedIffNoneAvailable(t: Task, w: World, rules: seq<Rule>)
    ensures Offers(Verdicts(t, w, rules)) == [] <==> forall r :: r in rules ==> !Available(t, w, r)
  {
    if rules != [] {
      ExhaustedIffNoneAvailable(t, w, rules[1..]);
      OfferedIffAvailable(t, w, rules[0]);
      assert forall r :: r in rules <==> r == rules[0] || r in rules[1..];
    }
  }

  /**
   Usage that differs only in what headroom alone is computed from. Where no limit has been learned that
   takes in the one-minute request window and the limits the provider reports.
   */
  predicate SameButForHeadroom(u: Usage, v: Usage) {
    var rest := u.(inTok := v.inTok, rps := v.rps, tpm := v.tpm, rpd := v.rpd, tpd := v.tpd, remReq := v.remReq,
                   remTok := v.remTok);
    v == if u.learned.None? then rest.(rpm := v.rpm, limReq := v.limReq, limTok := v.limTok) else rest
  }

  /** Over-quota windows never make a rule unavailable: headroom only scores. */
  lemma HeadroomNeverExcludes(t: Task, w: World, usage: map<Bucket, Usage>, rule: Rule)
    requires forall b :: SameButForHeadroom(UsageAt(w.usage, b), UsageAt(usage, b))
    ensures Available(t, w, rule) <==> Available(t, w.(usage := usage), rule)
  {
    var w' := w.(usage := usage);
    forall m, key
      ensures HasRoom(w, m, key) == HasRoom(w', m, key)
    {
      assert SameButForHeadroom(UsageAt(w.usage, Bucket(m.id, key)), UsageAt(usage, Bucket(m.id, key)));
    }
    hide HasRoom, Eligible, SameButForHeadroom;
    assert forall m, k :: CanServe(w, m, k) == CanServe(w', m, k);
    assert forall keys :: KeysCooling(w, keys) == KeysCooling(w', keys);
  }

  // ---- the retry hint when only cooldowns stand in the way ----

  /** Nobody marks or clears anything until `now`. */
  function Later(w: World, now: int): World { w.(now := now) }

  lemma {:induction false} ActiveIdsComplete(keys: seq<Key>)
    ensures forall k :: k in keys && k.active ==> k.id in ActiveIds(keys)
  {
    if keys != [] {
      ActiveIdsComplete(keys[1..]);
      assert forall k :: k in keys ==> k == keys[0] || k in keys[1..];
    }
  }

  lemma {:induction false} BlocksCover(vs: seq<Verdict>, v: Verdict)
    requires v in vs
    ensures var b, x := BlocksOf(vs), BlockOf(v);
            (forall i :: i in x.models ==> i in b.models) && (forall i :: i in x.keys ==> i in b.keys) &&
            (forall i :: i in x.brands ==> i in b.brands) && (x.buckets != [] ==> b.buckets != [])
  {
    if v != vs[0] {
      assert v in vs[1..];
      BlocksCover(vs[1..], v);
    }
  }

  lemma {:induction false} VerdictListed(t: Task, w: World, rules: seq<Rule>, rule: Rule)
    requires rule in rules
    ensures VerdictOf(t, w, rule) in Verdicts(t, w, rules)
  {
    if rule != rules[0] {
      assert rule in rules[1..];
      VerdictListed(t, w, rules[1..], rule);
    }
  }

  lemma HintsOfEachStore(w: World, b: Blocks, h: nat)
    requires h in Cooldowns.LiveRemaining(w.marks, b.models, w.now) ||
             h in Cooldowns.LiveRemaining(w.keyMarks, b.keys, w.now) ||
             h in Cooldowns.LiveRemaining(w.quotaMarks, b.keys, w.now) ||
             h in Cooldowns.LiveRemaining(w.brandMarks, b.brands, w.now)
    ensures h in LiveHints(w, b)
  {
  }

  /** A model blocked by a recorded cooldown stays blocked until a millisecond before the hint. */
  lemma CoolingLasts(t: Task, w: World, m: Model, b: Blocks, hint: nat, at: int)
    requires CoolingDown(t, w, m)
    requires ModelCooling(w, m) ==> m.id in b.models
    requires BrandCooling(w, m) ==> m.brand in b.brands
    requires KeysCooling(w, KeysOf(t, m).GetOr([])) ==>
             forall k :: k in KeysOf(t, m).GetOr([]) && k.active ==> k.id in b.keys
    requires forall h :: h in LiveHints(w, b) ==> hint <= h
    requires w.now <= at < w.now + (hint - 1) * MILLI
    ensures CoolingDown(t, Later(w, at), m)
  {
    var keys := KeysOf(t, m).GetOr([]);
    if KeysCooling(w, keys) {
      forall k | k in keys && k.active
        ensures KeyLive(Later(w, at), k.id)
      {
        assert KeyLive(w, k.id);
        if Cooldowns.Live(w.keyMarks, k.id, w.now) {
          HintsOfEachStore(w, b, (w.keyMarks[k.id] - w.now) / MILLI + 1);
          Cooldowns.HintIsSound(w.keyMarks, w.now, k.id, hint, at);
        } else {
          HintsOfEachStore(w, b, (w.quotaMarks[k.id] - w.now) / MILLI + 1);
          Cooldowns.HintIsSound(w.quotaMarks, w.now, k.id, hint, at);
        }
      }
    } else if BrandCooling(w, m) {
      HintsOfEachStore(w, b, (w.brandMarks[m.brand] - w.now) / MILLI + 1);
      Cooldowns.HintIsSound(w.brandMarks, w.now, m.brand, hint, at);
    } else {
      HintsOfEachStore(w, b, (w.marks[m.id] - w.now) / MILLI + 1);
      Cooldowns.HintIsSound(w.marks, w.now, m.id, hint, at);
    }
  }

  /**
   Soundness of the retry hint: when nothing is available and only cooldowns stand in the way, no new
   reports mean that nothing becomes available before a millisecond ahead of the hint.
   */
  lemma HintSound(t: Task, w: World, rules: seq<Rule>, hint: nat, at: int)
    requires Offers(Verdicts(t, w, rules)) == [] && BlocksOf(Verdicts(t, w, rules)).buckets == []
    requires forall h :: h in LiveHints(w, BlocksOf(Verdicts(t, w, rules))) ==> hint <= h
    requires w.now <= at < w.now + (hint - 1) * MILLI
    ensures forall r :: r in rules ==> !Available(t, Later(w, at), r)
  {
    var b := BlocksOf(Verdicts(t, w, rules));
    ExhaustedIffNoneAvailable(t, w, rules);
    forall r | r in rules
      ensures !Available(t, Later(w, at), r)
    {
      OfferedIffAvailable(t, w, r);
      VerdictListed(t, w, rules, r);
      BlocksCover(Verdicts(t, w, rules), VerdictOf(t, w, r));
      if VerdictOf(t, w, r).Cooling? {
        var m := ModelOf(t, r);
        ActiveIdsComplete(KeysOf(t, m).GetOr([]));
        CoolingLasts(t, w, m, b, hint, at);
      }
    }
  }

  /** A mark of one of the four stores, recorded for the hint, that expires before `end`. */
  ghost predicate SomeMarkExpires(w: World, b: Blocks, end: int) {
    (exists id :: id in b.models && id in w.marks && w.now <= w.marks[id] < end) ||
    (exists id :: id in b.keys && id in w.keyMarks && w.now <= w.keyMarks[id] < end) ||
    (exists id :: id in b.keys && id in w.quotaMarks && w.now <= w.quotaMarks[id] < end) ||
    (exists id :: id in b.brands && id in w.brandMarks && w.now <= w.brandMarks[id] < end)
  }

  /** Tightness of the retry hint: once it has run out, a mark of one of the four stores has expired. */
  lemma HintTight(w: World, b: Blocks, hint: nat)
    requires hint in CooldownHints(w, b)
    ensures SomeMarkExpires(w, b, w.now + hint * MILLI)
  {
    if hint in Cooldowns.Remaining(w.marks, b.models, w.now) {
      var id := Cooldowns.HintIsTight(w.marks, b.models, w.now, hint);
    } else if hint in Cooldowns.Remaining(w.keyMarks, b.keys, w.now) {
      var id := Cooldowns.HintIsTight(w.keyMarks, b.keys, w.now, hint);
    } else if hint in Cooldowns.Remaining(w.quotaMarks, b.keys, w.now) {
      var id := Cooldowns.HintIsTight(w.quotaMarks, b.keys, w.now, hint);
    } else {
      var id := Cooldowns.HintIsTight(w.brandMarks, b.brands, w.now, hint);
    }
  }

  /** A cooldown that blocks a rule always produces a hint, so a cooldown-only failure never reports zero. */
  lemma CoolingGivesHint(t: Task, w: World, rules: seq<Rule>, r: Rule)
    requires r in rules && VerdictOf(t, w, r).Cooling?
    ensures exists h :: h in LiveHints(w, BlocksOf(Verdicts(t, w, rules)))
  {
    var b, m := BlocksOf(Verdicts(t, w, rules)), ModelOf(t, r);
    VerdictListed(t, w, rules, r);
    BlocksCover(Verdicts(t, w, rules), VerdictOf(t, w, r));
    ActiveIdsComplete(KeysOf(t, m).GetOr([]));
    hide Eligible, Verdicts, BlocksOf, ActiveIds;
    CoolingHasHint(t, w, m, b);
  }

  lemma CoolingHasHint(t: Task, w: World, m: Model, b: Blocks)
    requires CoolingDown(t, w, m)
    requires ModelCooling(w, m) ==> m.id in b.models
    requires BrandCooling(w, m) ==> m.brand in b.brands
    requires KeysCooling(w, KeysOf(t, m).GetOr([])) ==>
             forall k :: k in KeysOf(t, m).GetOr([]) && k.active ==> k.id in b.keys
    ensures exists h :: h in LiveHints(w, b)
  {
    var keys := KeysOf(t, m).GetOr([]);
    if KeysCooling(w, keys) {
      var k :| k in keys && k.active;
      assert KeyLive(w, k.id);
      if Cooldowns.Live(w.keyMarks, k.id, w.now) {
        HintsOfEachStore(w, b, (w.keyMarks[k.id] - w.now) / MILLI + 1);
      } else {
        HintsOfEachStore(w, b, (w.quotaMarks[k.id] - w.now) / MILLI + 1);
      }
    } else if BrandCooling(w, m) {
      HintsOfEachStore(w, b, (w.brandMarks[m.brand] - w.now) / MILLI + 1);
    } else {
      HintsOfEachStore(w, b, (w.marks[m.id] - w.now) / MILLI + 1);
    }
  }

  // ---- the retry hint when capacity stands in the way ----

  /** A keyed brand with no able key, or a keyless one without room: either way the keyless bucket is recorded. */
  lemma FullIsKeyless(t: Task, w: World, rule: Rule)
    ensures VerdictOf(t, w, rule).Full? ==> VerdictOf(t, w, rule).bucket.key.None?
  {
    if Eligible(t, rule) {
      var m := ModelOf(t, rule);
      FirstServingIsFirst(w, m, KeysOf(t, m).GetOr([]));
      hide Eligible;
    }
  }

  lemma {:induction false} BlockedBucketsAreKeyless(t: Task, w: World, rules: seq<Rule>)
    ensures forall b :: b in BlocksOf(Verdicts(t, w, rules)).buckets ==> b.key.None?
  {
    if rules != [] {
      hide VerdictOf;
      BlockedBucketsAreKeyless(t, w, rules[1..]);
      FullIsKeyless(t, w, rules[0]);
    }
  }

  /** What the stores are asked about comes from the verdicts on the rules, and the other way round. */
  lemma {:induction false} BlocksComeFromRules(t: Task, w: World, rules: seq<Rule>)
    ensures var b := BlocksOf(Verdicts(t, w, rules));
            (b.models == [] && b.keys == [] && b.brands == []) || exists r :: r in rules && VerdictOf(t, w, r).Cooling?
    ensures forall x :: x in BlocksOf(Verdicts(t, w, rules)).buckets <==>
              exists r :: r in rules && VerdictOf(t, w, r) == Full(x)
  {
    if rules != [] {
      hide VerdictOf;
      BlocksComeFromRules(t, w, rules[1..]);
      var v := VerdictOf(t, w, rules[0]);
      assert rules[0] in rules && forall r :: r in rules <==> r == rules[0] || r in rules[1..];
      var all, rest := BlocksOf(Verdicts(t, w, rules)), BlocksOf(Verdicts(t, w, rules[1..]));
      assert all == Both(BlockOf(v), rest) by { assert Verdicts(t, w, rules)[1..] == Verdicts(t, w, rules[1..]); }
      forall x
        ensures x in all.buckets <==> exists r :: r in rules && VerdictOf(t, w, r) == Full(x)
      {
        assert x in all.buckets <==> v == Full(x) || x in rest.buckets;
      }
    }
  }

  /** Nothing to wait for: no live mark of the listed ids, stale windows only, and some history in every bucket. */
  ghost predicate Quiet(u: Usage, now: int) { DrainHints(u, now) == {} && !NoHistory(u) }

  /**
   When a hint is zero: no rule is cooling down, and every bucket that a rule is blocked on has entries in its
   windows, all of them past their window already.
   */
  lemma ZeroHintIff(t: Task, w: World, rules: seq<Rule>, ms: nat, cooldowns: set<nat>)
    requires var b := BlocksOf(Verdicts(t, w, rules));
             LiveHints(w, b) <= cooldowns <= CooldownHints(w, b) &&
             IsHint(ms, cooldowns, WindowHints(w, ProbedIn(t, w, rules), b.buckets),
                    OnlyInFlight(w, ProbedIn(t, w, rules), b.buckets))
    ensures ms == 0 <==>
            forall r :: r in rules ==>
              !VerdictOf(t, w, r).Cooling? &&
              (VerdictOf(t, w, r).Full? ==>
               Quiet(KeylessUsage(w, ProbedIn(t, w, rules), VerdictOf(t, w, r).bucket.model), w.now))
  {
    var b, seen := BlocksOf(Verdicts(t, w, rules)), ProbedIn(t, w, rules);
    BlocksComeFromRules(t, w, rules);
    ValuesArePositive(w, b, seen);
    hide VerdictOf, Verdicts, BlocksOf, ProbedIn, DrainHints, NoHistory, LiveHints, KeylessUsage;
    if ms == 0 {
      forall r | r in rules
        ensures !VerdictOf(t, w, r).Cooling?
        ensures VerdictOf(t, w, r).Full? ==> Quiet(KeylessUsage(w, seen, VerdictOf(t, w, r).bucket.model), w.now)
      {
        NothingIsHinted(t, w, rules, r, seen);
      }
    } else if forall r :: r in rules ==> !VerdictOf(t, w, r).Cooling? {
      NoCoolingNoHints(w, b);
    }
  }

  lemma ValuesArePositive(w: World, b: Blocks, seen: set<nat>)
    ensures 0 !in CooldownHints(w, b) && 0 !in WindowHints(w, seen, b.buckets)
  {
    forall x | x in b.buckets
      ensures 0 !in DrainHints(KeylessUsage(w, seen, x.model), w.now)
    {
      UsageTracking.HintsArePositive(KeylessUsage(w, seen, x.model), w.now);
    }
    hide DrainHints, KeylessUsage;
  }

  lemma NoCoolingNoHints(w: World, b: Blocks)
    requires b.models == [] && b.keys == [] && b.brands == []
    ensures CooldownHints(w, b) == {} && LiveHints(w, b) == {}
  {
  }

  /** A rule that cools down gives a live hint; a bucket that is not quiet gives a window's or the flat one. */
  lemma NothingIsHinted(t: Task, w: World, rules: seq<Rule>, r: Rule, seen: set<nat>)
    requires r in rules
    ensures VerdictOf(t, w, r).Cooling? ==> LiveHints(w, BlocksOf(Verdicts(t, w, rules))) != {}
    ensures VerdictOf(t, w, r).Full? && !Quiet(KeylessUsage(w, seen, VerdictOf(t, w, r).bucket.model), w.now) ==>
              WindowHints(w, seen, BlocksOf(Verdicts(t, w, rules)).buckets) != {} ||
              OnlyInFlight(w, seen, BlocksOf(Verdicts(t, w, rules)).buckets)
  {
    BlocksComeFromRules(t, w, rules);
    if VerdictOf(t, w, r).Cooling? {
      CoolingGivesHint(t, w, rules, r);
    } else if VerdictOf(t, w, r).Full? {
      var x := VerdictOf(t, w, r).bucket;
      hide VerdictOf, Verdicts, BlocksOf, DrainHints, NoHistory, KeylessUsage;
      assert x in BlocksOf(Verdicts(t, w, rules)).buckets;
      var u := KeylessUsage(w, seen, x.model);
      if DrainHints(u, w.now) != {} {
        var h :| h in DrainHints(u, w.now);
        assert h in WindowHints(w, seen, BlocksOf(Verdicts(t, w, rules)).buckets);
      }
    }
  }

  // ---- the latency ceiling ----

  /** The same catalogue, request and history; exclusions, cooldowns and load may differ. */
  predicate SameButForTransients(t: Task, w: World, t': Task, w': World) {
    t' == t.(req := t.req.(exclude := t'.req.exclude)) && w'.history == w.history
  }

  lemma {:induction false} FastestKeyIgnoresTransients(t: Task, w: World, t': Task, w': World, m: Model, keys: seq<Key>)
    requires SameButForTransients(t, w, t', w') && SpeedPolicy(t)
    ensures FastestKey(t, w, m, keys) == FastestKey(t', w', m, keys)
  {
    if keys != [] {
      FastestKeyIgnoresTransients(t, w, t', w', m, keys[1..]);
    }
  }

  /** Two requests that differ only in exclusions, cooldowns or load share one ceiling. */
  lemma CeilingIgnoresTransients(t: Task, w: World, t': Task, w': World, rules: seq<Rule>)
    requires SameButForTransients(t, w, t', w') && SpeedPolicy(t)
    ensures Ceiling(t, FastestBaseline(t, w, rules)) == Ceiling(t', FastestBaseline(t', w', rules))
  {
    BaselineIgnoresTransients(t, w, t', w', rules);
    hide FastestBaseline, LowerCeiling;
    assert MaxMs(t) == MaxMs(t') && MaxRatio(t) == MaxRatio(t');
  }

  lemma {:induction false} BaselineIgnoresTransients(t: Task, w: World, t': Task, w': World, rules: seq<Rule>)
    requires SameButForTransients(t, w, t', w') && SpeedPolicy(t)
    ensures FastestBaseline(t, w, rules) == FastestBaseline(t', w', rules)
  {
    if rules != [] {
      BaselineIgnoresTransients(t, w, t', w', rules[1..]);
      assert Eligible(t, rules[0]) == Eligible(t', rules[0]);
      if Eligible(t, rules[0]) {
        var m := ModelOf(t, rules[0]);
        FastestKeyIgnoresTransients(t, w, t', w', m, KeysOf(t, m).GetOr([]));
      }
    }
  }

  /** The baseline is a lower bound on what every eligible model offers through its fastest key. */
  lemma {:induction false} BaselineIsLeast(t: Task, w: World, rules: seq<Rule>, rule: Rule)
    requires rule in rules && Eligible(t, rule) && Baseline(t, w, ModelOf(t, rule)).Some?
    ensures FastestBaseline(t, w, rules).Some? &&
            FastestBaseline(t, w, rules).value <= Baseline(t, w, ModelOf(t, rule)).value
  {
    if rule != rules[0] {
      assert rule in rules[1..];
      BaselineIsLeast(t, w, rules[1..], rule);
    }
  }

  lemma {:induction false} PassingIsFilter(cands: seq<Cand>, ceiling: Option<real>)
    ensures forall c :: c in Passing(cands, ceiling) <==> c in cands && Passes(c, ceiling)
  {
    if cands != [] {
      PassingIsFilter(cands[1..], ceiling);
      assert forall c :: c in cands <==> c == cands[0] || c in cands[1..];
    }
  }

  // ---- the scores a selection computes ----

  /** With quality in [0, 1] for the step, every base score a selection computes lies in [0, 1]. */
  lemma BaseScoreIsUnit(t: Task, pool: seq<Cand>, traffic: map<nat, seq<int>>, cutoff: int, i: nat)
    requires i < |pool| && Unit(EffectiveQuality(t.cat, pool[i].model, t.req.step).GetOr(0.5))
    ensures Unit(BaseScore(t, pool, traffic, cutoff, i))
  {
    var brands := BrandsOf(pool);
    var shares := SharesOf(brands, traffic, cutoff);
    var base := if t.pol.usePriority then WITH_PRIORITY else WITHOUT_PRIORITY;
    assert pool[i] in pool;
    BalanceIsUnit(shares, BrandIndex(brands, pool[i].brand.id));
    ResolvedWeightsAreNormalised(base, t.req.weights, t.pol.weights);
    assert Entrants(t, pool)[i] == EntrantOf(t, pool[i]);
    ScoreIsUnit(Entrants(t, pool), i, WeightsOf(t), BalanceScore(shares, BrandIndex(brands, pool[i].brand.id)));
  }

  // ---- the order and the winner ----

  function ScoreOrder(): (Ranked, Ranked) -> bool { (a, b) => ByScore(a, b) }

  lemma ComparatorsAreOrders(fallback: bool)
    ensures Preorder(ScoreOrder()) && Preorder(SecondKey(fallback))
  {
  }

  /** The two stacked stable sorts amount to one lexicographic sort. */
  lemma OrderIsLexicographic(ranked: seq<Ranked>, fallback: bool)
    ensures Order(ranked, fallback) == StableSort(ranked, Lex(SecondKey(fallback), ScoreOrder()))
  {
    ComparatorsAreOrders(fallback);
    StackedSorts(ranked, ScoreOrder(), SecondKey(fallback));
    assert StableSort(ranked, ScoreOrder()) == StableSort(ranked, (a, b) => ByScore(a, b)) by {
      SortExtensional(ranked, ScoreOrder(), (a, b) => ByScore(a, b));
    }
  }

  lemma {:induction false} InsertExtensional<T(!new)>(x: T, s: seq<T>, f: (T, T) -> bool, g: (T, T) -> bool)
    requires forall a, b :: f(a, b) == g(a, b)
    ensures Insert(x, s, f) == Insert(x, s, g)
  {
    if s != [] {
      InsertExtensional(x, s[1..], f, g);
    }
  }

  lemma {:induction false} SortExtensional<T(!new)>(s: seq<T>, f: (T, T) -> bool, g: (T, T) -> bool)
    requires forall a, b :: f(a, b) == g(a, b)
    ensures StableSort(s, f) == StableSort(s, g)
  {
    if s != [] {
      SortExtensional(s[1..], f, g);
      InsertExtensional(s[0], StableSort(s[1..], f), f, g);
    }
  }

  /**
   The head of the order is the first candidate that beats or ties every other: without fallback by
   prepaid capacity, score and priority; in fallback by predicted latency, score and priority.
   */
  lemma HeadOfOrder(ranked: seq<Ranked>, fallback: bool) returns (k: nat)
    requires ranked != []
    ensures k < |ranked| && |Order(ranked, fallback)| == |ranked| && Order(ranked, fallback)[0] == ranked[k]
    ensures forall j :: 0 <= j < |ranked| ==>
              SecondKey(fallback)(ranked[k], ranked[j]) &&
              (SecondKey(fallback)(ranked[j], ranked[k]) ==> ByScore(ranked[k], ranked[j]))
    ensures forall j :: 0 <= j < k ==>
              !(SecondKey(fallback)(ranked[j], ranked[k]) && ByScore(ranked[j], ranked[k]))
  {
    ComparatorsAreOrders(fallback);
    OrderIsLexicographic(ranked, fallback);
    LexIsPreorder(SecondKey(fallback), ScoreOrder());
    SortSorts(ranked, Lex(SecondKey(fallback), ScoreOrder()));
    k := HeadIsFirstLeast(ranked, Lex(SecondKey(fallback), ScoreOrder()));
    forall j | 0 <= j < |ranked|
      ensures SecondKey(fallback)(ranked[k], ranked[j])
      ensures SecondKey(fallback)(ranked[j], ranked[k]) ==> ByScore(ranked[k], ranked[j])
    {
      assert Lex(SecondKey(fallback), ScoreOrder())(ranked[k], ranked[j]);
    }
    forall j | 0 <= j < k
      ensures !(SecondKey(fallback)(ranked[j], ranked[k]) && ByScore(ranked[j], ranked[k]))
    {
      assert !Lex(SecondKey(fallback), ScoreOrder())(ranked[j], ranked[k]);
    }
  }

  /** The winner of a sequential selection: the head of the ordered pool. */
  function Winner(t: Task, cands: seq<Cand>, ceiling: Option<real>, scores: seq<real>): Cand
    requires |scores| == |Pool(t, cands, ceiling)| &&
             Order(RankedPool(Pool(t, cands, ceiling), scores), Fallback(t, cands, ceiling)) != []
  {
    Order(RankedPool(Pool(t, cands, ceiling), scores), Fallback(t, cands, ceiling))[0].c
  }

  /** The winner meets the ceiling whenever any available candidate does; otherwise it is a fastest candidate. */
  lemma WinnerAndCeiling(t: Task, cands: seq<Cand>, ceiling: Option<real>, scores: seq<real>)
    requires cands != [] && SpeedPolicy(t) && |scores| == |Pool(t, cands, ceiling)|
    ensures Order(RankedPool(Pool(t, cands, ceiling), scores), Fallback(t, cands, ceiling)) != []
    ensures var c := Winner(t, cands, ceiling, scores);
            c in cands &&
            ((exists d :: d in cands && Passes(d, ceiling)) ==> Passes(c, ceiling)) &&
            ((forall d :: d in cands ==> !Passes(d, ceiling)) ==>
               forall d :: d in cands && d.predicted.Some? ==>
               c.predicted.Some? && c.predicted.value <= d.predicted.value)
  {
    PassingIsFilter(cands, ceiling);
    var pool, fallback := Pool(t, cands, ceiling), Fallback(t, cands, ceiling);
    assert fallback <==> forall d :: d in cands ==> !Passes(d, ceiling) by {
      if Passing(cands, ceiling) != [] {
        assert Passing(cands, ceiling)[0] in Passing(cands, ceiling);
      }
    }
    hide Passing, Passes, Order;
    var ranked := RankedPool(pool, scores);
    var k := HeadOfOrder(ranked, fallback);
    assert ranked[k].c == pool[k] && pool[k] in pool;
    if fallback {
      forall d | d in cands && d.predicted.Some?
        ensures pool[k].predicted.Some? && pool[k].predicted.value <= d.predicted.value
      {
        var j :| 0 <= j < |cands| && cands[j] == d;
        assert SecondKey(true)(ranked[k], ranked[j]);
      }
    }
  }

  // ---- traffic ----

  /** Popping the stale front before a push loses no recent selection, when times are recorded in order. */
  lemma {:induction false} RecordedSelectionCounts(q: seq<int>, cutoff: int, now: int)
    requires cutoff < now
    ensures Recent(DropStale(q, cutoff) + [now], cutoff) == Recent(q, cutoff) + 1
  {
    if q == [] {
    } else if q[0] > cutoff {
      RecentAppend(q, cutoff, now);
    } else {
      RecordedSelectionCounts(q[1..], cutoff, now);
    }
  }

  lemma {:induction false} RecentAppend(q: seq<int>, cutoff: int, now: int)
    requires cutoff < now
    ensures Recent(q + [now], cutoff) == Recent(q, cutoff) + 1
  {
    if q != [] {
      assert (q + [now])[1..] == q[1..] + [now];
      RecentAppend(q[1..], cutoff, now);
    }
  }
}
