/** Refusals of one model at concrete states, each built from an empty bucket by the ledger's own operations. */
module Refusals {
  import opened Basics
  import opened Windows
  import opened UsageTracking
  import opened QuotaLaws
  import opened Scoring
  import opened Selection
  import opened SelectionLaws
  import opened Selector
  import Cooldowns

  const NO_OVERRIDES := Overrides(None, None, None)

  /** A hundred requests a minute, or a hundred a day and no other limit. */
  const PER_MINUTE := Limits(None, Some(100), None, None, None)
  const PER_DAY := Limits(None, None, None, Some(100), None)

  function ModelWith(cap: Option<nat>, limits: Limits): Model {
    Model(0, 0, {}, true, 8_000, None, None, true, true, None, None, None, cap, None, None, None, None, limits)
  }

  /** A request of a thousand tokens for the only model of the only brand, whose keys are `keys`. */
  function TaskWith(m: Model, keys: map<nat, seq<Key>>): Task {
    Task(Catalog(map[0 := m], map[0 := Brand(0, "brand", true, 1.0, 1.0)], keys, map[]),
         Request("step", 1_000, false, false, None, 0.0, {}, {}, {}, false, None, None, None, NO_OVERRIDES),
         Policy(false, None, NO_OVERRIDES, None, None, false))
  }

  const RULE := Rule(0, 0, None, true)

  function WorldWith(b: Bucket, u: Usage, now: int): World {
    World(now, map[b := u], map[], map[], map[], map[], map[])
  }

  // ---- histories ----

  const ADMITTED := Admit(1_000, 0)
  const ANSWERED := Return(Report(Success, 1_000, None, 0))
  const TURNED_AWAY := Return(Report(RateLimit(true), 1_000, None, 0))

  /** A call answered at once, and a second one in flight. */
  const ONE_ANSWERED := [ADMITTED, ANSWERED, ADMITTED]

  /** Of three calls one is answered and one is turned away, which teaches a limit of one a minute; one is in flight. */
  const ONE_TURNED_AWAY := [ADMITTED, ADMITTED, ADMITTED, ANSWERED, TURNED_AWAY]

  /** The same with nothing left in flight. */
  const BOTH_RETURNED := [ADMITTED, ADMITTED, ANSWERED, TURNED_AWAY]

  /** What these histories leave: the answered call in every window. */
  function Left(inReq: nat, outcomes: seq<Outcome>, learned: Option<real>, lastIncrease: Option<int>): Usage {
    var one, spent := [Entry(0, 1)], [Entry(0, 1_000)];
    Usage(inReq, 1_000 * inReq, one, one, spent, one, spent,
          None, None, None, None, learned, lastIncrease, outcomes, None)
  }

  const AFTER_ANSWER := Left(1, [Outcome(0, false)], None, None)

  function AfterRejection(inReq: nat): Usage {
    Left(inReq, [Outcome(0, false), Outcome(0, true)], Some(1.0), Some(0))
  }

  lemma FirstStep(u: Usage, a: Step, rest: seq<Step>)
    requires 0 <= TimeOf(a) && Enabled(u, a)
    ensures Ran(u, [a] + rest) == Ran(Next(u, a), rest)
    ensures TimeOf(a) == 0 && Matched(Next(u, a), rest, 0) ==> Matched(u, [a] + rest, 0)
  {
    assert ([a] + rest)[1..] == rest;
    hide Next, Enabled;
  }

  function InFlight(n: nat): Usage { EMPTY.(inReq := n, inTok := 1_000 * n) }

  lemma AdmittedStep(n: nat, rest: seq<Step>)
    requires n < 10
    ensures Ran(InFlight(n), [ADMITTED] + rest) == Ran(InFlight(n + 1), rest)
    ensures Matched(InFlight(n + 1), rest, 0) ==> Matched(InFlight(n), [ADMITTED] + rest, 0)
  {
    FirstStep(InFlight(n), ADMITTED, rest);
    assert Next(InFlight(n), ADMITTED) == InFlight(n + 1);
  }

  lemma AnsweredStep(n: nat, rest: seq<Step>)
    requires 0 < n < 10
    ensures var v := Left(n - 1, [Outcome(0, false)], None, None);
            Ran(InFlight(n), [ANSWERED] + rest) == Ran(v, rest) &&
            (Matched(v, rest, 0) ==> Matched(InFlight(n), [ANSWERED] + rest, 0))
  {
    FirstStep(InFlight(n), ANSWERED, rest);
    assert Next(InFlight(n), ANSWERED) == Left(n - 1, [Outcome(0, false)], None, None);
  }

  lemma OneAnswered()
    ensures Matched(EMPTY, ONE_ANSWERED, 0) && Ran(EMPTY, ONE_ANSWERED) == AFTER_ANSWER
  {
    var idle := Left(0, [Outcome(0, false)], None, None);
    assert ONE_ANSWERED == [ADMITTED] + ([ANSWERED] + ([ADMITTED] + []));
    assert Next(idle, ADMITTED) == AFTER_ANSWER && InFlight(0) == EMPTY;
    AdmittedStep(0, [ANSWERED] + ([ADMITTED] + []));
    AnsweredStep(1, [ADMITTED] + []);
    FirstStep(idle, ADMITTED, []);
  }

  lemma TurnedAway(n: nat)
    requires 0 < n < 10
    ensures var u := Left(n, [Outcome(0, false)], None, None);
            Matched(u, [TURNED_AWAY] + [], 0) && Ran(u, [TURNED_AWAY] + []) == AfterRejection(n - 1)
  {
    var u := Left(n, [Outcome(0, false)], None, None);
    assert DropBefore([Entry(0, 1)], -60 * SECOND) == [Entry(0, 1)] && Sum([Entry(0, 1)]) == 1 by {
      assert [Entry(0, 1)][1..] == [];
    }
    assert Retained([Outcome(0, false)], 0) == [Outcome(0, false)] by {
      assert [Outcome(0, false)][1..] == [];
    }
    assert Next(u, TURNED_AWAY) == AfterRejection(n - 1);
    FirstStep(u, TURNED_AWAY, []);
  }

  /** With `n` calls in flight, one is answered and one turned away. */
  lemma AnswerAndRejection(n: nat)
    requires 2 <= n < 10
    ensures Matched(InFlight(n), [ANSWERED, TURNED_AWAY], 0)
    ensures Ran(InFlight(n), [ANSWERED, TURNED_AWAY]) == AfterRejection(n - 2)
  {
    assert [ANSWERED, TURNED_AWAY] == [ANSWERED] + ([TURNED_AWAY] + []);
    hide Ran, Matched, InFlight, Left;
    AnsweredStep(n, [TURNED_AWAY] + []);
    TurnedAway(n - 1);
  }

  lemma BothReturned()
    ensures Matched(EMPTY, BOTH_RETURNED, 0) && Ran(EMPTY, BOTH_RETURNED) == AfterRejection(0)
  {
    var last := [ANSWERED, TURNED_AWAY];
    assert BOTH_RETURNED == [ADMITTED] + ([ADMITTED] + last) && InFlight(0) == EMPTY;
    hide Ran, Matched, InFlight, Left;
    AdmittedStep(0, [ADMITTED] + last);
    AdmittedStep(1, last);
    AnswerAndRejection(2);
  }

  lemma OneTurnedAway()
    ensures Matched(EMPTY, ONE_TURNED_AWAY, 0) && Ran(EMPTY, ONE_TURNED_AWAY) == AfterRejection(1)
  {
    var last := [ANSWERED, TURNED_AWAY];
    assert ONE_TURNED_AWAY == [ADMITTED] + ([ADMITTED] + ([ADMITTED] + last)) && InFlight(0) == EMPTY;
    hide Ran, Matched, InFlight, Left;
    AdmittedStep(0, [ADMITTED] + ([ADMITTED] + last));
    AdmittedStep(1, [ADMITTED] + last);
    AdmittedStep(2, last);
    AnswerAndRejection(3);
  }

  // ---- the windows a minute later ----

  lemma MinuteLater(u: Usage)
    requires u.rps == u.rpm == u.rpd == [Entry(0, 1)] && u.tpm == u.tpd == [Entry(0, 1_000)]
    ensures Drained(u, 61 * SECOND) == u.(rps := [], rpm := [], tpm := []) && Probed(u, 61 * SECOND) == u.(rpm := [])
    ensures DrainHints(u, 61 * SECOND) == DrainHints(u.(rpm := []), 61 * SECOND) == {} && !NoHistory(u.(rpm := []))
    ensures !NoHistory(u)
  {
    Stale(1, SECOND);
    Stale(1, 60 * SECOND);
    Stale(1_000, SECOND);
    assert 61 * SECOND - SECOND == 60 * SECOND && 61 * SECOND - 60 * SECOND == SECOND;
    hide DropBefore;
  }

  /** An entry of time zero is stale past any positive cutoff, and not before. */
  lemma Stale(v: nat, cutoff: int)
    ensures DropBefore([Entry(0, v)], cutoff) == if cutoff > 0 then [] else [Entry(0, v)]
  {
    assert [Entry(0, v)][1..] == [];
  }

  /** With two of a hundred requests counted in the minute window a third finds room. */
  predicate RoomInMinute(u: Usage, now: int) {
    FastRoom(FastDrained(u, now), PER_MINUTE, 1_000) == Fin(1.0 - 2.0 / 100.0) &&
    SlowRoom(SlowDrained(u, now), PER_MINUTE, 1_000) == Fin(1.0)
  }

  /** The daily window, the only one with a declared limit, counts three of a hundred requests. */
  predicate RoomInDay(u: Usage, now: int) { SlowRoom(SlowDrained(u, now), PER_DAY, 1_000) == Fin(1.0 - 3.0 / 100.0) }

  lemma AnswerLeavesRoom()
    ensures RoomInMinute(AFTER_ANSWER, 61 * SECOND)
  {
    MinuteLater(AFTER_ANSWER);
  }

  lemma RejectionLeavesRoom(u: Usage)
    requires u == AfterRejection(1) || u == AfterRejection(1).(rps := [], rpm := [], tpm := [])
    ensures RoomInDay(u, 61 * SECOND)
  {
    assert [Entry(0, 1)][1..] == [];
  }

  // ---- one rule ----

  lemma EligibleHere(m: Model, keys: map<nat, seq<Key>>)
    requires exists cap, limits :: m == ModelWith(cap, limits)
    ensures Eligible(TaskWith(m, keys), RULE) && ModelOf(TaskWith(m, keys), RULE) == m
  {
  }

  lemma OneRule(t: Task, w: World)
    ensures Verdicts(t, w, [RULE]) == [VerdictOf(t, w, RULE)] && ProbedIn(t, w, [RULE]) == ProbedBy(t, w, RULE)
    ensures Offers([VerdictOf(t, w, RULE)]) == OfferOf(VerdictOf(t, w, RULE))
    ensures BlocksOf([VerdictOf(t, w, RULE)]).buckets == BlockOf(VerdictOf(t, w, RULE)).buckets
  {
    hide VerdictOf, ProbedBy;
    assert [RULE][1..] == [];
    assert ProbedBy(t, w, RULE) + {} == ProbedBy(t, w, RULE);
  }

  /** Every hint that the refusal of the only rule may carry is `ms`. */
  ghost predicate RefusedWith(t: Task, w: World, ms: nat) {
    Offers(Verdicts(t, w, [RULE])) == [] && VerdictOf(t, w, RULE) == Full(Bucket(0, None)) &&
    forall tried, m :: Refused(t, w, [RULE], tried, m) <==> tried == 1 && m == ms
  }

  /** A refusal for capacity alone has exactly one answer. */
  lemma CapacityAnswerIs(t: Task, w: World, u: Usage, ms: nat)
    requires VerdictOf(t, w, RULE) == Full(Bucket(0, None)) && KeylessUsage(w, ProbedBy(t, w, RULE), 0) == u
    requires DrainHints(u, w.now) == {} && ms == if NoHistory(u) then FLAT_HINT else 0
    ensures RefusedWith(t, w, ms)
  {
    OneRule(t, w);
    hide DrainHints, NoHistory, KeylessUsage, VerdictOf, ProbedBy;
    var b, seen := BlocksOf(Verdicts(t, w, [RULE])), ProbedIn(t, w, [RULE]);
    assert b == Blocks([], [], [], [Bucket(0, None)]);
    NoCoolingNoHints(w, b);
    assert WindowHints(w, seen, b.buckets) == {};
    assert OnlyInFlight(w, seen, b.buckets) <==> NoHistory(u) by { assert Bucket(0, None) in b.buckets; }
    assert Tried(Verdicts(t, w, [RULE])) == 1;
    hide WindowHints, OnlyInFlight, LiveHints, CooldownHints, Verdicts, BlocksOf, Tried;
    assert {} + {FLAT_HINT} == {FLAT_HINT};
    assert IsHint(ms, {}, WindowHints(w, seen, b.buckets), OnlyInFlight(w, seen, b.buckets));
    forall tried, m | Refused(t, w, [RULE], tried, m)
      ensures tried == 1 && m == ms
    {
      HintIsUnique(w, seen, b, m, ms);
    }
  }

  lemma HintIsUnique(w: World, seen: set<nat>, b: Blocks, m: nat, n: nat)
    requires HintFor(w, seen, b, m) && HintFor(w, seen, b, n) && CooldownHints(w, b) == {}
    ensures m == n
  {
    hide LiveHints, CooldownHints, WindowHints, OnlyInFlight;
  }

  // ---- the refusals ----

  function Capped(): Task { TaskWith(ModelWith(Some(1), PER_MINUTE), map[]) }

  /**
   At its cap the model is refused although its window has room, and the hint is zero: the capped bucket is not
   looked at again, and all it has to show is a call that left every minute-scale window a second ago or earlier.
   */
  lemma CapRefusesWithZeroHint()
    ensures var u := Ran(EMPTY, ONE_ANSWERED);
            var w := WorldWith(Bucket(0, None), u, 61 * SECOND);
            Matched(EMPTY, ONE_ANSWERED, 0) && RoomInMinute(u, w.now) &&
            RefusedWith(Capped(), w, 0)
  {
    OneAnswered();
    AnswerLeavesRoom();
    CapScene();
    MinuteLater(AFTER_ANSWER);
    hide *;
    CapacityAnswerIs(Capped(), WorldWith(Bucket(0, None), AFTER_ANSWER, 61 * SECOND), AFTER_ANSWER, 0);
  }

  lemma CapScene()
    ensures var t, w := Capped(), WorldWith(Bucket(0, None), AFTER_ANSWER, 61 * SECOND);
            VerdictOf(t, w, RULE) == Full(Bucket(0, None)) && ProbedBy(t, w, RULE) == {} && w.now == 61 * SECOND &&
            KeylessUsage(w, {}, 0) == AFTER_ANSWER
  {
    var m := ModelWith(Some(1), PER_MINUTE);
    var t, w := Capped(), WorldWith(Bucket(0, None), AFTER_ANSWER, 61 * SECOND);
    EligibleHere(m, map[]);
    hide Eligible, UsageTracking.Exhausted;
    assert KeysOf(t, m) == None && UsageAt(w.usage, Bucket(0, None)) == AFTER_ANSWER && AtCap(AFTER_ANSWER, m.cap);
  }

  // A learned limit, on a model whose only declared limit is a daily one, so that a rejection teaches.

  function Taught(): Task { TaskWith(ModelWith(None, PER_DAY), map[]) }

  function TaughtWorld(u: Usage, marks: Cooldowns.Marks): World {
    WorldWith(Bucket(0, None), u, 61 * SECOND).(marks := marks)
  }

  /** What the rejection left on the model, a second past its expiry. */
  const EXPIRED := Cooldowns.Marked(map[], 0, Cooldowns.Rpm, 0)

  /**
   At the limit that a rejection has taught the model is refused although its daily window has room. Being asked
   drains the minute window only, so that the bucket still shows stale entries and the hint is zero.
   */
  lemma LearnedLimitRefusesWithZeroHint()
    ensures var u := Ran(EMPTY, ONE_TURNED_AWAY);
            var w := TaughtWorld(u, EXPIRED);
            Matched(EMPTY, ONE_TURNED_AWAY, 0) && LimitsUnknown(Taught().cat, 0) && u.learned == Some(1.0) &&
            RoomInDay(u, w.now) && RefusedWith(Taught(), w, 0)
  {
    var u := AfterRejection(1);
    OneTurnedAway();
    RejectionLeavesRoom(u);
    LearnedScene(u, EXPIRED);
    MinuteLater(u);
    hide *;
    CapacityAnswerIs(Taught(), TaughtWorld(u, EXPIRED), Probed(u, 61 * SECOND), 0);
  }

  /** After a selection admitted at `now`: it reads the headroom, which drains every window, and reserves. */
  function Chosen(u: Usage, now: int): Usage { Next(Drained(u, now), Admit(1_000, now)) }

  /**
   When the call in flight was itself selected at that instant, every minute-scale window has been drained by the
   headroom read, and the next selection is refused with the flat hint.
   */
  lemma LearnedLimitRefusesWithFlatHint()
    ensures var idle := Ran(EMPTY, BOTH_RETURNED);
            var u := Chosen(idle, 61 * SECOND);
            var w := TaughtWorld(u, map[]);
            Matched(EMPTY, BOTH_RETURNED, 0) && LimitsUnknown(Taught().cat, 0) &&
            Enabled(Drained(idle, 61 * SECOND), Admit(1_000, 61 * SECOND)) && RoomInDay(u, w.now) &&
            RefusedWith(Taught(), w, FLAT_HINT)
  {
    var u := AfterRejection(1).(rps := [], rpm := [], tpm := []);
    BothReturned();
    IdleIsChosen();
    RejectionLeavesRoom(u);
    LearnedScene(u, map[]);
    assert Probed(u, 61 * SECOND) == u && DrainHints(u, 61 * SECOND) == {} && NoHistory(u);
    hide *;
    CapacityAnswerIs(Taught(), TaughtWorld(u, map[]), u, FLAT_HINT);
  }

  lemma IdleIsChosen()
    ensures Chosen(AfterRejection(0), 61 * SECOND) == AfterRejection(1).(rps := [], rpm := [], tpm := [])
    ensures Enabled(Drained(AfterRejection(0), 61 * SECOND), Admit(1_000, 61 * SECOND))
  {
    MinuteLater(AfterRejection(0));
  }

  lemma LearnedScene(u: Usage, marks: Cooldowns.Marks)
    requires u == AfterRejection(1) || u == AfterRejection(1).(rps := [], rpm := [], tpm := [])
    requires marks == EXPIRED || marks == map[]
    ensures var w := TaughtWorld(u, marks);
            VerdictOf(Taught(), w, RULE) == Full(Bucket(0, None)) && ProbedBy(Taught(), w, RULE) == {0} &&
            w.now == 61 * SECOND && KeylessUsage(w, {0}, 0) == Probed(u, 61 * SECOND)
    ensures LimitsUnknown(Taught().cat, 0)
  {
    var m, w := ModelWith(None, PER_DAY), TaughtWorld(u, marks);
    EligibleHere(m, map[]);
    OutOfLearned(u);
    hide Eligible, UsageTracking.Exhausted, Probed;
    assert KeysOf(Taught(), m) == None && UsageAt(w.usage, Bucket(0, None)) == u;
  }

  lemma OutOfLearned(u: Usage)
    requires u == AfterRejection(1) || u == AfterRejection(1).(rps := [], rpm := [], tpm := [])
    ensures UsageTracking.Exhausted(u, 61 * SECOND)
  {
    Stale(1, SECOND);
  }

  // A brand with a key.

  const KEY: nat := 7

  function Keyed(): Task { TaskWith(ModelWith(Some(1), PER_MINUTE), map[0 := [Key(KEY, true)]]) }

  /**
   The only key of a brand is at its cap and its window offers a wait of fifty seconds, yet the hint is the flat
   one: the refusal is recorded without the key, under a bucket that has never been used.
   */
  lemma KeyedWaitIsNotHinted()
    ensures var u := Ran(EMPTY, ONE_ANSWERED);
            var w := WorldWith(Bucket(0, Some(KEY)), u, 10 * SECOND);
            Matched(EMPTY, ONE_ANSWERED, 0) && DrainHints(u, w.now) == {50_001} &&
            RefusedWith(Keyed(), w, FLAT_HINT)
  {
    OneAnswered();
    KeyScene();
    hide *;
    CapacityAnswerIs(Keyed(), WorldWith(Bucket(0, Some(KEY)), AFTER_ANSWER, 10 * SECOND), EMPTY, FLAT_HINT);
  }

  lemma KeyScene()
    ensures var t, w := Keyed(), WorldWith(Bucket(0, Some(KEY)), AFTER_ANSWER, 10 * SECOND);
            VerdictOf(t, w, RULE) == Full(Bucket(0, None)) && ProbedBy(t, w, RULE) == {} && w.now == 10 * SECOND &&
            KeylessUsage(w, {}, 0) == EMPTY
    ensures DrainHints(AFTER_ANSWER, 10 * SECOND) == {50_001}
    ensures DrainHints(EMPTY, 10 * SECOND) == {} && NoHistory(EMPTY)
  {
    var m, keys := ModelWith(Some(1), PER_MINUTE), [Key(KEY, true)];
    var t, w := Keyed(), WorldWith(Bucket(0, Some(KEY)), AFTER_ANSWER, 10 * SECOND);
    EligibleHere(m, map[0 := keys]);
    hide Eligible, UsageTracking.Exhausted;
    assert KeysOf(t, m) == Some(keys) && keys[0] in keys && keys[1..] == [];
    assert UsageAt(w.usage, Bucket(0, Some(KEY))) == AFTER_ANSWER && AtCap(AFTER_ANSWER, m.cap);
    assert FirstServing(w, m, keys) == None;
  }
}
