/** What the windows of a bucket count, and so what its headroom is, in terms of everything that has been reported. */
module LedgerTotals {
  import opened Basics
  import opened Windows
  import opened UsageTracking
  import opened QuotaLaws

  // ---- histories ----

  /** A question that drains windows on the way: the minute window, the three fast ones, or the two daily ones. */
  datatype Question = AskMinute | AskFast | AskSlow

  /** An admission or a report, or a question asked at some time. */
  datatype Event = Did(step: Step) | Asked(q: Question, at: int)

  function When(e: Event): int { if e.Did? then TimeOf(e.step) else e.at }

  function After(u: Usage, e: Event): Usage {
    match e
    case Did(step) => Next(u, step)
    case Asked(AskMinute, at) => Probed(u, at)
    case Asked(AskFast, at) => FastDrained(u, at)
    case Asked(AskSlow, at) => SlowDrained(u, at)
  }

  /** The bucket after a history, the last event of which is the last element. */
  function Held(events: seq<Event>): Usage {
    if events == [] then EMPTY else After(Held(events[..|events| - 1]), events[|events| - 1])
  }

  /** In time order, and over by `now`. */
  predicate Over(events: seq<Event>, now: int) {
    events == [] || (When(events[|events| - 1]) <= now && Over(events[..|events| - 1], When(events[|events| - 1])))
  }

  // ---- what has been reported ----

  /** A report that consumed quota: a rejected call of unknown limits and unknown tokens did not. */
  predicate Counted(e: Event) {
    e.Did? && e.step.Return? && !(e.step.r.kind == RateLimit(true) && e.step.r.actual.None?)
  }

  /** Its actual tokens where they were reported, and the estimate otherwise. */
  function TokensOf(e: Event): nat
    requires Counted(e)
  {
    match e.step.r.actual
    case Some(n) => n
    case None => e.step.r.tokens
  }

  /** The calls reported at `cutoff` or later, and the tokens they took. */
  function CallsSince(events: seq<Event>, cutoff: int): nat {
    if events == [] then 0
    else
      var e := events[|events| - 1];
      CallsSince(events[..|events| - 1], cutoff) + if Counted(e) && When(e) >= cutoff then 1 else 0
  }

  function TokensSince(events: seq<Event>, cutoff: int): nat {
    if events == [] then 0
    else
      var e := events[|events| - 1];
      TokensSince(events[..|events| - 1], cutoff) + if Counted(e) && When(e) >= cutoff then TokensOf(e) else 0
  }

  // ---- one window ----

  /** A window after an event: perhaps drained, perhaps with one more entry. */
  function Moved(w: seq<Entry>, drained: bool, secs: nat, at: int, pushed: Option<nat>): seq<Entry> {
    var v := if drained then DropBefore(w, at - secs * SECOND) else w;
    if pushed.Some? then v + [Entry(at, pushed.value)] else v
  }

  predicate Past(w: seq<Entry>, at: int) { forall e :: e in w ==> e.at <= at }

  lemma {:induction false} DropKeepsPast(w: seq<Entry>, cutoff: int, at: int)
    requires Past(w, at)
    ensures Past(DropBefore(w, cutoff), at) && (cutoff > at ==> DropBefore(w, cutoff) == [])
  {
    if w != [] {
      assert w[0] in w;
      assert forall e :: e in w[1..] ==> e in w;
      DropKeepsPast(w[1..], cutoff, at);
    }
  }

  lemma MovedKeepsPast(w: seq<Entry>, drained: bool, secs: nat, at: int, pushed: Option<nat>)
    requires Past(w, at)
    ensures Past(Moved(w, drained, secs, at, pushed), at)
  {
    DropKeepsPast(w, at - secs * SECOND, at);
  }

  /** What a window counts from `cutoff` on changes by what is pushed, if that is not stale itself. */
  lemma MovedSum(w: seq<Entry>, drained: bool, secs: nat, at: int, pushed: Option<nat>, cutoff: int)
    requires Past(w, at) && at - secs * SECOND <= cutoff
    ensures Sum(DropBefore(Moved(w, drained, secs, at, pushed), cutoff)) ==
            Sum(DropBefore(w, cutoff)) + if at >= cutoff then pushed.GetOr(0) else 0
  {
    var v := if drained then DropBefore(w, at - secs * SECOND) else w;
    LaterDrainsLess(w, at - secs * SECOND, cutoff);
    assert DropBefore(v, cutoff) == DropBefore(w, cutoff);
    if pushed.Some? {
      MovedKeepsPast(w, drained, secs, at, None);
      var e := Entry(at, pushed.value);
      if at >= cutoff {
        DropAppend(v, e, cutoff);
        SumConcat(DropBefore(v, cutoff), [e]);
      } else {
        DropKeepsPast(v, cutoff, at);
        DropKeepsPast(v + [e], cutoff, at);
      }
    }
  }

  // ---- the five windows ----

  function Pushed(e: Event, tokens: bool): Option<nat> {
    if !Counted(e) then None else Some(if tokens then TokensOf(e) else 1)
  }

  /** A question about the minute, a headroom read, or a rejection that teaches. */
  predicate DrainsMinute(e: Event) {
    if e.Asked? then !e.q.AskSlow? else e.step.Return? && e.step.r.kind == RateLimit(true)
  }

  /** What an event does to each window. */
  lemma EventMoves(u: Usage, e: Event)
    ensures var v, fast, slow := After(u, e), e == Asked(AskFast, When(e)), e == Asked(AskSlow, When(e));
            v.rps == Moved(u.rps, fast, 1, When(e), Pushed(e, false)) &&
            v.rpm == Moved(u.rpm, DrainsMinute(e), 60, When(e), Pushed(e, false)) &&
            v.tpm == Moved(u.tpm, fast, 60, When(e), Pushed(e, true)) &&
            v.rpd == Moved(u.rpd, slow, 86_400, When(e), Pushed(e, false)) &&
            v.tpd == Moved(u.tpd, slow, 86_400, When(e), Pushed(e, true))
  {
    hide DropBefore, Retained;
    if e.Did? {
      hide Moved;
      StepMoves(u, e.step);
    }
  }

  lemma StepMoves(u: Usage, step: Step)
    ensures var v, e := Next(u, step), Did(step);
            v.rps == Moved(u.rps, false, 1, When(e), Pushed(e, false)) &&
            v.rpm == Moved(u.rpm, DrainsMinute(e), 60, When(e), Pushed(e, false)) &&
            v.tpm == Moved(u.tpm, false, 60, When(e), Pushed(e, true)) &&
            v.rpd == Moved(u.rpd, false, 86_400, When(e), Pushed(e, false)) &&
            v.tpd == Moved(u.tpd, false, 86_400, When(e), Pushed(e, true))
  {
    hide DropBefore, Retained;
  }

  /** A window that counts what `counts` says, from any cutoff on that its last drain may have had. */
  predicate Tallies(w: seq<Entry>, at: int, cutoff: int, counts: nat) {
    Past(w, at) && Sum(DropBefore(w, cutoff)) == counts
  }

  lemma MovedTallies(
    w: seq<Entry>, drained: bool, secs: nat, before: int, at: int, pushed: Option<nat>, cutoff: int, counts: nat)
    requires before <= at && at - secs * SECOND <= cutoff && Tallies(w, before, cutoff, counts)
    ensures Tallies(Moved(w, drained, secs, at, pushed), at, cutoff,
                    counts + if at >= cutoff then pushed.GetOr(0) else 0)
  {
    assert Past(w, at);
    MovedKeepsPast(w, drained, secs, at, pushed);
    MovedSum(w, drained, secs, at, pushed, cutoff);
  }

  /** The cutoffs of the three lengths of window at one instant. */
  function Cutoff(now: int, secs: nat): int { now - secs * SECOND }

  predicate AllTally(u: Usage, events: seq<Event>, at: int, second: int, minute: int, day: int) {
    Tallies(u.rps, at, second, CallsSince(events, second)) && Tallies(u.rpm, at, minute, CallsSince(events, minute)) &&
    Tallies(u.tpm, at, minute, TokensSince(events, minute)) && Tallies(u.rpd, at, day, CallsSince(events, day)) &&
    Tallies(u.tpd, at, day, TokensSince(events, day))
  }

  lemma EventTallies(u: Usage, events: seq<Event>, before: int, second: int, minute: int, day: int)
    requires events != [] && AllTally(u, events[..|events| - 1], before, second, minute, day)
    requires var at := When(events[|events| - 1]);
             before <= at && Cutoff(at, 1) <= second && Cutoff(at, 60) <= minute && Cutoff(at, 86_400) <= day
    ensures var e := events[|events| - 1];
            AllTally(After(u, e), events, When(e), second, minute, day)
  {
    var e := events[|events| - 1];
    var past, at := events[..|events| - 1], When(e);
    var fast, slow := e == Asked(AskFast, at), e == Asked(AskSlow, at);
    EventMoves(u, e);
    hide After, Moved, Tallies;
    MovedTallies(u.rps, fast, 1, before, at, Pushed(e, false), second, CallsSince(past, second));
    MovedTallies(u.rpm, DrainsMinute(e), 60, before, at, Pushed(e, false), minute, CallsSince(past, minute));
    MovedTallies(u.tpm, fast, 60, before, at, Pushed(e, true), minute, TokensSince(past, minute));
    MovedTallies(u.rpd, slow, 86_400, before, at, Pushed(e, false), day, CallsSince(past, day));
    MovedTallies(u.tpd, slow, 86_400, before, at, Pushed(e, true), day, TokensSince(past, day));
  }

  lemma {:induction false} HistoryTallies(events: seq<Event>, now: int, second: int, minute: int, day: int)
    requires Over(events, now) && Cutoff(now, 1) <= second && Cutoff(now, 60) <= minute && Cutoff(now, 86_400) <= day
    ensures AllTally(Held(events), events, now, second, minute, day)
    decreases |events|
  {
    if events != [] {
      var e, past := events[|events| - 1], events[..|events| - 1];
      var before := if past == [] then When(e) else When(past[|past| - 1]);
      HistoryTallies(past, When(e), second, minute, day);
      hide Held;
      EventTallies(Held(past), events, When(e), second, minute, day);
      LaterTallies(After(Held(past), e), events, When(e), now, second, minute, day);
      assert Held(events) == After(Held(past), e) by {
        HeldStep(events);
      }
    }
  }

  lemma HeldStep(events: seq<Event>)
    requires events != []
    ensures Held(events) == After(Held(events[..|events| - 1]), events[|events| - 1])
  {
  }

  lemma LaterTallies(u: Usage, events: seq<Event>, at: int, now: int, second: int, minute: int, day: int)
    requires at <= now && AllTally(u, events, at, second, minute, day)
    ensures AllTally(u, events, now, second, minute, day)
  {
    hide CallsSince, TokensSince;
  }

  /** Calls of the last second, minute and day, and tokens of the last minute and day. */
  datatype Totals = Totals(second: nat, minute: nat, minuteTokens: nat, day: nat, dayTokens: nat)

  function TotalsAt(events: seq<Event>, now: int): Totals {
    Totals(CallsSince(events, now - SECOND),
           CallsSince(events, now - 60 * SECOND), TokensSince(events, now - 60 * SECOND),
           CallsSince(events, now - 86_400 * SECOND), TokensSince(events, now - 86_400 * SECOND))
  }

  function TotalsOf(v: Usage): Totals { Totals(Sum(v.rps), Sum(v.rpm), Sum(v.tpm), Sum(v.rpd), Sum(v.tpd)) }

  /**
   After any history in time order, of admissions, reports of every kind and questions that drain what they look
   at, the drained windows count exactly the consuming reports of the last second, minute and day: each call once,
   and its actual tokens where they were reported, else its estimate.
   */
  lemma WindowsCountReports(events: seq<Event>, now: int)
    requires Over(events, now)
    ensures TotalsOf(Drained(Held(events), now)) == TotalsAt(events, now)
  {
    HistoryTallies(events, now, now - SECOND, now - 60 * SECOND, now - 86_400 * SECOND);
    hide Held, CallsSince, TokensSince;
  }

  // ---- headroom in terms of the reports ----

  predicate Unanchored(u: Usage) { u.remReq.None? && u.remTok.None? && u.limReq.None? && u.limTok.None? }

  lemma {:induction false} HeldIsUnanchored(events: seq<Event>)
    ensures Unanchored(Held(events))
  {
    if events != [] {
      HeldIsUnanchored(events[..|events| - 1]);
      EventKeepsUnanchored(Held(events[..|events| - 1]), events[|events| - 1]);
      HeldStep(events);
      hide Held;
    }
  }

  lemma EventKeepsUnanchored(u: Usage, e: Event)
    requires Unanchored(u)
    ensures Unanchored(After(u, e))
  {
    hide DropBefore, Retained;
  }

  /** The share of a limit that is left, below zero when `used` is over it. */
  function Left(used: nat, limit: real): Room
    requires limit >= 0.0
  {
    if limit == 0.0 then NegInf else Fin((limit - used as real) / limit)
  }

  /** The declared limit of requests a minute, or else the whole number below the learned one. */
  function MinuteLimit(u: Usage, m: Limits): Option<nat> {
    if m.rpm.Some? then m.rpm
    else if u.learned.None? then None
    else if u.learned.value < 0.0 then Some(0)
    else Some(if u.learned.value.Floor > 4_294_967_295 then 4_294_967_295 else u.learned.value.Floor)
  }

  /** What one of the limits leaves for one more call of `tokens`, beside what has been counted and is in flight. */
  ghost predicate IsLeft(n: Totals, u: Usage, m: Limits, tokens: nat, room: Room) {
    (m.rps.Some? && m.rps.value > 0.0 && Leaves(m.rps, n.second + u.inReq + 1, room)) ||
    Leaves(AsReal(MinuteLimit(u, m)), n.minute + u.inReq + 1, room) ||
    Leaves(AsReal(m.tpm), n.minuteTokens + u.inTok + tokens, room) ||
    Leaves(AsReal(m.rpd), n.day + u.inReq + 1, room) || Leaves(AsReal(m.tpd), n.dayTokens + u.inTok + tokens, room)
  }

  lemma RatioIsLeft(used: nat, limit: nat)
    ensures Ratio(used, limit) == Left(used, limit as real)
  {
    if limit > 0 {
      QuotientOfRest(used as real, limit as real);
    }
  }

  /** What a limit leaves, where there is one. */
  ghost predicate Leaves(limit: Option<real>, used: nat, room: Room) {
    limit.Some? && limit.value >= 0.0 && room == Left(used, limit.value)
  }

  function AsReal(limit: Option<nat>): Option<real> { if limit.Some? then Some(limit.value as real) else None }

  lemma LimitedLeaves(used: nat, limit: Option<nat>, room: Room)
    ensures Limited(used, limit) == Some(room) <==> Leaves(AsReal(limit), used, room)
  {
    if limit.Some? {
      RatioIsLeft(used, limit.value);
    }
    hide Ratio, Left;
  }

  lemma FastConstraintsLeave(v: Usage, m: Limits, tokens: nat, room: Room)
    requires Unanchored(v)
    ensures RpsConstraint(v, m) == Some(room) <==>
            m.rps.Some? && m.rps.value > 0.0 && Leaves(m.rps, Sum(v.rps) + v.inReq + 1, room)
    ensures RpmConstraint(v, m) == Some(room) <==> Leaves(AsReal(MinuteLimit(v, m)), Sum(v.rpm) + v.inReq + 1, room)
    ensures TpmConstraint(v, m, tokens) == Some(room) <==> Leaves(AsReal(m.tpm), Sum(v.tpm) + v.inTok + tokens, room)
  {
    if m.rps.Some? && m.rps.value > 0.0 {
      PerSecondIsLeft(Sum(v.rps) + v.inReq + 1, m.rps.value);
    }
    assert RpmLimit(v, m) == MinuteLimit(v, m);
    hide Limited, Left, PerSecond, Sum, MinuteLimit, RpmLimit;
    LimitedLeaves(Sum(v.rpm) + v.inReq + 1, MinuteLimit(v, m), room);
    LimitedLeaves(Sum(v.tpm) + v.inTok + tokens, m.tpm, room);
  }

  lemma SlowConstraintsLeave(v: Usage, m: Limits, tokens: nat, room: Room)
    ensures RpdConstraint(v, m) == Some(room) <==> Leaves(AsReal(m.rpd), Sum(v.rpd) + v.inReq + 1, room)
    ensures TpdConstraint(v, m, tokens) == Some(room) <==> Leaves(AsReal(m.tpd), Sum(v.tpd) + v.inTok + tokens, room)
  {
    LimitedLeaves(Sum(v.rpd) + v.inReq + 1, m.rpd, room);
    LimitedLeaves(Sum(v.tpd) + v.inTok + tokens, m.tpd, room);
  }

  lemma ConstraintsLeave(u: Usage, m: Limits, tokens: nat, now: int, room: Room)
    requires Unanchored(u)
    ensures var v := Drained(u, now);
            Some(room) in Constraints(u, m, tokens, now) <==> IsLeft(TotalsOf(v), v, m, tokens, room)
  {
    var v := Drained(u, now);
    assert Unanchored(v);
    FastConstraintsLeave(v, m, tokens, room);
    SlowConstraintsLeave(v, m, tokens, room);
    hide FastDrained, SlowDrained, Leaves, RpsConstraint, RpmConstraint, TpmConstraint, RpdConstraint, TpdConstraint,
         MinuteLimit, AsReal, Sum;
  }

  lemma DrainedLeaves(n: Totals, u: Usage, m: Limits, tokens: nat, now: int, room: Room)
    ensures IsLeft(n, Drained(u, now), m, tokens, room) <==> IsLeft(n, u, m, tokens, room)
  {
    var v := Drained(u, now);
    assert v.inReq == u.inReq && v.inTok == u.inTok && MinuteLimit(v, m) == MinuteLimit(u, m);
    hide FastDrained, SlowDrained, Leaves, MinuteLimit, AsReal;
  }

  /** A constraint of the drained bucket is what one of the limits leaves. */
  lemma ConstraintsAreLeft(events: seq<Event>, m: Limits, tokens: nat, now: int, room: Room)
    requires Over(events, now)
    ensures Some(room) in Constraints(Held(events), m, tokens, now) <==>
            IsLeft(TotalsAt(events, now), Held(events), m, tokens, room)
  {
    HeldIsUnanchored(events);
    WindowsCountReports(events, now);
    hide *;
    ConstraintsLeave(Held(events), m, tokens, now, room);
    DrainedLeaves(TotalsAt(events, now), Held(events), m, tokens, now, room);
  }

  lemma PerSecondIsLeft(used: nat, limit: real)
    requires limit > 0.0
    ensures PerSecond(used, limit) == Left(used, limit)
  {
    QuotientOfRest(used as real, limit);
  }

  /**
   The headroom of a bucket whose provider has reported no limits, from its history alone: one, or the least share
   that a limit leaves.
   */
  lemma HeadroomOfHistory(events: seq<Event>, m: Limits, tokens: nat, now: int)
    requires Over(events, now)
    ensures var room, n, u := Headroom(Held(events), m, tokens, now), TotalsAt(events, now), Held(events);
            Le(room, Fin(1.0)) && (forall r :: IsLeft(n, u, m, tokens, r) ==> Le(room, r)) &&
            (room == Fin(1.0) || IsLeft(n, u, m, tokens, room))
  {
    var room, n, u := Headroom(Held(events), m, tokens, now), TotalsAt(events, now), Held(events);
    HeadroomIsLeastConstraint(u, m, tokens, now);
    ConstraintsAreLeft(events, m, tokens, now, room);
    hide Headroom, Held, Constraints, IsLeft, Le, TotalsAt;
    forall r | IsLeft(n, u, m, tokens, r)
      ensures Le(room, r)
    {
      ConstraintsAreLeft(events, m, tokens, now, r);
      assert Some(r) in Constraints(u, m, tokens, now);
    }
  }
}
