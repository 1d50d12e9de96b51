/** What headroom means, and what a learned limit guarantees over whole runs of reports. */
module QuotaLaws {
  import opened Basics
  import opened Windows
  import opened UsageTracking
  import Reservations

  // ---- what headroom means ----

  function Headroom(u: Usage, m: Limits, tokens: nat, now: int): Room {
    Lower(FastRoom(FastDrained(u, now), m, tokens), SlowRoom(SlowDrained(u, now), m, tokens))
  }

  /** Headroom is the greatest lower bound of 1.0 and every constraint that applies. */
  lemma HeadroomIsLeastConstraint(u: Usage, m: Limits, tokens: nat, now: int)
    ensures var room, cs := Headroom(u, m, tokens, now), Constraints(u, m, tokens, now);
            Le(room, Fin(1.0)) && (forall c :: c in cs && c.Some? ==> Le(room, c.value)) &&
            (room == Fin(1.0) || Some(room) in cs)
  {
    DrainsAreIndependent(u, m, tokens, now);
    var v := SlowDrained(FastDrained(u, now), now);
    assert RpsConstraint(v, m) in Constraints(u, m, tokens, now);
    NarrowedIsLeast(Fin(1.0), RpsConstraint(v, m), RpmConstraint(v, m), TpmConstraint(v, m, tokens));
    NarrowedIsLeast(Fin(1.0), RpdConstraint(v, m), TpdConstraint(v, m, tokens), None);
  }

  lemma NarrowedIsLeast(room: Room, a: Option<Room>, b: Option<Room>, c: Option<Room>)
    ensures var least := Narrow(Narrow(Narrow(room, a), b), c);
            Le(least, room) && (a.Some? ==> Le(least, a.value)) && (b.Some? ==> Le(least, b.value)) &&
            (c.Some? ==> Le(least, c.value)) && Some(least) in {Some(room), a, b, c}
  {
  }

  lemma MoreProjectedLessRoom(a: nat, b: nat, limit: nat, rate: real)
    requires a <= b && rate > 0.0
    ensures Le(Ratio(b, limit), Ratio(a, limit)) && Le(PerSecond(b, rate), PerSecond(a, rate))
  {
    QuotientMonotone(a as real, b as real, rate);
    if limit > 0 {
      QuotientMonotone(a as real, b as real, limit as real);
    }
  }

  lemma QuotientMonotone(a: real, b: real, c: real)
    requires a <= b && c > 0.0
    ensures a / c <= b / c
  {
    assert (b - a) / c >= 0.0;
    assert b / c == a / c + (b - a) / c;
  }

  lemma QuotientOfRest(a: real, c: real)
    requires c > 0.0
    ensures (c - a) / c == 1.0 - a / c
  {
    assert c / c == 1.0;
    assert (c - a) / c == c / c - a / c;
  }

  /** The relation between two versions of one constraint when the second is at least as tight. */
  predicate Tighter(a: Option<Room>, b: Option<Room>) { a.Some? == b.Some? && (a.Some? ==> Le(b.value, a.value)) }

  lemma LimitedMonotone(a: nat, b: nat, limit: Option<nat>)
    requires a <= b
    ensures Tighter(Limited(a, limit), Limited(b, limit))
  {
    if limit.Some? {
      MoreProjectedLessRoom(a, b, limit.value, 1.0);
    }
  }

  lemma RpsMonotone(u: Usage, v: Usage, m: Limits)
    requires u.rps == v.rps && u.inReq <= v.inReq
    ensures Tighter(RpsConstraint(u, m), RpsConstraint(v, m))
  {
    if m.rps.Some? && m.rps.value > 0.0 {
      MoreProjectedLessRoom(Sum(u.rps) + u.inReq + 1, Sum(u.rps) + v.inReq + 1, 0, m.rps.value);
    }
  }

  /** The same bucket with no less in flight. */
  predicate MoreInFlight(u: Usage, v: Usage) {
    v == u.(inReq := v.inReq, inTok := v.inTok) && u.inReq <= v.inReq && u.inTok <= v.inTok
  }

  lemma MoreInFlightLessFastRoom(u: Usage, v: Usage, m: Limits, tokens: nat)
    requires MoreInFlight(u, v)
    ensures Le(FastRoom(v, m, tokens), FastRoom(u, m, tokens))
  {
    var rpm, tpm := Effective(Sum(u.rpm), u.remReq, RpmLimit(u, m)), Effective(Sum(u.tpm), u.remTok, TpmLimit(u, m));
    RpsMonotone(u, v, m);
    LimitedMonotone(rpm + u.inReq + 1, rpm + v.inReq + 1, RpmLimit(u, m));
    LimitedMonotone(tpm + u.inTok + tokens, tpm + v.inTok + tokens, TpmLimit(u, m));
    TighterRooms(RpsConstraint(u, m), RpmConstraint(u, m), TpmConstraint(u, m, tokens),
                 RpsConstraint(v, m), RpmConstraint(v, m), TpmConstraint(v, m, tokens));
  }

  lemma MoreInFlightLessSlowRoom(u: Usage, v: Usage, m: Limits, tokens: nat)
    requires MoreInFlight(u, v)
    ensures Le(SlowRoom(v, m, tokens), SlowRoom(u, m, tokens))
  {
    LimitedMonotone(Sum(u.rpd) + u.inReq + 1, Sum(u.rpd) + v.inReq + 1, m.rpd);
    LimitedMonotone(Sum(u.tpd) + u.inTok + tokens, Sum(u.tpd) + v.inTok + tokens, m.tpd);
    TighterRooms(RpdConstraint(u, m), TpdConstraint(u, m, tokens), None, RpdConstraint(v, m),
                 TpdConstraint(v, m, tokens), None);
  }

  /** Adding a reservation never raises headroom. */
  lemma ReserveNeverRaises(u: Usage, k: nat, m: Limits, tokens: nat, now: int)
    requires u.inReq < U32_MAX && u.inTok + k <= U64_MAX
    ensures Le(Headroom(Reserved(u, k), m, tokens, now), Headroom(u, m, tokens, now))
  {
    MoreInFlightLessFastRoom(FastDrained(u, now), FastDrained(Reserved(u, k), now), m, tokens);
    MoreInFlightLessSlowRoom(SlowDrained(u, now), SlowDrained(Reserved(u, k), now), m, tokens);
  }

  lemma TighterRooms(a: Option<Room>, b: Option<Room>, c: Option<Room>, a': Option<Room>, b': Option<Room>,
                     c': Option<Room>)
    requires Tighter(a, a') && Tighter(b, b') && Tighter(c, c')
    ensures Le(Narrow(Narrow(Narrow(Fin(1.0), a'), b'), c'), Narrow(Narrow(Narrow(Fin(1.0), a), b), c))
  {
  }

  /** Once anchored, headroom is at most what the provider says is left, less what is in flight. */
  lemma ProviderIsAFloor(u: Usage, m: Limits, tokens: nat, now: int)
    requires u.remReq.Some? && RpmLimit(u, m).Some? && RpmLimit(u, m).value > 0
    ensures var limit := RpmLimit(u, m).value as real;
            Le(Headroom(u, m, tokens, now), Fin((u.remReq.value as real - u.inReq as real - 1.0) / limit))
  {
    var v := FastDrained(u, now);
    var limit, rem := RpmLimit(u, m).value, u.remReq.value;
    var projected := Effective(Sum(v.rpm), v.remReq, RpmLimit(v, m)) + u.inReq + 1;
    NarrowedIsLeast(Fin(1.0), RpsConstraint(v, m), RpmConstraint(v, m), TpmConstraint(v, m, tokens));
    assert limit as real - projected as real <= rem as real - u.inReq as real - 1.0;
    QuotientMonotone(limit as real - projected as real, rem as real - u.inReq as real - 1.0, limit as real);
    QuotientOfRest(projected as real, limit as real);
  }

  /**
   What a provider reports binds: with its limits and its remaining counts anchored, headroom is at most what it
   says is left of them, less what is in flight and this call; where it reports nothing the bucket is unchanged.
   */
  lemma ReportedCountsBind(
    u: Usage, limReq: nat, limTok: nat, remReq: nat, remTok: nat, m: Limits, tokens: nat, now: int)
    requires limReq > 0 && limTok > 0
    ensures var v := Anchored(LimitsAnchored(u, Some(limReq), Some(limTok)), Some(remReq), Some(remTok));
            Le(Headroom(v, m, tokens, now), Fin((remReq as real - u.inReq as real - 1.0) / limReq as real)) &&
            Le(Headroom(v, m, tokens, now), Fin((remTok as real - u.inTok as real - tokens as real) / limTok as real))
    ensures Anchored(u, None, None) == LimitsAnchored(u, None, None) == u
  {
    var v := Anchored(LimitsAnchored(u, Some(limReq), Some(limTok)), Some(remReq), Some(remTok));
    ProviderIsAFloor(v, m, tokens, now);
    var d := FastDrained(v, now);
    var projected := Effective(Sum(d.tpm), d.remTok, TpmLimit(d, m)) + u.inTok + tokens;
    NarrowedIsLeast(Fin(1.0), RpsConstraint(d, m), RpmConstraint(d, m), TpmConstraint(d, m, tokens));
    var left := remTok as real - u.inTok as real - tokens as real;
    assert limTok as real - projected as real <= left;
    QuotientMonotone(limTok as real - projected as real, left, limTok as real);
    QuotientOfRest(projected as real, limTok as real);
  }

  // ---- reports on one bucket, and what the learned limit guarantees ----

  datatype Kind = Success | RateLimit(unknown: bool) | Error

  /** A report that gives back one reservation of `tokens`. */
  datatype Report = Report(kind: Kind, tokens: nat, actual: Option<nat>, at: int)

  /** The bucket's part of `report_success`, `report_rate_limit` and `report_error`. */
  function Reported(u: Usage, r: Report): Usage {
    match r.kind
    case Success => OutcomeRecorded(Released(u, r.tokens, r.actual, r.at), r.at, false, false)
    case RateLimit(unknown) =>
      var v := OutcomeRecorded(u, r.at, true, unknown);
      if unknown && r.actual.None? then Cancelled(v, r.tokens) else Released(v, r.tokens, r.actual, r.at)
    case Error => Released(u, r.tokens, r.actual, r.at)
  }

  function AllReported(u: Usage, rs: seq<Report>): Usage
    decreases |rs|
  {
    if rs == [] then u else AllReported(Reported(u, rs[0]), rs[1..])
  }

  predicate InTimeOrder(rs: seq<Report>, from: int) {
    rs == [] || (from <= rs[0].at && InTimeOrder(rs[1..], rs[0].at))
  }

  lemma {:induction false} DropAppend(w: seq<Entry>, e: Entry, cutoff: int)
    requires e.at >= cutoff
    ensures DropBefore(w + [e], cutoff) == DropBefore(w, cutoff) + [e]
  {
    if w != [] && w[0].at < cutoff {
      assert (w + [e])[1..] == w[1..] + [e];
      DropAppend(w[1..], e, cutoff);
    }
  }

  lemma ReleaseKeepsLoad(u: Usage, tokens: nat, actual: Option<nat>, at: int)
    requires 1 <= u.inReq
    ensures Load(Released(u, tokens, actual, at), at) == Load(u, at)
  {
    DropAppend(u.rpm, Entry(at, 1), at - 60 * SECOND);
    SumConcat(DropBefore(u.rpm, at - 60 * SECOND), [Entry(at, 1)]);
  }

  /** A report moves a request from flight to the window or drops it; the sum of the two never rises. */
  lemma ReportKeepsLoad(u: Usage, r: Report)
    requires 1 <= u.inReq
    ensures Load(Reported(u, r), r.at) <= Load(u, r.at)
  {
    LaterDrainsLess(u.rpm, r.at - 60 * SECOND, r.at - 60 * SECOND);
    ReleaseKeepsLoad(u, r.tokens, r.actual, r.at);
    if r.kind.RateLimit? {
      ReleaseKeepsLoad(OutcomeRecorded(u, r.at, true, r.kind.unknown), r.tokens, r.actual, r.at);
    }
  }

  lemma TimeLowersLoad(u: Usage, early: int, late: int)
    requires early <= late
    ensures Load(u, late) <= Load(u, early)
  {
    LaterDrainsLess(u.rpm, early - 60 * SECOND, late - 60 * SECOND);
  }

  /** Reports and time never raise the last minute's requests plus those in flight. */
  lemma {:induction false} ReportsNeverRaiseLoad(u: Usage, rs: seq<Report>, from: int, now: int)
    requires InTimeOrder(rs, from) && |rs| <= u.inReq
    requires if rs == [] then from <= now else rs[|rs| - 1].at <= now
    ensures Load(AllReported(u, rs), now) <= Load(u, from)
    decreases |rs|
  {
    if rs == [] {
      TimeLowersLoad(u, from, now);
    } else {
      var r := rs[0];
      TimeLowersLoad(u, from, r.at);
      ReportKeepsLoad(u, r);
      ReportsNeverRaiseLoad(Reported(u, r), rs[1..], r.at, now);
    }
  }

  /**
   A bucket governed by its learned limit: an admitted selection leaves the last minute's requests plus
   those in flight within the limit, and no matched reports or passing time takes them above it.
   */
  lemma LearnedLimitHolds(u: Usage, tokens: nat, from: int, rs: seq<Report>, now: int)
    requires u.limReq.None? && u.limTok.None? && u.learned.Some? && !Exhausted(u, from)
    requires InTimeOrder(rs, from) && |rs| <= Reserved(u, tokens).inReq
    requires if rs == [] then from <= now else rs[|rs| - 1].at <= now
    ensures Load(AllReported(Reserved(u, tokens), rs), now) <= FloorNat(u.learned.value)
  {
    ReportsNeverRaiseLoad(Reserved(u, tokens), rs, from, now);
  }

  predicate LearnedSane(u: Usage) { u.learned.Some? ==> u.learned.value >= 1.0 }

  /** The learned limit never falls below one request a minute. */
  lemma {:induction false} LearnedAtLeastOne(u: Usage, rs: seq<Report>)
    requires LearnedSane(u)
    ensures LearnedSane(AllReported(u, rs))
    decreases |rs|
  {
    if rs != [] {
      LearnedAtLeastOne(Reported(u, rs[0]), rs[1..]);
    }
  }

  /** A drained, idle bucket is always admitted again. */
  lemma IdleIsAdmitted(u: Usage, now: int)
    requires LearnedSane(u) && u.inReq == 0 && forall i :: 0 <= i < |u.rpm| ==> u.rpm[i].at < now - 60 * SECOND
    ensures !Exhausted(u, now)
  {
    var k := DropIsSuffix(u.rpm, now - 60 * SECOND);
    assert k == |u.rpm|;
  }

  predicate Halves(r: Report) { r.kind.RateLimit? && r.kind.unknown }

  /**
   From a halving at `since` that left the limit at `base`, and until the next one, the limit gains at
   most one request a minute for each whole minute that has passed.
   */
  lemma {:induction false} GrowthIsBounded(u: Usage, rs: seq<Report>, since: int, base: real, gained: nat, from: int)
    requires u.learned.Some? && u.lastIncrease.Some? && InTimeOrder(rs, from) && u.lastIncrease.value <= from
    requires u.learned.value <= base + gained as real && since + gained * 60 * SECOND <= u.lastIncrease.value
    requires forall r :: r in rs ==> !Halves(r)
    ensures var v := AllReported(u, rs);
            var last := if rs == [] then from else rs[|rs| - 1].at;
            v.learned.Some? && v.learned.value <= base + ((last - since) / (60 * SECOND)) as real
    decreases |rs|
  {
    if rs == [] {
      assert gained * (60 * SECOND) <= from - since;
      assert (from - since) / (60 * SECOND) >= gained;
    } else {
      assert !Halves(rs[0]);
      var v := Reported(u, rs[0]);
      var more := if v.lastIncrease == u.lastIncrease then 0 else 1;
      GrowthIsBounded(v, rs[1..], since, base, gained + more, rs[0].at);
    }
  }

  /** A growth is due when none has happened for a minute. */
  predicate GrowthDue(u: Usage, at: int) { u.lastIncrease.None? || at - u.lastIncrease.value >= 60 * SECOND }

  /** A success moves a learned limit only when a growth is due: up below 10000, and down above it. */
  lemma GrowthStep(u: Usage, r: Report)
    requires u.learned.Some? && r.kind.Success?
    ensures var v := Reported(u, r).learned;
            v.Some? && (v.value > u.learned.value <==> GrowthDue(u, r.at) && u.learned.value < 10000.0) &&
            (v.value < u.learned.value <==> GrowthDue(u, r.at) && u.learned.value > 10000.0)
  {
  }

  function Pow2(n: nat): (p: nat)
    ensures p >= 1
  {
     if n == 0 then 1 else 2 * Pow2(n - 1)
  }

  /** `after` is what is left of `before` when it is halved `n` times and never taken below one. */
  predicate HalvedTo(before: real, after: real, n: nat) {
    after * Pow2(n) as real <= RMax(before, Pow2(n) as real) && before <= after * Pow2(n) as real
  }

  /** Consecutive rejections halve the limit each time, down to one. */
  lemma {:induction false} RejectionsHalve(u: Usage, rs: seq<Report>)
    requires u.learned.Some? && forall r :: r in rs ==> Halves(r)
    ensures AllReported(u, rs).learned.Some? && HalvedTo(u.learned.value, AllReported(u, rs).learned.value, |rs|)
    decreases |rs|
  {
    if rs != [] {
      RejectionHalves(u, rs[0]);
      RejectionsHalve(Reported(u, rs[0]), rs[1..]);
      HalvingStep(u.learned.value, AllReported(u, rs).learned.value, |rs| - 1);
    }
  }

  lemma RejectionHalves(u: Usage, r: Report)
    requires u.learned.Some? && Halves(r)
    ensures Reported(u, r).learned == Some(RMax(u.learned.value / 2.0, 1.0))
  {
  }

  lemma HalvingStep(before: real, after: real, n: nat)
    requires HalvedTo(RMax(before / 2.0, 1.0), after, n)
    ensures HalvedTo(before, after, n + 1)
  {
    var p := Pow2(n);
    assert after * (2 * p) as real == 2.0 * (after * p as real);
  }

  // ---- whole runs of admissions and reports on one bucket ----

  /** A selection admitted by the learned limit, or a report that gives a reservation back. */
  datatype Step = Admit(tokens: nat, at: int) | Return(r: Report)

  function TimeOf(step: Step): int { if step.Admit? then step.at else step.r.at }

  predicate Enabled(u: Usage, step: Step) {
    if step.Admit? then !Exhausted(u, step.at) && u.inReq < U32_MAX else u.inReq >= 1
  }

  function Next(u: Usage, step: Step): Usage { if step.Admit? then Reserved(u, step.tokens) else Reported(u, step.r) }

  /** Admissions under the limit and matched reports, in time order from `from` on. */
  predicate Matched(u: Usage, steps: seq<Step>, from: int)
    decreases |steps|
  {
    steps == [] ||
    (from <= TimeOf(steps[0]) && Enabled(u, steps[0]) && Matched(Next(u, steps[0]), steps[1..], TimeOf(steps[0])))
  }

  function Ran(u: Usage, steps: seq<Step>): Usage
    decreases |steps|
  {
    if steps == [] then u else Ran(Next(u, steps[0]), steps[1..])
  }

  /** The largest whole limit learned in a run, its start included. */
  function Peak(u: Usage, steps: seq<Step>): nat
    decreases |steps|
  {
    var here := if u.learned.Some? then FloorNat(u.learned.value) else 0;
    if steps == [] then here else Max(here, Peak(Next(u, steps[0]), steps[1..]))
  }

  /** Governed by its learned limit: the provider has reported none of its own. */
  predicate Governed(u: Usage) { u.limReq.None? && u.limTok.None? && u.learned.Some? }

  /**
   Over any run of admitted selections, matched reports and time, the last minute's requests plus those in
   flight stay within the largest limit learned so far, or within what they were at the start.
   */
  lemma {:induction false} LoadStaysWithinPeak(u: Usage, steps: seq<Step>, from: int, now: int)
    requires Governed(u) && Matched(u, steps, from)
    requires if steps == [] then from <= now else TimeOf(steps[|steps| - 1]) <= now
    ensures Governed(Ran(u, steps)) && Load(Ran(u, steps), now) <= Max(Load(u, from), Peak(u, steps))
    decreases |steps|
  {
    if steps == [] {
      TimeLowersLoad(u, from, now);
    } else {
      var step := steps[0];
      StepKeepsLoad(u, step, from);
      hide Load, Next, Enabled, Governed;
      LoadStaysWithinPeak(Next(u, step), steps[1..], TimeOf(step), now);
    }
  }

  /** A step leaves the load within the limit in force or within what it was. */
  lemma StepKeepsLoad(u: Usage, step: Step, from: int)
    requires Governed(u) && Enabled(u, step) && from <= TimeOf(step)
    ensures Governed(Next(u, step))
    ensures Load(Next(u, step), TimeOf(step)) <= Max(Load(u, from), FloorNat(u.learned.value))
  {
    TimeLowersLoad(u, from, TimeOf(step));
    if step.Return? {
      ReportKeepsLoad(u, step.r);
      hide Load;
    }
  }

  // ---- a history that learns more than 10000 and loses some of it ----

  function Copies(step: Step, n: nat): seq<Step> { if n == 0 then [] else [step] + Copies(step, n - 1) }

  const ADMISSION := Admit(1, 0)
  const SERVED := Return(Report(Success, 1, None, 0))
  const REJECTED := Return(Report(RateLimit(true), 1, None, 0))
  const SERVED_LATER := Return(Report(Success, 1, None, 61 * SECOND))

  /** Nothing learned, and a window that holds `n` requests of time zero and nothing else. */
  predicate Busy(u: Usage, n: nat) {
    u.learned.None? && Sum(u.rpm) == n && forall e :: e in u.rpm ==> e.at == 0
  }

  lemma {:induction false} Admissions(u: Usage, n: nat, rest: seq<Step>)
    requires Busy(u, 0) && u.inReq + n <= U32_MAX
    ensures var v := Ran(u, Copies(ADMISSION, n));
            Busy(v, 0) && v.inReq == u.inReq + n &&
            Ran(u, Copies(ADMISSION, n) + rest) == Ran(v, rest) &&
            (Matched(v, rest, 0) ==> Matched(u, Copies(ADMISSION, n) + rest, 0))
    decreases n
  {
    if n == 0 {
      assert Copies(ADMISSION, n) + rest == rest;
    } else {
      var more := Copies(ADMISSION, n - 1);
      assert Copies(ADMISSION, n)[1..] == more && (Copies(ADMISSION, n) + rest)[1..] == more + rest;
      Admissions(Next(u, ADMISSION), n - 1, rest);
    }
  }

  lemma ServedOnce(u: Usage, k: nat)
    requires Busy(u, k) && u.inReq >= 1
    ensures Enabled(u, SERVED) && Busy(Next(u, SERVED), k + 1) && Next(u, SERVED).inReq == u.inReq - 1
  {
    SumConcat(u.rpm, [Entry(0, 1)]);
  }

  lemma {:induction false} ServedCalls(u: Usage, k: nat, n: nat, rest: seq<Step>)
    requires Busy(u, k) && u.inReq >= n
    ensures var v := Ran(u, Copies(SERVED, n));
            Busy(v, k + n) && v.inReq == u.inReq - n &&
            Ran(u, Copies(SERVED, n) + rest) == Ran(v, rest) &&
            (Matched(v, rest, 0) ==> Matched(u, Copies(SERVED, n) + rest, 0))
    decreases n
  {
    if n == 0 {
      assert Copies(SERVED, n) + rest == rest;
    } else {
      var more := Copies(SERVED, n - 1);
      assert Copies(SERVED, n)[1..] == more && (Copies(SERVED, n) + rest)[1..] == more + rest;
      ServedOnce(u, k);
      hide Busy, Next, Enabled;
      ServedCalls(Next(u, SERVED), k + 1, n - 1, rest);
    }
  }

  lemma NothingStale(w: seq<Entry>)
    requires forall e :: e in w ==> e.at == 0
    ensures DropBefore(w, -60 * SECOND) == w
  {
  }

  /** From an empty bucket: 20002 served calls and a rejection learn 10001, and a success a minute later lowers it. */
  function LargeHistory(): seq<Step> {
    Copies(ADMISSION, 20_004) + (Copies(SERVED, 20_002) + [REJECTED])
  }

  lemma LargeLimitIsLowered()
    ensures var u := Ran(EMPTY, LargeHistory());
            Matched(EMPTY, LargeHistory(), 0) && Matched(u, [SERVED_LATER], 0) &&
            u.learned == Some(10_001.0) && Ran(u, [SERVED_LATER]).learned == Some(10_000.0)
  {
    var served := Copies(SERVED, 20_002) + [REJECTED];
    hide Copies;
    Admissions(EMPTY, 20_004, served);
    var u := Ran(EMPTY, Copies(ADMISSION, 20_004));
    ServedCalls(u, 0, 20_002, [REJECTED]);
    var v := Ran(u, Copies(SERVED, 20_002));
    NothingStale(v.rpm);
    RejectedThenServed(v);
  }

  lemma RejectedThenServed(v: Usage)
    requires Busy(v, 20_002) && v.inReq == 2 && DropBefore(v.rpm, -60 * SECOND) == v.rpm
    ensures Matched(v, [REJECTED], 0) && Matched(Ran(v, [REJECTED]), [SERVED_LATER], 0)
    ensures Ran(v, [REJECTED]).learned == Some(10_001.0) &&
            Ran(Ran(v, [REJECTED]), [SERVED_LATER]).learned == Some(10_000.0)
  {
    var u := Next(v, REJECTED);
    RejectionLearns(v);
    SuccessLowers(u);
    hide Next, Reported;
    OneStep(v, REJECTED);
    OneStep(u, SERVED_LATER);
  }

  lemma OneStep(u: Usage, step: Step)
    ensures Ran(u, [step]) == Next(u, step) && Matched(u, [step], 0) == (0 <= TimeOf(step) && Enabled(u, step))
  {
    assert [step][1..] == [];
    hide Next, Enabled, TimeOf;
  }

  lemma RejectionLearns(v: Usage)
    requires Busy(v, 20_002) && v.inReq == 2 && DropBefore(v.rpm, -60 * SECOND) == v.rpm
    ensures Enabled(v, REJECTED)
    ensures var u := Next(v, REJECTED); u.learned == Some(10_001.0) && u.lastIncrease == Some(0) && u.inReq == 1
  {
    assert 0 - 60 * SECOND == -60 * SECOND;
    hide DropBefore, Sum;
  }

  lemma SuccessLowers(u: Usage)
    requires u.learned == Some(10_001.0) && u.lastIncrease == Some(0) && u.inReq == 1
    ensures Enabled(u, SERVED_LATER) && Next(u, SERVED_LATER).learned == Some(10_000.0)
  {
    hide DropBefore, Sum;
  }

  // ---- the concurrent protocol and the ledger speak of the same operations ----

  predicate InFlightOf(c: Reservations.Counters, b: Bucket, u: Usage) {
    Reservations.Get(c.req, b) == u.inReq && Reservations.Get(c.tok, b) == u.inTok
  }

  /**
   The two atomic additions of a reservation, and the two subtractions of its return, are the ledger's reserve
   and cancellation on its bucket and leave every other bucket alone.
   */
  lemma ProtocolIsLedger(c: Reservations.Counters, r: Reservations.Res, u: Usage, b: Bucket, v: Usage)
    requires InFlightOf(c, r.bucket, u) && b != r.bucket && InFlightOf(c, b, v)
    ensures var taken := Reservations.Perform(Reservations.Perform(c, Reservations.AddReq(r)), Reservations.AddTok(r));
            InFlightOf(taken, r.bucket, Reserved(u, r.tokens)) && InFlightOf(taken, b, v)
    ensures var given := Reservations.Perform(Reservations.Perform(c, Reservations.SubReq(r)), Reservations.SubTok(r));
            InFlightOf(given, r.bucket, Cancelled(u, r.tokens)) && InFlightOf(given, b, v)
  {
  }
}
