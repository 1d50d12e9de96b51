/** The quota ledger of one `(model, key)` bucket and the tracker that keeps the buckets apart. */
module UsageTracking {
  import opened Basics
  import opened Windows

  // ---- headroom ----

  /** A headroom value; `NegInf` is the ratio of a zero limit. */
  datatype Room = NegInf | Fin(v: real)

  predicate Le(a: Room, b: Room) { a.NegInf? || (b.Fin? && a.v <= b.v) }

  function Lower(a: Room, b: Room): Room { if Le(a, b) then a else b }

  /** A headroom narrowed by a constraint, where there is one. */
  function Narrow(room: Room, constraint: Option<Room>): Room {
    if constraint.Some? then Lower(room, constraint.value) else room
  }

  function Ratio(projected: nat, limit: nat): Room {
    if limit == 0 then NegInf else Fin(1.0 - projected as real / limit as real)
  }

  /** The per-second ratio; a configured rate that is not positive constrains nothing. */
  function PerSecond(projected: nat, limit: real): Room
    requires limit > 0.0
  {
    Fin(1.0 - projected as real / limit)
  }

  /** The rate limits declared for a model. */
  datatype Limits = Limits(rps: Option<real>, rpm: Option<nat>, tpm: Option<nat>, rpd: Option<nat>, tpd: Option<nat>)

  datatype Outcome = Outcome(at: int, limited: bool)

  /** The value of one bucket. */
  datatype Usage = Usage(
    inReq: nat, inTok: nat,
    rps: seq<Entry>, rpm: seq<Entry>, tpm: seq<Entry>, rpd: seq<Entry>, tpd: seq<Entry>,
    remReq: Option<nat>, remTok: Option<nat>, limReq: Option<nat>, limTok: Option<nat>,
    learned: Option<real>, lastIncrease: Option<int>, outcomes: seq<Outcome>, latency: Option<real>)

  const EMPTY := Usage(0, 0, [], [], [], [], [], None, None, None, None, None, None, [], None)

  /** `f64 as u64`, and `as u32` with its saturation. */
  function FloorNat(x: real): nat { if x < 0.0 then 0 else x.Floor }
  function FloorU32(x: real): nat { Min(FloorNat(x), U32_MAX) }

  /** The request ceiling in force: reported by the provider, declared, or learned. */
  function RpmLimit(u: Usage, m: Limits): Option<nat> {
    u.limReq.Or(m.rpm).Or(if u.learned.Some? then Some(FloorU32(u.learned.value)) else None)
  }

  function TpmLimit(u: Usage, m: Limits): Option<nat> { u.limTok.Or(m.tpm) }

  /** Usage with the provider's own count of what is left as a floor. */
  function Effective(counted: nat, remaining: Option<nat>, limit: Option<nat>): nat {
    if remaining.Some? && limit.Some? then Max(counted, SatSub(limit.value, remaining.value)) else counted
  }

  function Limited(projected: nat, limit: Option<nat>): Option<Room> {
    if limit.Some? then Some(Ratio(projected, limit.value)) else None
  }

  function RpsConstraint(u: Usage, m: Limits): Option<Room> {
    if m.rps.Some? && m.rps.value > 0.0 then Some(PerSecond(Sum(u.rps) + u.inReq + 1, m.rps.value)) else None
  }

  function RpmConstraint(u: Usage, m: Limits): Option<Room> {
    Limited(Effective(Sum(u.rpm), u.remReq, RpmLimit(u, m)) + u.inReq + 1, RpmLimit(u, m))
  }

  function TpmConstraint(u: Usage, m: Limits, tokens: nat): Option<Room> {
    Limited(Effective(Sum(u.tpm), u.remTok, TpmLimit(u, m)) + u.inTok + tokens, TpmLimit(u, m))
  }

  function RpdConstraint(u: Usage, m: Limits): Option<Room> { Limited(Sum(u.rpd) + u.inReq + 1, m.rpd) }

  function TpdConstraint(u: Usage, m: Limits, tokens: nat): Option<Room> {
    Limited(Sum(u.tpd) + u.inTok + tokens, m.tpd)
  }

  function FastDrained(u: Usage, now: int): Usage {
    u.(rps := DropBefore(u.rps, now - SECOND), rpm := DropBefore(u.rpm, now - 60 * SECOND),
       tpm := DropBefore(u.tpm, now - 60 * SECOND))
  }

  function SlowDrained(u: Usage, now: int): Usage {
    u.(rpd := DropBefore(u.rpd, now - 86_400 * SECOND), tpd := DropBefore(u.tpd, now - 86_400 * SECOND))
  }

  /** All five windows drained. */
  function Drained(u: Usage, now: int): Usage { SlowDrained(FastDrained(u, now), now) }

  /** Headroom over the constraints that recover within a minute, and over those that recover within a day. */
  function FastRoom(u: Usage, m: Limits, tokens: nat): (room: Room)
    ensures Le(room, Fin(1.0))
  {
    Narrow(Narrow(Narrow(Fin(1.0), RpsConstraint(u, m)), RpmConstraint(u, m)), TpmConstraint(u, m, tokens))
  }

  function SlowRoom(u: Usage, m: Limits, tokens: nat): Room {
    Narrow(Narrow(Fin(1.0), RpdConstraint(u, m)), TpdConstraint(u, m, tokens))
  }

  /** Narrowing the fast headroom by the daily constraints is taking the lower of the two headrooms. */
  lemma SlowOnTop(u: Usage, m: Limits, tokens: nat, room: Room)
    requires Le(room, Fin(1.0))
    ensures Narrow(Narrow(room, RpdConstraint(u, m)), TpdConstraint(u, m, tokens)) ==
            Lower(room, SlowRoom(u, m, tokens))
  {
  }

  /** Draining the slow windows does not move the fast headroom, nor the other way round. */
  lemma DrainsAreIndependent(u: Usage, m: Limits, tokens: nat, now: int)
    ensures FastRoom(SlowDrained(FastDrained(u, now), now), m, tokens) == FastRoom(FastDrained(u, now), m, tokens)
    ensures SlowRoom(SlowDrained(FastDrained(u, now), now), m, tokens) == SlowRoom(SlowDrained(u, now), m, tokens)
  {
  }

  /** All constraints on a request at one instant, each on its own drained window. */
  function Constraints(u: Usage, m: Limits, tokens: nat, now: int): set<Option<Room>> {
    var v := SlowDrained(FastDrained(u, now), now);
    {RpsConstraint(v, m), RpmConstraint(v, m), TpmConstraint(v, m, tokens), RpdConstraint(v, m),
     TpdConstraint(v, m, tokens)}
  }

  // ---- learned limits and the ledger operations, as functions of the bucket's value ----

  function Retained(outcomes: seq<Outcome>, now: int): seq<Outcome> {
    if outcomes == [] then []
    else if now - outcomes[0].at < 300 * SECOND then [outcomes[0]] + Retained(outcomes[1..], now)
    else Retained(outcomes[1..], now)
  }

  function RMax(a: real, b: real): real { if a < b then b else a }
  function RMin(a: real, b: real): real { if a < b then a else b }

  /** The learned limit, or what the last minute carried, halved down to one. */
  function Halved(u: Usage, now: int): Usage {
    var rpm := DropBefore(u.rpm, now - 60 * SECOND);
    var observed := Max(Sum(rpm), 2) as real;
    u.(rpm := rpm, learned := Some(RMax(u.learned.GetOr(observed) / 2.0, 1.0)), lastIncrease := Some(now))
  }

  function OutcomeRecorded(u: Usage, now: int, limited: bool, unknown: bool): Usage {
    var v := u.(outcomes := Retained(u.outcomes, now) + [Outcome(now, limited)]);
    if limited && unknown then Halved(v, now)
    else if !limited && u.learned.Some? && (u.lastIncrease.None? || now - u.lastIncrease.value >= 60 * SECOND) then
      v.(learned := Some(RMin(u.learned.value + 1.0, 10000.0)), lastIncrease := Some(now))
    else v
  }

  /** Requests of the last minute plus requests in flight. */
  function Load(u: Usage, now: int): nat { Sum(DropBefore(u.rpm, now - 60 * SECOND)) + u.inReq }

  predicate Exhausted(u: Usage, now: int) {
    u.limReq.None? && u.limTok.None? && u.learned.Some? && Load(u, now) >= FloorNat(u.learned.value)
  }

  /** The bucket once its learned limit has been asked about: the minute window is drained. */
  function Probed(u: Usage, now: int): Usage { u.(rpm := DropBefore(u.rpm, now - 60 * SECOND)) }

  predicate AtCap(u: Usage, cap: Option<nat>) { cap.Some? && u.inReq >= cap.value }

  function Reserved(u: Usage, tokens: nat): Usage { u.(inReq := SatAdd(u.inReq), inTok := WrapAdd(u.inTok, tokens)) }

  function Cancelled(u: Usage, tokens: nat): Usage { u.(inReq := SatSub(u.inReq, 1), inTok := SatSub(u.inTok, tokens)) }

  function Released(u: Usage, tokens: nat, actual: Option<nat>, now: int): Usage {
    Pushed(Cancelled(u, tokens), Entry(now, 1), Entry(now, actual.GetOr(tokens)))
  }

  function Pushed(u: Usage, one: Entry, spent: Entry): Usage {
    u.(rps := u.rps + [one], rpm := u.rpm + [one], tpm := u.tpm + [spent], rpd := u.rpd + [one], tpd := u.tpd + [spent])
  }

  function Anchored(u: Usage, remReq: Option<nat>, remTok: Option<nat>): Usage {
    u.(remReq := remReq.Or(u.remReq), remTok := remTok.Or(u.remTok))
  }

  function LimitsAnchored(u: Usage, requests: Option<nat>, tokens: Option<nat>): Usage {
    u.(limReq := requests.Or(u.limReq), limTok := tokens.Or(u.limTok))
  }

  /** Exponentially weighted response time, a fifth of it the newest sample. */
  function LatencyRecorded(u: Usage, ms: nat): Usage {
    u.(latency := Some(if u.latency.None? then ms as real else 0.2 * ms as real + 0.8 * u.latency.value))
  }

  /** The first response time is taken as it is; every other moves the mean a fifth of the way. */
  lemma LatencyMovesAFifth(u: Usage, ms: nat)
    ensures var v := LatencyRecorded(u, ms);
            v == u.(latency := v.latency) && v.latency.Some? &&
            if u.latency.None? then v.latency.value == ms as real
            else 5.0 * (v.latency.value - u.latency.value) == ms as real - u.latency.value
  {
  }

  /** The outcome log keeps the outcomes of the last five minutes, and only those. */
  lemma {:induction false} RetainedAreRecent(outcomes: seq<Outcome>, now: int)
    ensures forall o :: o in Retained(outcomes, now) <==> o in outcomes && now - o.at < 300 * 1_000_000_000
  {
    if outcomes != [] {
      RetainedAreRecent(outcomes[1..], now);
      assert forall o :: o in outcomes <==> o == outcomes[0] || o in outcomes[1..];
    }
  }

  lemma DropTwice(w: seq<Entry>, cutoff: int)
    ensures DropBefore(DropBefore(w, cutoff), cutoff) == DropBefore(w, cutoff)
  {
  }

  /** Draining again at the same instant changes nothing. */
  lemma DrainIsIdempotent(u: Usage, now: int)
    ensures Drained(FastDrained(u, now), now) == Drained(u, now)
    ensures Drained(SlowDrained(u, now), now) == Drained(u, now)
    ensures Drained(Probed(u, now), now) == Drained(u, now) && Probed(Probed(u, now), now) == Probed(u, now)
  {
    DropTwice(u.rps, now - SECOND);
    DropTwice(u.rpm, now - 60 * SECOND);
    DropTwice(u.tpm, now - 60 * SECOND);
    DropTwice(u.rpd, now - 86_400 * SECOND);
    DropTwice(u.tpd, now - 86_400 * SECOND);
  }

  /** Buckets that agree once drained answer every question of a selection alike. */
  lemma DrainedAlikeCapacity(u: Usage, v: Usage, now: int)
    requires Drained(u, now) == Drained(v, now)
    ensures u.inReq == v.inReq && u.latency == v.latency && Exhausted(u, now) == Exhausted(v, now)
  {
    assert Drained(u, now).rpm == DropBefore(u.rpm, now - 60 * SECOND);
    assert Drained(v, now).rpm == DropBefore(v.rpm, now - 60 * SECOND);
  }

  lemma DrainedAlikeRoom(u: Usage, v: Usage, m: Limits, tokens: nat, now: int)
    requires Drained(u, now) == Drained(v, now)
    ensures FastRoom(FastDrained(u, now), m, tokens) == FastRoom(FastDrained(v, now), m, tokens)
    ensures SlowRoom(SlowDrained(u, now), m, tokens) == SlowRoom(SlowDrained(v, now), m, tokens)
  {
    DrainsAreIndependent(u, m, tokens, now);
    DrainsAreIndependent(v, m, tokens, now);
  }

  // ---- one bucket, updated in place ----

  method RetainRecent(outcomes: seq<Outcome>, now: int) returns (kept: seq<Outcome>)
    ensures kept == Retained(outcomes, now)
  {
    kept := [];
    for i := 0 to |outcomes|
      invariant kept + Retained(outcomes[i..], now) == Retained(outcomes, now)
    {
      if now - outcomes[i].at < 300 * SECOND {
        kept := kept + [outcomes[i]];
      }
    }
  }

  class ModelUsage {
    var inReq: nat
    var inTok: nat
    var rps: seq<Entry>
    var rpm: seq<Entry>
    var tpm: seq<Entry>
    var rpd: seq<Entry>
    var tpd: seq<Entry>
    var remReq: Option<nat>
    var remTok: Option<nat>
    var limReq: Option<nat>
    var limTok: Option<nat>
    var learned: Option<real>
    var lastIncrease: Option<int>
    var outcomes: seq<Outcome>
    var latency: Option<real>

    ghost function View(): Usage
      reads this
    {
      Usage(inReq, inTok, rps, rpm, tpm, rpd, tpd, remReq, remTok, limReq, limTok, learned, lastIncrease, outcomes,
            latency)
    }

    constructor ()
      ensures View() == EMPTY
    {
      inReq, inTok, rps, rpm, tpm, rpd, tpd := 0, 0, [], [], [], [], [];
      remReq, remTok, limReq, limTok := None, None, None, None;
      learned, lastIncrease, outcomes, latency := None, None, [], None;
    }

    /** One undisturbed pass through the reserve loop; interleavings are the subject of `Reservations`. */
    method TryReserve(tokens: nat, cap: Option<nat>) returns (ok: bool)
      modifies this
      ensures ok == !AtCap(old(View()), cap)
      ensures View() == if ok then Reserved(old(View()), tokens) else old(View())
    {
      if cap.Some? && inReq >= cap.value {
        return false;
      }
      inReq := SatAdd(inReq);
      inTok := WrapAdd(inTok, tokens);
      return true;
    }

    method CancelReservation(tokens: nat)
      modifies this
      ensures View() == Cancelled(old(View()), tokens)
    {
      inReq := SatSub(inReq, 1);
      inTok := SatSub(inTok, tokens);
    }

    method Push(one: Entry, spent: Entry)
      modifies `rps, `rpm, `tpm, `rpd, `tpd
      ensures View() == Pushed(old(View()), one, spent)
    {
      rps := rps + [one];
      rpm := rpm + [one];
      tpm := tpm + [spent];
      rpd := rpd + [one];
      tpd := tpd + [spent];
    }

    method Release(tokens: nat, actual: Option<nat>, now: int)
      modifies `inReq, `inTok, `rps, `rpm, `tpm, `rpd, `tpd
      ensures View() == Released(old(View()), tokens, actual, now)
    {
      inReq := SatSub(inReq, 1);
      inTok := SatSub(inTok, tokens);
      Push(Entry(now, 1), Entry(now, actual.GetOr(tokens)));
    }

    method Halve(now: int)
      modifies `rpm, `learned, `lastIncrease
      ensures View() == Halved(old(View()), now)
    {
      rpm := DrainBefore(rpm, now, 60);
      var count := WindowSum(rpm);
      var observed := Max(count, 2) as real;
      learned := Some(RMax(learned.GetOr(observed) / 2.0, 1.0));
      lastIncrease := Some(now);
    }

    method RecordOutcome(limited: bool, unknown: bool, now: int)
      modifies `outcomes, `rpm, `learned, `lastIncrease
      ensures View() == OutcomeRecorded(old(View()), now, limited, unknown)
    {
      outcomes := RetainRecent(outcomes, now);
      outcomes := outcomes + [Outcome(now, limited)];
      if limited && unknown {
        Halve(now);
      } else if !limited && learned.Some? && (lastIncrease.None? || now - lastIncrease.value >= 60 * SECOND) {
        learned := Some(RMin(learned.value + 1.0, 10000.0));
        lastIncrease := Some(now);
      }
    }

    method LearnedExhausted(now: int) returns (b: bool)
      modifies this`rpm
      ensures View() == Probed(old(View()), now)
      ensures b == Exhausted(old(View()), now)
    {
      rpm := DrainBefore(rpm, now, 60);
      if limReq.Some? || limTok.Some? {
        return false;
      }
      var count := WindowSum(rpm);
      return learned.Some? && count + inReq >= FloorNat(learned.value);
    }

    method AnchorRemaining(requests: Option<nat>, tokens: Option<nat>)
      modifies this
      ensures View() == Anchored(old(View()), requests, tokens)
    {
      if requests.Some? {
        remReq := requests;
      }
      if tokens.Some? {
        remTok := tokens;
      }
    }

    method AnchorLimits(requests: Option<nat>, tokens: Option<nat>)
      modifies this
      ensures View() == LimitsAnchored(old(View()), requests, tokens)
    {
      if requests.Some? {
        limReq := requests;
      }
      if tokens.Some? {
        limTok := tokens;
      }
    }

    method RecordLatency(ms: nat)
      modifies this
      ensures View() == LatencyRecorded(old(View()), ms)
    {
      latency := Some(if latency.None? then ms as real else 0.2 * ms as real + 0.8 * latency.value);
    }

    /** The waiting hint narrowed by this bucket's windows. */
    method EarliestHint(ms: Option<nat>, now: int) returns (least: Option<nat>)
      ensures forall h :: h in DrainHints(View(), now) ==> least.Some? && least.value <= h
      ensures ms.Some? ==> least.Some? && least.value <= ms.value
      ensures least.Some? ==> least == ms || least.value in DrainHints(View(), now)
      ensures least.Some? && least != ms ==> least.value > 0
    {
      HintsArePositive(View(), now);
      least := LeastHint(LeastHint(LeastHint(ms, rps, 1, now), rpm, 60, now), tpm, 60, now);
      hide LeastHint, FrontHint;
    }

    method DrainFast(now: int)
      modifies this`rps, this`rpm, this`tpm
      ensures View() == FastDrained(old(View()), now)
    {
      rps := DrainBefore(rps, now, 1);
      rpm := DrainBefore(rpm, now, 60);
      tpm := DrainBefore(tpm, now, 60);
    }

    method DrainSlow(now: int)
      modifies this`rpd, this`tpd
      ensures View() == SlowDrained(old(View()), now)
    {
      rpd := DrainBefore(rpd, now, 86_400);
      tpd := DrainBefore(tpd, now, 86_400);
    }

    /** The constraints that recover within a minute, on the windows as they stand. */
    method FastConstraints(tokens: nat, m: Limits) returns (room: Room)
      ensures room == FastRoom(View(), m, tokens)
    {
      var rpsCount := WindowSum(rps);
      var rpmCount := WindowSum(rpm);
      var tpmSum := WindowSum(tpm);
      var rpmLimit := limReq.Or(m.rpm).Or(if learned.Some? then Some(FloorU32(learned.value)) else None);
      var tpmLimit := limTok.Or(m.tpm);
      room := Fin(1.0);
      var usedReq := Effective(rpmCount, remReq, rpmLimit);
      var usedTok := Effective(tpmSum, remTok, tpmLimit);
      room := Narrow(room,
                     if m.rps.Some? && m.rps.value > 0.0 then Some(PerSecond(rpsCount + inReq + 1, m.rps.value))
                     else None);
      room := Narrow(room, Limited(usedReq + inReq + 1, rpmLimit));
      room := Narrow(room, Limited(usedTok + inTok + tokens, tpmLimit));
    }

    /** A headroom narrowed by the daily constraints, on the windows as they stand. */
    method SlowConstraints(start: Room, tokens: nat, m: Limits) returns (room: Room)
      ensures room == Narrow(Narrow(start, RpdConstraint(View(), m)), TpdConstraint(View(), m, tokens))
    {
      var rpdCount := WindowSum(rpd);
      var tpdSum := WindowSum(tpd);
      room := Narrow(start, Limited(rpdCount + inReq + 1, m.rpd));
      room := Narrow(room, Limited(tpdSum + inTok + tokens, m.tpd));
    }

    method HeadroomFast(tokens: nat, m: Limits, now: int) returns (room: Room)
      modifies this
      ensures View() == FastDrained(old(View()), now)
      ensures room == FastRoom(FastDrained(old(View()), now), m, tokens)
    {
      DrainFast(now);
      room := FastConstraints(tokens, m);
    }

    method HeadroomSlow(tokens: nat, m: Limits, now: int) returns (room: Room)
      modifies this
      ensures View() == SlowDrained(old(View()), now)
      ensures room == SlowRoom(SlowDrained(old(View()), now), m, tokens)
    {
      DrainSlow(now);
      room := SlowConstraints(Fin(1.0), tokens, m);
    }

    /** The single-pass headroom is the minimum of the two partial ones, although each drains on its own. */
    method Headroom(tokens: nat, m: Limits, now: int) returns (room: Room)
      modifies this
      ensures View() == SlowDrained(FastDrained(old(View()), now), now)
      ensures room ==
              Lower(FastRoom(FastDrained(old(View()), now), m, tokens),
                    SlowRoom(SlowDrained(old(View()), now), m, tokens))
    {
      hide FastRoom, SlowRoom, FastDrained, SlowDrained, Narrow, RpdConstraint, TpdConstraint;
      DrainsAreIndependent(View(), m, tokens, now);
      DrainFast(now);
      DrainSlow(now);
      SlowOnTop(View(), m, tokens, FastRoom(View(), m, tokens));
      room := FastConstraints(tokens, m);
      room := SlowConstraints(room, tokens, m);
    }
  }

  // ---- all buckets ----

  /** Waiting hints of one bucket: milliseconds until the oldest entry leaves each minute-scale window. */
  function FrontHint(window: seq<Entry>, secs: nat, now: int): set<nat> {
    if window != [] && window[0].at + secs * SECOND >= now
    then {(window[0].at + secs * SECOND - now) / MILLI + 1} else {}
  }

  function DrainHints(u: Usage, now: int): set<nat> {
    FrontHint(u.rps, 1, now) + FrontHint(u.rpm, 60, now) + FrontHint(u.tpm, 60, now)
  }

  lemma NothingDrains(now: int)
    ensures DrainHints(EMPTY, now) == {}
  {
  }

  /** The front of a window has left it by `t`. */
  predicate FrontLeft(window: seq<Entry>, secs: nat, t: int) {
    window != [] && window[0].at + secs * 1_000_000_000 < t
  }

  /** The window is one of the second's and the minute's, and `h` ms is when its front leaves, to the millisecond. */
  predicate LeavesIn(u: Usage, window: seq<Entry>, secs: nat, now: int, h: nat) {
    (window, secs) in {(u.rps, 1), (u.rpm, 60), (u.tpm, 60)} && window != [] &&
    FrontLeft(window, secs, now + h * 1_000_000) && !FrontLeft(window, secs, now + (h - 1) * 1_000_000)
  }

  /** The hints of a bucket are exactly the milliseconds in which a front that is still in its window leaves it. */
  lemma HintsAreDepartures(u: Usage, now: int, h: nat)
    requires h > 0
    ensures h in DrainHints(u, now) <==> exists window, secs :: LeavesIn(u, window, secs, now, h)
    ensures NoHistory(u) <==> u.rps == [] && u.rpm == [] && u.tpm == []
  {
    FrontHintIsDeparture(u.rps, 1, now, h);
    FrontHintIsDeparture(u.rpm, 60, now, h);
    FrontHintIsDeparture(u.tpm, 60, now, h);
    hide FrontHint, FrontLeft;
    if h in FrontHint(u.rps, 1, now) {
      assert LeavesIn(u, u.rps, 1, now, h);
    } else if h in FrontHint(u.rpm, 60, now) {
      assert LeavesIn(u, u.rpm, 60, now, h);
    } else if h in FrontHint(u.tpm, 60, now) {
      assert LeavesIn(u, u.tpm, 60, now, h);
    }
  }

  lemma FrontHintIsDeparture(window: seq<Entry>, secs: nat, now: int, h: nat)
    requires h > 0
    ensures h in FrontHint(window, secs, now) <==>
            window != [] && FrontLeft(window, secs, now + h * 1_000_000) &&
            !FrontLeft(window, secs, now + (h - 1) * 1_000_000)
  {
  }

  lemma HintsArePositive(u: Usage, now: int)
    ensures 0 !in DrainHints(u, now)
  {
  }

  ghost function AllDrainHints(us: seq<Usage>, now: int): set<nat> {
    set u, h | u in us && h in DrainHints(u, now) :: h
  }

  /** The least hint of the buckets, two seconds when only calls in flight block them, or nothing. */
  ghost predicate IsEarliest(ms: Option<nat>, us: seq<Usage>, now: int) {
    var hints := AllDrainHints(us, now);
    if hints != {} then ms.Some? && ms.value in hints && forall h :: h in hints ==> ms.value <= h
    else ms == if exists u :: u in us && NoHistory(u) then Some(2_000) else None
  }

  /** The answer as it is found bucket by bucket is that least hint. */
  lemma EarliestByIndex(ms: Option<nat>, us: seq<Usage>, now: int)
    requires forall i, h :: 0 <= i < |us| && h in DrainHints(us[i], now) ==> ms.Some? && ms.value <= h
    requires ms.Some? ==>
               (exists i :: 0 <= i < |us| && ms.value in DrainHints(us[i], now)) ||
               (ms == Some(2_000) && (forall i :: 0 <= i < |us| ==> DrainHints(us[i], now) == {}) &&
                exists i :: 0 <= i < |us| && NoHistory(us[i]))
    requires ms.None? ==> forall i :: 0 <= i < |us| ==> !NoHistory(us[i])
    ensures IsEarliest(ms, us, now)
  {
    hide DrainHints, NoHistory;
    var hints := AllDrainHints(us, now);
    forall h | h in hints
      ensures ms.Some? && ms.value <= h && exists i :: 0 <= i < |us| && h in DrainHints(us[i], now)
    {
      var u :| u in us && h in DrainHints(u, now);
      var i :| 0 <= i < |us| && us[i] == u;
    }
    if ms.Some? && exists i :: 0 <= i < |us| && ms.value in DrainHints(us[i], now) {
      var i :| 0 <= i < |us| && ms.value in DrainHints(us[i], now);
      assert us[i] in us && ms.value in hints;
    } else if ms.Some? {
      var i :| 0 <= i < |us| && NoHistory(us[i]);
      assert us[i] in us;
    }
  }

  predicate NoHistory(u: Usage) { u.rps == [] && u.rpm == [] && u.tpm == [] }

  class UsageTracker {
    var cells: map<Bucket, ModelUsage>

    /** Each key has a bucket object of its own. */
    ghost predicate Valid()
      reads this
    {
      forall b, c :: b in cells && c in cells && b != c ==> cells[b] != cells[c]
    }

    /** The value of a bucket; one never touched is empty. */
    ghost function At(b: Bucket): Usage
      reads this, cells.Values
    {
      if b in cells then cells[b].View() else EMPTY
    }

    ghost function Usages(): map<Bucket, Usage>
      reads this, cells.Values
    {
      map b | b in cells :: cells[b].View()
    }

    /** Nothing but bucket `b` has changed. */
    twostate predicate OnlyAt(b: Bucket)
      reads this, cells.Values
    {
      forall c :: c != b ==> At(c) == old(At(c))
    }

    constructor ()
      ensures Valid() && cells == map[] && forall b :: At(b) == EMPTY
    {
      cells := map[];
    }

    method GetOrDefault(b: Bucket) returns (cell: ModelUsage)
      requires Valid()
      modifies this
      ensures Valid() && b in cells && cells[b] == cell && fresh(cells.Values - old(cells.Values))
      ensures forall c :: At(c) == old(At(c))
    {
      if b !in cells {
        cell := new ModelUsage();
        cells := cells[b := cell];
      } else {
        cell := cells[b];
      }
    }

    method TryReserve(b: Bucket, tokens: nat, cap: Option<nat>) returns (ok: bool)
      requires Valid()
      modifies this, cells.Values
      ensures Valid() && fresh(cells.Values - old(cells.Values)) && OnlyAt(b)
      ensures ok == !AtCap(old(At(b)), cap)
      ensures At(b) == if ok then Reserved(old(At(b)), tokens) else old(At(b))
    {
      var cell := GetOrDefault(b);
      ok := cell.TryReserve(tokens, cap);
    }

    method CancelReservation(b: Bucket, tokens: nat)
      requires Valid()
      modifies this, cells.Values
      ensures Valid() && fresh(cells.Values - old(cells.Values)) && OnlyAt(b)
      ensures At(b) == Cancelled(old(At(b)), tokens)
    {
      var cell := GetOrDefault(b);
      cell.CancelReservation(tokens);
    }

    method Release(b: Bucket, tokens: nat, actual: Option<nat>, now: int)
      requires Valid()
      modifies this, cells.Values
      ensures Valid() && fresh(cells.Values - old(cells.Values)) && OnlyAt(b)
      ensures At(b) == Released(old(At(b)), tokens, actual, now)
    {
      var cell := GetOrDefault(b);
      cell.Release(tokens, actual, now);
    }

    method RecordOutcome(b: Bucket, limited: bool, unknown: bool, now: int)
      requires Valid()
      modifies this, cells.Values
      ensures Valid() && fresh(cells.Values - old(cells.Values)) && OnlyAt(b)
      ensures At(b) == OutcomeRecorded(old(At(b)), now, limited, unknown)
    {
      var cell := GetOrDefault(b);
      cell.RecordOutcome(limited, unknown, now);
    }

    method AnchorRemaining(b: Bucket, requests: Option<nat>, tokens: Option<nat>)
      requires Valid()
      modifies this, cells.Values
      ensures Valid() && fresh(cells.Values - old(cells.Values)) && OnlyAt(b)
      ensures At(b) == Anchored(old(At(b)), requests, tokens)
    {
      if requests.None? && tokens.None? {
        return;
      }
      var cell := GetOrDefault(b);
      cell.AnchorRemaining(requests, tokens);
    }

    method AnchorLimits(b: Bucket, requests: Option<nat>, tokens: Option<nat>)
      requires Valid()
      modifies this, cells.Values
      ensures Valid() && fresh(cells.Values - old(cells.Values)) && OnlyAt(b)
      ensures At(b) == LimitsAnchored(old(At(b)), requests, tokens)
    {
      if requests.None? && tokens.None? {
        return;
      }
      var cell := GetOrDefault(b);
      cell.AnchorLimits(requests, tokens);
    }

    method RecordLatency(b: Bucket, ms: nat)
      requires Valid()
      modifies this, cells.Values
      ensures Valid() && fresh(cells.Values - old(cells.Values)) && OnlyAt(b)
      ensures At(b) == LatencyRecorded(old(At(b)), ms)
    {
      var cell := GetOrDefault(b);
      cell.RecordLatency(ms);
    }

    method InFlight(b: Bucket) returns (n: nat)
      requires Valid()
      modifies this
      ensures Valid() && fresh(cells.Values - old(cells.Values)) && forall c :: At(c) == old(At(c))
      ensures n == At(b).inReq
    {
      var cell := GetOrDefault(b);
      n := cell.inReq;
    }

    method AvgLatency(b: Bucket) returns (ms: Option<real>)
      requires Valid()
      modifies this
      ensures Valid() && fresh(cells.Values - old(cells.Values)) && forall c :: At(c) == old(At(c))
      ensures ms == At(b).latency
    {
      var cell := GetOrDefault(b);
      ms := cell.latency;
    }

    method LearnedExhausted(b: Bucket, now: int) returns (exhausted: bool)
      requires Valid()
      modifies this, cells.Values
      ensures Valid() && fresh(cells.Values - old(cells.Values)) && OnlyAt(b)
      ensures At(b) == Probed(old(At(b)), now)
      ensures exhausted == Exhausted(old(At(b)), now)
    {
      var cell := GetOrDefault(b);
      exhausted := cell.LearnedExhausted(now);
    }

    method HeadroomFast(b: Bucket, tokens: nat, m: Limits, now: int) returns (room: Room)
      requires Valid()
      modifies this, cells.Values
      ensures Valid() && fresh(cells.Values - old(cells.Values)) && OnlyAt(b)
      ensures At(b) == FastDrained(old(At(b)), now)
      ensures room == FastRoom(FastDrained(old(At(b)), now), m, tokens)
    {
      var cell := GetOrDefault(b);
      room := cell.HeadroomFast(tokens, m, now);
    }

    method HeadroomSlow(b: Bucket, tokens: nat, m: Limits, now: int) returns (room: Room)
      requires Valid()
      modifies this, cells.Values
      ensures Valid() && fresh(cells.Values - old(cells.Values)) && OnlyAt(b)
      ensures At(b) == SlowDrained(old(At(b)), now)
      ensures room == SlowRoom(SlowDrained(old(At(b)), now), m, tokens)
    {
      var cell := GetOrDefault(b);
      room := cell.HeadroomSlow(tokens, m, now);
    }

    /** The least hint over the given buckets, or two seconds when only in-flight calls block them. */
    method EarliestDrainMs(keys: seq<Bucket>, now: int) returns (ms: Option<nat>)
      ensures forall i, h :: 0 <= i < |keys| && h in DrainHints(At(keys[i]), now) ==> ms.Some? && 0 < ms.value <= h
      ensures ms.Some? ==>
                (exists i :: 0 <= i < |keys| && ms.value in DrainHints(At(keys[i]), now)) ||
                (ms == Some(2_000) && (forall i :: 0 <= i < |keys| ==> DrainHints(At(keys[i]), now) == {}) &&
                 exists i :: 0 <= i < |keys| && NoHistory(At(keys[i])))
      ensures ms.None? ==> forall i :: 0 <= i < |keys| ==> !NoHistory(At(keys[i]))
    {
      hide DrainHints;
      ms := None;
      var inFlightOnly := false;
      for i := 0 to |keys|
        invariant ms.Some? ==> ms.value > 0
        invariant ms.Some? ==> exists j :: 0 <= j < i && ms.value in DrainHints(At(keys[j]), now)
        invariant forall j, h :: 0 <= j < i && h in DrainHints(At(keys[j]), now) ==> ms.Some? && ms.value <= h
        invariant inFlightOnly <==> exists j :: 0 <= j < i && NoHistory(At(keys[j]))
      {
        if keys[i] !in cells {
          NothingDrains(now);
          inFlightOnly := true;
        } else {
          var cell := cells[keys[i]];
          ms := cell.EarliestHint(ms, now);
          if cell.rps == [] && cell.rpm == [] && cell.tpm == [] {
            inFlightOnly := true;
          }
        }
      }
      if ms.None? && inFlightOnly {
        ms := Some(2_000);
      }
    }
  }

  function LeastHint(ms: Option<nat>, window: seq<Entry>, secs: nat, now: int): (least: Option<nat>)
    ensures forall h :: h in FrontHint(window, secs, now) ==> least.Some? && least.value <= h
    ensures ms.Some? ==> least.Some? && least.value <= ms.value
    ensures least.Some? ==> least == ms || least.value in FrontHint(window, secs, now)
  {
    if window != [] && window[0].at + secs * SECOND >= now then
      var hint := (window[0].at + secs * SECOND - now) / MILLI + 1;
      Some(Min(ms.GetOr(hint), hint))
    else ms
  }
}
