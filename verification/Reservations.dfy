/**
 The reservation protocol: tasks that select a model, hold one unit of its in-flight capacity and
 give it back. Every load, compare-exchange and fetch-add of the two in-flight counters is one step
 of an interleaving; a task can be dropped at any await point.
 */
module Reservations {
  import opened Basics

  const MAX_PROVIDER_ATTEMPTS := 4

  /** One reservation; `id` only distinguishes it in the log. */
  datatype Res = Res(id: nat, bucket: Bucket, tokens: nat)

  datatype Counters = Counters(req: map<Bucket, nat>, tok: map<Bucket, nat>)

  /** The four atomic operations on a pair of counters. */
  datatype Event = AddReq(r: Res) | AddTok(r: Res) | SubReq(r: Res) | SubTok(r: Res)

  /** The blocking thread that runs the selection; `Ready` is the unclaimed `PendingSelection`. */
  datatype Select =
    | NoSelect
    | Filtering
    | Loading(pool: seq<Bucket>)
    | Trying(pool: seq<Bucket>, count: nat)
    | Counted(r: Res)
    | Ready(result: Option<Res>)

  /** A thread giving capacity back: a spawned report, or the drop of a guard. */
  datatype Job =
    | NoJob
    | ReqLoad(r: Res) | ReqTry(r: Res, count: nat)
    | TokLoad(r: Res) | TokTry(r: Res, count: nat)
    | JobDone

  /** What a completion does once its report has been applied. */
  datatype After = Return | Again(model: nat, exclude: bool, quota: bool)

  datatype Driver =
    | AwaitSelect(again: bool)
    | Sleeping
    | Serving
    | AwaitReport(after: After)
    | AwaitQuota(model: nat, exclude: bool)
    | Gone

  datatype Kind = Complete | Client

  /** How a provider attempt ends: unusable or failing model, final answer, or a 429. */
  datatype Outcome = Skip | Finish | Limited(retryPin: bool)

  datatype Task = Task(
    kind: Kind, tokens: nat, pinWait: bool, excluded: set<nat>, attempt: nat, called: seq<nat>,
    driver: Driver, sel: Select, guard: Option<Res>, client: Option<Res>, job: Job)

  datatype Act =
    | Offer(pool: seq<Bucket>) | Load | Cas(spurious: bool) | Fetch
    | Deliver | Refuse(sleep: bool) | Wake | Drop | Orphan
    | Report(outcome: Outcome) | JobLoad | JobCas(spurious: bool)
    | ReportReturns | QuotaReturns | ClientReport

  datatype Action = Arrive(t: Task) | Do(i: nat, act: Act) | Reap(i: nat)

  datatype State = State(counters: Counters, tasks: seq<Task>, log: seq<Event>, nextId: nat)

  /** `max_in_flight` of each capped model. */
  type Caps = map<nat, nat>

  function Get(m: map<Bucket, nat>, b: Bucket): nat { if b in m then m[b] else 0 }

  predicate Busy(j: Job) { !j.NoJob? && !j.JobDone? }

  predicate Finished(t: Task) {
    t.driver.Gone? && t.sel.NoSelect? && t.guard.None? && t.client.None? && !Busy(t.job)
  }

  // ---- steps of one task ----

  predicate CanDo(t: Task, act: Act) {
    match act
    case Offer(pool) => t.sel.Filtering? && forall b :: b in pool ==> b.model !in t.excluded
    case Load => t.sel.Loading? && t.sel.pool != []
    case Cas(_) => t.sel.Trying? && t.sel.pool != []
    case Fetch => t.sel.Counted?
    case Deliver => t.driver.AwaitSelect? && t.sel.Ready? && t.sel.result.Some?
    case Refuse(sleep) =>
      t.driver.AwaitSelect? && t.sel.Ready? && t.sel.result.None? && (sleep ==> !t.driver.again)
    case Wake => t.driver.Sleeping?
    case Drop => !t.driver.Gone?
    case Orphan => t.driver.Gone? && t.sel.Ready?
    case Report(o) =>
      t.driver.Serving? && t.guard.Some? && (o.Limited? && o.retryPin ==> t.pinWait)
    case JobLoad => t.job.ReqLoad? || t.job.TokLoad?
    case JobCas(_) => t.job.ReqTry? || t.job.TokTry?
    case ReportReturns => t.driver.AwaitReport? && !Busy(t.job)
    case QuotaReturns => t.driver.AwaitQuota?
    case ClientReport => t.client.Some?
  }

  function NextCandidate(pool: seq<Bucket>): Select {
    if pool == [] then Ready(None) else Loading(pool)
  }

  /** The end of one pass of the attempt loop. */
  function NextAttempt(t: Task, model: nat, exclude: bool): Task {
    var u := t.(excluded := if exclude then t.excluded + {model} else t.excluded);
    if t.attempt + 1 < MAX_PROVIDER_ATTEMPTS
    then u.(attempt := t.attempt + 1, driver := AwaitSelect(false), sel := Filtering)
    else u.(driver := Gone)
  }

  function Spawn(t: Task, r: Option<Res>): Task {
    if r.Some? then t.(job := ReqLoad(r.value)) else t
  }

  /** A step of the task alone: its new state, the counters it writes and what it logs. */
  function Local(caps: Caps, t: Task, act: Act, c: Counters, id: nat): (Task, Counters, seq<Event>)
    requires CanDo(t, act)
  {
    match act
    case Offer(pool) => (t.(sel := NextCandidate(pool)), c, [])
    case Load => (t.(sel := Trying(t.sel.pool, Get(c.req, t.sel.pool[0]))), c, [])
    case Cas(spurious) =>
      var b, n := t.sel.pool[0], t.sel.count;
      if b.model in caps && n >= caps[b.model] then (t.(sel := NextCandidate(t.sel.pool[1..])), c, [])
      else if !spurious && Get(c.req, b) == n then
        var r := Res(id, b, t.tokens);
        (t.(sel := Counted(r)), c.(req := c.req[b := SatAdd(n)]), [AddReq(r)])
      else (t.(sel := Trying(t.sel.pool, Get(c.req, b))), c, [])
    case Fetch =>
      var r := t.sel.r;
      (t.(sel := Ready(Some(r))),
       c.(tok := c.tok[r.bucket := WrapAdd(Get(c.tok, r.bucket), r.tokens)]), [AddTok(r)])
    case Deliver =>
      var r := t.sel.result;
      if t.kind.Client? then (t.(sel := NoSelect, driver := Gone, client := r), c, [])
      else (t.(sel := NoSelect, driver := Serving, guard := r, called := t.called + [r.value.bucket.model]), c, [])
    case Refuse(sleep) => (t.(sel := NoSelect, driver := if sleep then Sleeping else Gone), c, [])
    case Wake => (t.(driver := AwaitSelect(true), sel := Filtering), c, [])
    case Drop => (Spawn(t, t.guard).(driver := Gone, guard := None), c, [])
    case Orphan => (Spawn(t, t.sel.result).(sel := NoSelect), c, [])
    case Report(o) =>
      var m := t.guard.value.bucket.model;
      var after := match o
        case Finish => Return
        case Skip => Again(m, true, false)
        case Limited(retryPin) => Again(m, !retryPin, true);
      (Spawn(t, t.guard).(guard := None, driver := AwaitReport(after)), c, [])
    case JobLoad =>
      if t.job.ReqLoad? then (t.(job := ReqTry(t.job.r, Get(c.req, t.job.r.bucket))), c, [])
      else (t.(job := TokTry(t.job.r, Get(c.tok, t.job.r.bucket))), c, [])
    case JobCas(spurious) =>
      var r, n := t.job.r, t.job.count;
      if t.job.ReqTry? then
        if !spurious && Get(c.req, r.bucket) == n
        then (t.(job := TokLoad(r)), c.(req := c.req[r.bucket := SatSub(n, 1)]), [SubReq(r)])
        else (t.(job := ReqTry(r, Get(c.req, r.bucket))), c, [])
      else
        if !spurious && Get(c.tok, r.bucket) == n
        then (t.(job := JobDone), c.(tok := c.tok[r.bucket := SatSub(n, r.tokens)]), [SubTok(r)])
        else (t.(job := TokTry(r, Get(c.tok, r.bucket))), c, [])
    case ReportReturns =>
      (match t.driver.after
       case Return => t.(driver := Gone)
       case Again(m, exclude, quota) =>
         if quota then t.(driver := AwaitQuota(m, exclude)) else NextAttempt(t, m, exclude), c, [])
    case QuotaReturns => (NextAttempt(t, t.driver.model, t.driver.exclude), c, [])
    case ClientReport => (Spawn(t, t.client).(client := None), c, [])
  }

  // ---- steps of the whole system ----

  /** A request as it enters: nothing held, its first selection already spawned. */
  predicate Entering(t: Task) {
    t.tokens <= U32_MAX && t.attempt == 0 && t.called == [] && t.driver == AwaitSelect(false) &&
    t.sel == Filtering && t.guard.None? && t.client.None? && t.job.NoJob?
  }

  predicate Enabled(s: State, a: Action) {
    match a
    case Arrive(t) => Entering(t)
    case Do(i, act) => i < |s.tasks| && CanDo(s.tasks[i], act)
    case Reap(i) => i < |s.tasks| && Finished(s.tasks[i])
  }

  function Apply(caps: Caps, s: State, a: Action): State
    requires Enabled(s, a)
  {
    match a
    case Arrive(t) => s.(tasks := s.tasks + [t])
    case Do(i, act) =>
      var (t, c, es) := Local(caps, s.tasks[i], act, s.counters, s.nextId);
      State(c, s.tasks[i := t], s.log + es, s.nextId + |es|)
    case Reap(i) => s.(tasks := s.tasks[..i] + s.tasks[i + 1..])
  }

  /** `run` can be taken from `s`, with never more live requests than the counters can count. */
  ghost predicate Runs(caps: Caps, base: Counters, s: State, run: seq<Action>)
    decreases |run|
  {
    Roomy(base, s) &&
    (run == [] || (Enabled(s, run[0]) && Runs(caps, base, Apply(caps, s, run[0]), run[1..])))
  }

  ghost function Exec(caps: Caps, base: Counters, s: State, run: seq<Action>): State
    requires Runs(caps, base, s, run)
    decreases |run|
  {
    if run == [] then s else Exec(caps, base, Apply(caps, s, run[0]), run[1..])
  }

  /** Fewer live requests than a 32-bit counter holds, and their tokens fit a 64-bit one. */
  ghost predicate Roomy(base: Counters, s: State) {
    forall b :: Get(base.req, b) + |s.tasks| < U32_MAX && Get(base.tok, b) + |s.tasks| * U32_MAX <= U64_MAX
  }

  ghost predicate Quiescent(s: State) { forall t :: t in s.tasks ==> Finished(t) }

  function Start(base: Counters): State { State(base, [], [], 0) }

  // ---- what a task holds ----

  function OfOption(o: Option<Res>, f: Res -> nat): nat { if o.Some? then f(o.value) else 0 }

  /** Weight of the reservations whose request this task has counted and not yet given back. */
  function ReqOwned(t: Task, f: Res -> nat): nat {
    (match t.sel case Counted(r) => f(r) case Ready(o) => OfOption(o, f) case _ => 0)
    + OfOption(t.guard, f) + OfOption(t.client, f)
    + (match t.job case ReqLoad(r) => f(r) case ReqTry(r, _) => f(r) case _ => 0)
  }

  /** The same for tokens, which are added after the request and given back after it. */
  function TokOwned(t: Task, f: Res -> nat): nat {
    (match t.sel case Ready(o) => OfOption(o, f) case _ => 0)
    + OfOption(t.guard, f) + OfOption(t.client, f)
    + (if Busy(t.job) then f(t.job.r) else 0)
  }

  function ReqW(f: Res -> nat): Task -> nat { (t: Task) => ReqOwned(t, f) }
  function TokW(f: Res -> nat): Task -> nat { (t: Task) => TokOwned(t, f) }
  function AddingW(r: Res): Task -> nat { (t: Task) => if t.sel == Counted(r) then 1 else 0 }

  function InBucket(b: Bucket): Res -> nat { (r: Res) => if r.bucket == b then 1 else 0 }
  function TokensIn(b: Bucket): Res -> nat { (r: Res) => if r.bucket == b then r.tokens else 0 }
  function Exactly(x: Res): Res -> nat { (r: Res) => if r == x then 1 else 0 }
  function Any(): Res -> nat { (r: Res) => 1 }

  function Count(log: seq<Event>, e: Event): nat { multiset(log)[e] }

  // ---- invariant ----

  predicate HeldOk(t: Task, r: Res) { r.tokens == t.tokens }

  predicate NoDup(s: seq<nat>) { forall i, j :: 0 <= i < j < |s| ==> s[i] != s[j] }

  /** Models already called are excluded, except the ones a pinned request may call again. */
  predicate Visited(t: Task, current: set<nat>) {
    t.pinWait || (forall m :: m in t.called ==> m in t.excluded || m in current)
  }

  predicate SelOk(t: Task) {
    match t.sel
    case Loading(pool) => pool != [] && forall b :: b in pool ==> b.model !in t.excluded
    case Trying(pool, _) => pool != [] && forall b :: b in pool ==> b.model !in t.excluded
    case Counted(r) => HeldOk(t, r) && r.bucket.model !in t.excluded
    case Ready(Some(r)) => HeldOk(t, r) && r.bucket.model !in t.excluded
    case _ => true
  }

  predicate JobOk(t: Task) { Busy(t.job) ==> HeldOk(t, t.job.r) }

  predicate DriverOk(t: Task) {
    match t.driver
    case AwaitSelect(_) =>
      t.guard.None? && t.client.None? && !t.sel.NoSelect? && !Busy(t.job) && Visited(t, {}) && |t.called| <= t.attempt
    case Sleeping =>
      t.guard.None? && t.client.None? && t.sel.NoSelect? && !Busy(t.job) && Visited(t, {}) && |t.called| <= t.attempt
    case Serving =>
      t.guard.Some? && t.client.None? && t.sel.NoSelect? && !Busy(t.job) && HeldOk(t, t.guard.value) &&
      Visited(t, {t.guard.value.bucket.model})
    case AwaitReport(after) =>
      t.guard.None? && t.client.None? && t.sel.NoSelect? &&
      (after.Again? ==> Visited(t, {after.model}) && (after.exclude || t.pinWait))
    case AwaitQuota(m, exclude) =>
      t.guard.None? && t.client.None? && t.sel.NoSelect? && !Busy(t.job) && Visited(t, {m}) && (exclude || t.pinWait)
    case Gone =>
      t.guard.None? && (t.client.Some? ==> HeldOk(t, t.client.value)) &&
      (t.client.Some? || Busy(t.job) ==> t.sel.NoSelect?) && !(t.client.Some? && Busy(t.job))
  }

  predicate TaskOk(t: Task) {
    t.tokens <= U32_MAX && t.attempt < MAX_PROVIDER_ATTEMPTS && |t.called| <= t.attempt + 1 &&
    (t.pinWait || NoDup(t.called)) && SelOk(t) && JobOk(t) && DriverOk(t)
  }

  /** Counters are what they were at the start plus what is outstanding. */
  ghost predicate Balanced(base: Counters, s: State) {
    forall b ::
      Get(s.counters.req, b) == Get(base.req, b) + Total(s.tasks, ReqW(InBucket(b))) &&
      Get(s.counters.tok, b) == Get(base.tok, b) + Total(s.tasks, TokW(TokensIn(b)))
  }

  /** Every reservation ever counted is either given back or owned by exactly one place. */
  ghost predicate Accounted(s: State) {
    forall r ::
      Count(s.log, AddReq(r)) == Count(s.log, SubReq(r)) + Total(s.tasks, ReqW(Exactly(r))) &&
      Count(s.log, AddTok(r)) == Count(s.log, SubTok(r)) + Total(s.tasks, TokW(Exactly(r))) &&
      Count(s.log, AddReq(r)) == Count(s.log, AddTok(r)) + Total(s.tasks, AddingW(r)) &&
      Count(s.log, AddReq(r)) <= (if r.id < s.nextId then 1 else 0)
  }

  ghost predicate WithinCaps(caps: Caps, base: Counters, s: State) {
    forall b: Bucket :: b.model in caps && Get(base.req, b) <= caps[b.model] ==> Get(s.counters.req, b) <= caps[b.model]
  }

  ghost predicate Inv(caps: Caps, base: Counters, s: State) {
    (forall t :: t in s.tasks ==> TaskOk(t)) && Balanced(base, s) && Accounted(s) && WithinCaps(caps, base, s)
  }

  // ---- one step of one task ----

  /** Each task holds at most one reservation at a time. */
  lemma HoldsAtMostOne(t: Task)
    requires TaskOk(t)
    ensures ReqOwned(t, Any()) <= 1 && TokOwned(t, Any()) <= 1
    ensures forall b :: ReqOwned(t, InBucket(b)) <= 1 && TokOwned(t, TokensIn(b)) <= U32_MAX
  {
  }

  /** A model that is not among the excluded ones has not been called yet, unless the request is pinned. */
  lemma DeliverKeepsTaskOk(caps: Caps, t: Task, c: Counters, id: nat)
    requires TaskOk(t) && CanDo(t, Deliver)
    ensures TaskOk(Local(caps, t, Deliver, c, id).0)
  {
    var m := t.sel.result.value.bucket.model;
    var called := t.called + [m];
    assert t.pinWait || m !in t.called;
    assert t.pinWait || NoDup(called);
    var u := Local(caps, t, Deliver, c, id).0;
    assert Visited(u, {m});
  }

  lemma NextAttemptKeepsTaskOk(t: Task, m: nat, exclude: bool)
    requires TaskOk(t) && t.guard.None? && t.client.None? && t.sel.NoSelect? && !Busy(t.job)
    requires Visited(t, {m}) && (exclude || t.pinWait)
    ensures TaskOk(NextAttempt(t, m, exclude))
  {
    var u := NextAttempt(t, m, exclude);
    assert Visited(u, {});
  }

  lemma LocalKeepsTaskOk(caps: Caps, t: Task, act: Act, c: Counters, id: nat)
    requires TaskOk(t) && CanDo(t, act)
    ensures TaskOk(Local(caps, t, act, c, id).0)
  {
    hide TaskOk, CanDo, Local;
    if act.Deliver? {
      DeliverKeepsTaskOk(caps, t, c, id);
    } else if BySelector(act) {
      SelectorKeepsTaskOk(caps, t, act, c, id);
    } else if ByJob(act) {
      JobKeepsTaskOk(caps, t, act, c, id);
    } else if ByAttempt(act) {
      AttemptKeepsTaskOk(caps, t, act, c, id);
    } else {
      DriverKeepsTaskOk(caps, t, act, c, id);
    }
  }

  lemma AttemptKeepsTaskOk(caps: Caps, t: Task, act: Act, c: Counters, id: nat)
    requires TaskOk(t) && CanDo(t, act) && (act.ReportReturns? || act.QuotaReturns?)
    ensures TaskOk(Local(caps, t, act, c, id).0)
  {
    if act.QuotaReturns? {
      NextAttemptKeepsTaskOk(t, t.driver.model, t.driver.exclude);
    } else if t.driver.after.Again? && !t.driver.after.quota {
      NextAttemptKeepsTaskOk(t, t.driver.after.model, t.driver.after.exclude);
    }
  }

  predicate BySelector(act: Act) { act.Offer? || act.Load? || act.Cas? || act.Fetch? }

  predicate ByJob(act: Act) { act.JobLoad? || act.JobCas? }

  predicate ByAttempt(act: Act) { act.Deliver? || act.ReportReturns? || act.QuotaReturns? }

  lemma SelectorKeepsTaskOk(caps: Caps, t: Task, act: Act, c: Counters, id: nat)
    requires TaskOk(t) && CanDo(t, act) && BySelector(act)
    ensures TaskOk(Local(caps, t, act, c, id).0)
  {
    assert Local(caps, t, act, c, id).0 == t.(sel := Local(caps, t, act, c, id).0.sel);
  }

  lemma JobKeepsTaskOk(caps: Caps, t: Task, act: Act, c: Counters, id: nat)
    requires TaskOk(t) && CanDo(t, act) && ByJob(act)
    ensures TaskOk(Local(caps, t, act, c, id).0)
  {
    assert Local(caps, t, act, c, id).0 == t.(job := Local(caps, t, act, c, id).0.job);
  }

  lemma DriverKeepsTaskOk(caps: Caps, t: Task, act: Act, c: Counters, id: nat)
    requires TaskOk(t) && CanDo(t, act) && !BySelector(act) && !ByJob(act) && !ByAttempt(act)
    ensures TaskOk(Local(caps, t, act, c, id).0)
  {
    var u := Local(caps, t, act, c, id).0;
    assert u.called == t.called && u.excluded == t.excluded;
  }

  function Sign(es: seq<Event>, f: Res -> nat, plus: bool, req: bool): nat {
    if es == [] then 0
    else match es[0]
      case AddReq(r) => if plus && req then f(r) else 0
      case SubReq(r) => if !plus && req then f(r) else 0
      case AddTok(r) => if plus && !req then f(r) else 0
      case SubTok(r) => if !plus && !req then f(r) else 0
  }

  /** What a step owns after it and gives back in it is what it owned before it and takes in it. */
  predicate Moves(t: Task, u: Task, es: seq<Event>, f: Res -> nat) {
    |es| <= 1 &&
    ReqOwned(u, f) + Sign(es, f, false, true) == ReqOwned(t, f) + Sign(es, f, true, true) &&
    TokOwned(u, f) + Sign(es, f, false, false) == TokOwned(t, f) + Sign(es, f, true, false)
  }

  /** Ownership moves exactly with what is logged. */
  lemma LocalMovesOwnership(caps: Caps, t: Task, act: Act, c: Counters, id: nat, f: Res -> nat)
    requires TaskOk(t) && CanDo(t, act)
    ensures var (u, d, es) := Local(caps, t, act, c, id); Moves(t, u, es, f)
  {
    if BySelector(act) {
      SelectorMovesOwnership(caps, t, act, c, id, f);
    } else if ByJob(act) {
      JobMovesOwnership(caps, t, act, c, id, f);
    } else {
      DriverMovesOwnership(caps, t, act, c, id, f);
    }
  }

  lemma SelectorMovesOwnership(caps: Caps, t: Task, act: Act, c: Counters, id: nat, f: Res -> nat)
    requires TaskOk(t) && CanDo(t, act) && BySelector(act)
    ensures var (u, d, es) := Local(caps, t, act, c, id); Moves(t, u, es, f)
  {
  }

  lemma JobMovesOwnership(caps: Caps, t: Task, act: Act, c: Counters, id: nat, f: Res -> nat)
    requires TaskOk(t) && CanDo(t, act) && ByJob(act)
    ensures var (u, d, es) := Local(caps, t, act, c, id); Moves(t, u, es, f)
  {
  }

  lemma DriverMovesOwnership(caps: Caps, t: Task, act: Act, c: Counters, id: nat, f: Res -> nat)
    requires TaskOk(t) && CanDo(t, act) && !BySelector(act) && !ByJob(act)
    ensures var (u, d, es) := Local(caps, t, act, c, id); Moves(t, u, es, f)
  {
    if act.Deliver? || act.Refuse? || act.Wake? || act.Orphan? {
      ClaimMovesOwnership(caps, t, act, c, id, f);
    } else if act.Drop? || act.Report? || act.ClientReport? {
      SpawnMovesOwnership(caps, t, act, c, id, f);
    } else {
      ReturnMovesOwnership(caps, t, act, c, id, f);
    }
  }

  /** The result of a selection is claimed, given up or orphaned. */
  lemma ClaimMovesOwnership(caps: Caps, t: Task, act: Act, c: Counters, id: nat, f: Res -> nat)
    requires TaskOk(t) && CanDo(t, act) && (act.Deliver? || act.Refuse? || act.Wake? || act.Orphan?)
    ensures var (u, d, es) := Local(caps, t, act, c, id); Moves(t, u, es, f)
  {
  }

  /** A guard or a client's selection goes to a spawned thread. */
  lemma SpawnMovesOwnership(caps: Caps, t: Task, act: Act, c: Counters, id: nat, f: Res -> nat)
    requires TaskOk(t) && CanDo(t, act) && (act.Drop? || act.Report? || act.ClientReport?)
    ensures var (u, d, es) := Local(caps, t, act, c, id); Moves(t, u, es, f)
  {
  }

  lemma ReturnMovesOwnership(caps: Caps, t: Task, act: Act, c: Counters, id: nat, f: Res -> nat)
    requires TaskOk(t) && CanDo(t, act) && (act.ReportReturns? || act.QuotaReturns?)
    ensures var (u, d, es) := Local(caps, t, act, c, id); Moves(t, u, es, f)
  {
  }

  /** The effect of an atomic operation on the counters, in one piece. */
  function Perform(c: Counters, e: Event): Counters {
    match e
    case AddReq(r) => c.(req := c.req[r.bucket := SatAdd(Get(c.req, r.bucket))])
    case AddTok(r) => c.(tok := c.tok[r.bucket := WrapAdd(Get(c.tok, r.bucket), r.tokens)])
    case SubReq(r) => c.(req := c.req[r.bucket := SatSub(Get(c.req, r.bucket), 1)])
    case SubTok(r) => c.(tok := c.tok[r.bucket := SatSub(Get(c.tok, r.bucket), r.tokens)])
  }

  /**
   Linearisation: a step of a compare-exchange loop either leaves the counters alone or performs one
   atomic operation on their present value, and a request is only counted below its cap.
   */
  lemma Linearises(caps: Caps, t: Task, act: Act, c: Counters, id: nat)
    requires CanDo(t, act)
    ensures var (u, d, es) := Local(caps, t, act, c, id);
            (es == [] ==> d == c) &&
            (es != [] ==> es == [es[0]] && d == Perform(c, es[0])) &&
            (es != [] && es[0].AddReq? ==>
               es[0].r == Res(id, t.sel.pool[0], t.tokens) &&
               (es[0].r.bucket.model in caps ==> Get(c.req, es[0].r.bucket) < caps[es[0].r.bucket.model]))
  {
  }

  // ---- one step of the whole system ----

  lemma CountAppend(log: seq<Event>, es: seq<Event>, e: Event)
    ensures Count(log + es, e) == Count(log, e) + Count(es, e)
  {
    assert multiset(log + es) == multiset(log) + multiset(es);
  }

  /** The outstanding load of a bucket is at most one request, and one 32-bit token count, per task. */
  lemma LoadBound(tasks: seq<Task>, b: Bucket)
    requires forall t :: t in tasks ==> TaskOk(t)
    ensures Total(tasks, ReqW(InBucket(b))) <= |tasks|
    ensures Total(tasks, TokW(TokensIn(b))) <= |tasks| * U32_MAX
  {
    forall t | t in tasks
      ensures ReqW(InBucket(b))(t) <= 1 && TokW(TokensIn(b))(t) <= U32_MAX
    {
      HoldsAtMostOne(t);
    }
    TotalBound(tasks, ReqW(InBucket(b)), 1);
    TotalBound(tasks, TokW(TokensIn(b)), U32_MAX);
  }

  lemma UpdatedTasksOk(caps: Caps, s: State, i: nat, act: Act)
    requires (forall t :: t in s.tasks ==> TaskOk(t)) && Enabled(s, Do(i, act))
    ensures forall t :: t in Apply(caps, s, Do(i, act)).tasks ==> TaskOk(t)
  {
    LocalKeepsTaskOk(caps, s.tasks[i], act, s.counters, s.nextId);
  }

  /** What has to hold for none of the counter operations to clip or wrap. */
  predicate Unclipped(c: Counters, e: Event) {
    match e
    case AddReq(r) => Get(c.req, r.bucket) < U32_MAX
    case AddTok(r) => Get(c.tok, r.bucket) + r.tokens <= U64_MAX
    case SubReq(r) => 1 <= Get(c.req, r.bucket)
    case SubTok(r) => r.tokens <= Get(c.tok, r.bucket)
  }

  /** In a matched run neither the saturating increment, the wrapping addition nor the saturating subtractions clip. */
  lemma NeverClips(caps: Caps, base: Counters, s: State, i: nat, act: Act)
    requires Inv(caps, base, s) && Roomy(base, s) && Enabled(s, Do(i, act))
    ensures var es := Local(caps, s.tasks[i], act, s.counters, s.nextId).2;
            es != [] ==> Unclipped(s.counters, es[0])
  {
    var (u, d, es) := Local(caps, s.tasks[i], act, s.counters, s.nextId);
    if es != [] {
      var b := es[0].r.bucket;
      var tasks := s.tasks[i := u];
      UpdatedTasksOk(caps, s, i, act);
      LoadBound(s.tasks, b);
      LoadBound(tasks, b);
      LocalMovesOwnership(caps, s.tasks[i], act, s.counters, s.nextId, InBucket(b));
      LocalMovesOwnership(caps, s.tasks[i], act, s.counters, s.nextId, TokensIn(b));
      TotalUpdate(s.tasks, i, u, ReqW(InBucket(b)));
      TotalUpdate(s.tasks, i, u, TokW(TokensIn(b)));
    }
  }

  /** An unclipped operation changes each counter by exactly what it logs. */
  lemma UnclippedIsExact(c: Counters, e: Event, b: Bucket)
    requires Unclipped(c, e)
    ensures Get(Perform(c, e).req, b) + Sign([e], InBucket(b), false, true) ==
            Get(c.req, b) + Sign([e], InBucket(b), true, true)
    ensures Get(Perform(c, e).tok, b) + Sign([e], TokensIn(b), false, false) ==
            Get(c.tok, b) + Sign([e], TokensIn(b), true, false)
  {
  }

  lemma DoKeepsBalance(caps: Caps, base: Counters, s: State, i: nat, act: Act)
    requires Inv(caps, base, s) && Roomy(base, s) && Enabled(s, Do(i, act))
    ensures Balanced(base, Apply(caps, s, Do(i, act)))
  {
    var t := s.tasks[i];
    var (u, d, es) := Local(caps, t, act, s.counters, s.nextId);
    Linearises(caps, t, act, s.counters, s.nextId);
    NeverClips(caps, base, s, i, act);
    forall b
      ensures Get(d.req, b) == Get(base.req, b) + Total(s.tasks[i := u], ReqW(InBucket(b)))
      ensures Get(d.tok, b) == Get(base.tok, b) + Total(s.tasks[i := u], TokW(TokensIn(b)))
    {
      BucketBalance(base, s, i, u, d, es, b) by {
        LocalMovesOwnership(caps, t, act, s.counters, s.nextId, InBucket(b));
        LocalMovesOwnership(caps, t, act, s.counters, s.nextId, TokensIn(b));
      }
    }
  }

  lemma BucketBalance(base: Counters, s: State, i: nat, u: Task, d: Counters, es: seq<Event>, b: Bucket)
    requires i < |s.tasks| && (es == [] ==> d == s.counters)
    requires es != [] ==> es == [es[0]] && Unclipped(s.counters, es[0]) && d == Perform(s.counters, es[0])
    requires Get(s.counters.req, b) == Get(base.req, b) + Total(s.tasks, ReqW(InBucket(b)))
    requires Get(s.counters.tok, b) == Get(base.tok, b) + Total(s.tasks, TokW(TokensIn(b)))
    requires ReqOwned(u, InBucket(b)) + Sign(es, InBucket(b), false, true)
             == ReqOwned(s.tasks[i], InBucket(b)) + Sign(es, InBucket(b), true, true)
    requires TokOwned(u, TokensIn(b)) + Sign(es, TokensIn(b), false, false)
             == TokOwned(s.tasks[i], TokensIn(b)) + Sign(es, TokensIn(b), true, false)
    ensures Get(d.req, b) == Get(base.req, b) + Total(s.tasks[i := u], ReqW(InBucket(b)))
    ensures Get(d.tok, b) == Get(base.tok, b) + Total(s.tasks[i := u], TokW(TokensIn(b)))
  {
    TotalUpdate(s.tasks, i, u, ReqW(InBucket(b)));
    TotalUpdate(s.tasks, i, u, TokW(TokensIn(b)));
    if es != [] {
      UnclippedIsExact(s.counters, es[0], b);
    }
  }

  lemma LocalMovesAdding(caps: Caps, t: Task, act: Act, c: Counters, id: nat, r: Res)
    requires TaskOk(t) && CanDo(t, act)
    ensures var (u, d, es) := Local(caps, t, act, c, id);
            AddingW(r)(u) + Count(es, AddTok(r)) == AddingW(r)(t) + Count(es, AddReq(r))
  {
  }

  lemma SignsAreCounts(es: seq<Event>, r: Res)
    requires |es| <= 1
    ensures Sign(es, Exactly(r), true, true) == Count(es, AddReq(r))
    ensures Sign(es, Exactly(r), false, true) == Count(es, SubReq(r))
    ensures Sign(es, Exactly(r), true, false) == Count(es, AddTok(r))
    ensures Sign(es, Exactly(r), false, false) == Count(es, SubTok(r))
  {
    if es != [] {
      assert es == [es[0]];
    }
  }

  lemma DoKeepsAccount(caps: Caps, base: Counters, s: State, i: nat, act: Act)
    requires Inv(caps, base, s) && Enabled(s, Do(i, act))
    ensures Accounted(Apply(caps, s, Do(i, act)))
  {
    var (u, d, es) := Local(caps, s.tasks[i], act, s.counters, s.nextId);
    var s' := Apply(caps, s, Do(i, act));
    Linearises(caps, s.tasks[i], act, s.counters, s.nextId);
    forall r
      ensures Count(s'.log, AddReq(r)) == Count(s'.log, SubReq(r)) + Total(s'.tasks, ReqW(Exactly(r)))
      ensures Count(s'.log, AddTok(r)) == Count(s'.log, SubTok(r)) + Total(s'.tasks, TokW(Exactly(r)))
      ensures Count(s'.log, AddReq(r)) == Count(s'.log, AddTok(r)) + Total(s'.tasks, AddingW(r))
      ensures Count(s'.log, AddReq(r)) <= (if r.id < s'.nextId then 1 else 0)
    {
      LocalMovesOwnership(caps, s.tasks[i], act, s.counters, s.nextId, Exactly(r));
      LocalMovesAdding(caps, s.tasks[i], act, s.counters, s.nextId, r);
      SignsAreCounts(es, r);
      TotalUpdate(s.tasks, i, u, ReqW(Exactly(r)));
      TotalUpdate(s.tasks, i, u, TokW(Exactly(r)));
      TotalUpdate(s.tasks, i, u, AddingW(r));
      CountAppend(s.log, es, AddReq(r));
      CountAppend(s.log, es, SubReq(r));
      CountAppend(s.log, es, AddTok(r));
      CountAppend(s.log, es, SubTok(r));
    }
  }

  lemma DoKeepsCaps(caps: Caps, base: Counters, s: State, i: nat, act: Act)
    requires Inv(caps, base, s) && Enabled(s, Do(i, act))
    ensures WithinCaps(caps, base, Apply(caps, s, Do(i, act)))
  {
    Linearises(caps, s.tasks[i], act, s.counters, s.nextId);
  }

  lemma IdleWeights(t: Task, f: Res -> nat, r: Res)
    requires Finished(t) || Entering(t)
    ensures ReqOwned(t, f) == 0 && TokOwned(t, f) == 0 && AddingW(r)(t) == 0
  {
  }

  lemma EnteringIsOk(t: Task)
    requires Entering(t)
    ensures TaskOk(t)
  {
  }

  lemma IdleTotals(s: State, a: Action, f: Res -> nat, r: Res)
    requires Enabled(s, a) && !a.Do?
    ensures var tasks := if a.Arrive? then s.tasks + [a.t] else s.tasks[..a.i] + s.tasks[a.i + 1..];
            Total(tasks, ReqW(f)) == Total(s.tasks, ReqW(f)) && Total(tasks, TokW(f)) == Total(s.tasks, TokW(f)) &&
            Total(tasks, AddingW(r)) == Total(s.tasks, AddingW(r))
  {
    var t := if a.Arrive? then a.t else s.tasks[a.i];
    IdleWeights(t, f, r);
    if a.Arrive? {
      TotalAppend(s.tasks, t, ReqW(f));
      TotalAppend(s.tasks, t, TokW(f));
      TotalAppend(s.tasks, t, AddingW(r));
    } else {
      TotalRemove(s.tasks, a.i, ReqW(f));
      TotalRemove(s.tasks, a.i, TokW(f));
      TotalRemove(s.tasks, a.i, AddingW(r));
    }
  }

  /** Tasks that hold nothing come and go without touching counters or accounts. */
  lemma ArriveReapKeepInv(caps: Caps, base: Counters, s: State, a: Action)
    requires Inv(caps, base, s) && Enabled(s, a) && !a.Do?
    ensures Inv(caps, base, Apply(caps, s, a))
  {
    var s' := Apply(caps, s, a);
    forall f
      ensures Total(s'.tasks, ReqW(f)) == Total(s.tasks, ReqW(f)) && Total(s'.tasks, TokW(f)) == Total(s.tasks, TokW(f))
    {
      IdleTotals(s, a, f, Res(0, Bucket(0, None), 0));
    }
    forall r
      ensures Total(s'.tasks, AddingW(r)) == Total(s.tasks, AddingW(r))
    {
      IdleTotals(s, a, Any(), r);
    }
    if a.Arrive? {
      EnteringIsOk(a.t);
    }
    hide TaskOk, Entering, Finished, ReqW, TokW, AddingW;
  }

  lemma StepKeepsInv(caps: Caps, base: Counters, s: State, a: Action)
    requires Inv(caps, base, s) && Roomy(base, s) && Enabled(s, a)
    ensures Inv(caps, base, Apply(caps, s, a))
  {
    if a.Do? {
      UpdatedTasksOk(caps, s, a.i, a.act);
      DoKeepsBalance(caps, base, s, a.i, a.act);
      DoKeepsAccount(caps, base, s, a.i, a.act);
      DoKeepsCaps(caps, base, s, a.i, a.act);
    } else {
      ArriveReapKeepInv(caps, base, s, a);
    }
  }

  lemma {:induction false} RunKeepsInv(caps: Caps, base: Counters, s: State, run: seq<Action>)
    requires Inv(caps, base, s) && Runs(caps, base, s, run)
    ensures Inv(caps, base, Exec(caps, base, s, run))
    decreases |run|
  {
    if run != [] {
      StepKeepsInv(caps, base, s, run[0]);
      RunKeepsInv(caps, base, Apply(caps, s, run[0]), run[1..]);
    }
  }

  // ---- main results ----

  lemma StartInv(caps: Caps, base: Counters)
    ensures Inv(caps, base, Start(base))
  {
  }

  /**
   In every interleaving, each reservation that was ever counted has either been given back once or is
   owned by one task, and it is given back on its own bucket with its own token count.
   */
  lemma ReleasedAtMostOnce(caps: Caps, base: Counters, run: seq<Action>, r: Res)
    requires Runs(caps, base, Start(base), run)
    ensures var s := Exec(caps, base, Start(base), run);
            AddReq(r) in s.log ==>
              Count(s.log, AddReq(r)) == 1 &&
              Count(s.log, SubReq(r)) + Total(s.tasks, ReqW(Exactly(r))) == 1 &&
              Count(s.log, SubTok(r)) + Total(s.tasks, TokW(Exactly(r))) + Total(s.tasks, AddingW(r)) == 1
    ensures var s := Exec(caps, base, Start(base), run);
            AddReq(r) !in s.log ==> SubReq(r) !in s.log && SubTok(r) !in s.log && AddTok(r) !in s.log
  {
    StartInv(caps, base);
    RunKeepsInv(caps, base, Start(base), run);
  }

  /**
   When every task and spawned report has ended, each reservation was released exactly once and every counter is
   back.
   */
  lemma QuiescentRunRestoresCounters(caps: Caps, base: Counters, run: seq<Action>)
    requires Runs(caps, base, Start(base), run)
    requires Quiescent(Exec(caps, base, Start(base), run))
    ensures var s := Exec(caps, base, Start(base), run);
            (forall b :: Get(s.counters.req, b) == Get(base.req, b) && Get(s.counters.tok, b) == Get(base.tok, b)) &&
            (forall r :: Count(s.log, AddReq(r)) == Count(s.log, SubReq(r)) ==
                         Count(s.log, AddTok(r)) == Count(s.log, SubTok(r)) <= 1)
  {
    StartInv(caps, base);
    RunKeepsInv(caps, base, Start(base), run);
    var s := Exec(caps, base, Start(base), run);
    forall f
      ensures Total(s.tasks, ReqW(f)) == 0 && Total(s.tasks, TokW(f)) == 0
    {
      TotalZero(s.tasks, ReqW(f));
      TotalZero(s.tasks, TokW(f));
    }
    forall r
      ensures Total(s.tasks, AddingW(r)) == 0
    {
      TotalZero(s.tasks, AddingW(r));
    }
  }

  /** With a fixed cap, requests in flight never exceed it, whatever the number of tasks. */
  lemma CapNeverExceeded(caps: Caps, base: Counters, run: seq<Action>, b: Bucket)
    requires Runs(caps, base, Start(base), run)
    requires b.model in caps && Get(base.req, b) <= caps[b.model]
    ensures Get(Exec(caps, base, Start(base), run).counters.req, b) <= caps[b.model]
  {
    StartInv(caps, base);
    RunKeepsInv(caps, base, Start(base), run);
  }

  /** A task makes at most four provider attempts and, unless pinned, never attempts one model twice. */
  lemma AttemptsAreBounded(caps: Caps, base: Counters, run: seq<Action>, t: Task)
    requires Runs(caps, base, Start(base), run)
    requires t in Exec(caps, base, Start(base), run).tasks
    ensures |t.called| <= MAX_PROVIDER_ATTEMPTS && (t.pinWait || NoDup(t.called))
    ensures ReqOwned(t, Any()) <= 1 && TokOwned(t, Any()) <= 1
  {
    StartInv(caps, base);
    RunKeepsInv(caps, base, Start(base), run);
    HoldsAtMostOne(t);
  }

  // ---- capacity can always be recovered ----

  /** The next step of a task that is dropped and then runs undisturbed. */
  function Wind(t: Task): Act {
    if !t.driver.Gone? then Drop
    else if t.client.Some? then ClientReport
    else if t.job.ReqLoad? || t.job.TokLoad? then JobLoad
    else if Busy(t.job) then JobCas(false)
    else match t.sel
      case Filtering => Offer([])
      case Loading(_) => Load
      case Trying(_, _) => Cas(false)
      case Counted(_) => Fetch
      case _ => Orphan
  }

  /** Drops, and what the gateway's own threads do after them: no client reports, no provider answers. */
  predicate Unattended(act: Act) {
    act.Drop? || act.Offer? || act.Load? || act.Cas? || act.Fetch? || act.Orphan? || act.JobLoad? || act.JobCas?
  }

  predicate OnlyDrops(run: seq<Action>) { forall a :: a in run ==> a.Do? && Unattended(a.act) }

  lemma WindIsUnattended(caps: Caps, t: Task, c: Counters, id: nat)
    requires TaskOk(t) && !Finished(t) && t.client.None? && CanDo(t, Wind(t))
    ensures Unattended(Wind(t)) && Local(caps, t, Wind(t), c, id).0.client.None?
  {
  }

  /** Steps still needed to wind a task down. */
  function Rank(c: Counters, t: Task): nat {
    (if t.driver.Gone? then 0 else 1) + (if t.guard.Some? then 7 else 0) + (if t.client.Some? then 7 else 0)
    + (match t.job
       case ReqLoad(_) => 6
       case ReqTry(r, n) => if Get(c.req, r.bucket) == n then 4 else 5
       case TokLoad(_) => 3
       case TokTry(r, n) => if Get(c.tok, r.bucket) == n then 1 else 2
       case _ => 0)
    + (match t.sel
       case NoSelect => 0
       case Filtering => 2
       case Loading(pool) => 11 + 3 * |pool|
       case Trying(pool, n) => 9 + 3 * |pool| + (if pool != [] && Get(c.req, pool[0]) == n then 0 else 1)
       case Counted(_) => 9
       case Ready(o) => if o.Some? then 8 else 1)
  }

  lemma WindProgresses(caps: Caps, t: Task, c: Counters, id: nat)
    requires TaskOk(t) && !Finished(t)
    ensures CanDo(t, Wind(t))
    ensures var (u, d, es) := Local(caps, t, Wind(t), c, id); Rank(d, u) < Rank(c, t)
  {
    if t.driver.Gone? && t.client.None? {
      if Busy(t.job) {
        JobProgresses(caps, t, c, id);
      } else {
        SelectionProgresses(caps, t, c, id);
      }
    }
  }

  lemma JobProgresses(caps: Caps, t: Task, c: Counters, id: nat)
    requires TaskOk(t) && t.driver.Gone? && t.client.None? && Busy(t.job)
    ensures CanDo(t, Wind(t))
    ensures var (u, d, es) := Local(caps, t, Wind(t), c, id); Rank(d, u) < Rank(c, t)
  {
  }

  lemma SelectionProgresses(caps: Caps, t: Task, c: Counters, id: nat)
    requires TaskOk(t) && !Finished(t) && t.driver.Gone? && t.client.None? && !Busy(t.job)
    ensures CanDo(t, Wind(t))
    ensures var (u, d, es) := Local(caps, t, Wind(t), c, id); Rank(d, u) < Rank(c, t)
  {
  }

  lemma {:induction false} RunConcat(caps: Caps, base: Counters, s: State, run: seq<Action>, more: seq<Action>)
    requires Runs(caps, base, s, run) && Runs(caps, base, Exec(caps, base, s, run), more)
    ensures Runs(caps, base, s, run + more)
    ensures Exec(caps, base, s, run + more) == Exec(caps, base, Exec(caps, base, s, run), more)
    decreases |run|
  {
    if run == [] {
      assert run + more == more;
    } else {
      assert (run + more)[1..] == run[1..] + more;
      RunConcat(caps, base, Apply(caps, s, run[0]), run[1..], more);
    }
  }

  lemma RunPrepend(caps: Caps, base: Counters, s: State, a: Action, rest: seq<Action>)
    requires Roomy(base, s) && Enabled(s, a) && Runs(caps, base, Apply(caps, s, a), rest)
    ensures Runs(caps, base, s, [a] + rest)
    ensures Exec(caps, base, s, [a] + rest) == Exec(caps, base, Apply(caps, s, a), rest)
  {
    hide Roomy, Enabled, Apply;
    assert ([a] + rest)[1..] == rest;
  }

  lemma DoApplies(caps: Caps, base: Counters, s: State, i: nat, act: Act)
    requires Enabled(s, Do(i, act))
    ensures var s' := Apply(caps, s, Do(i, act));
            s'.tasks == s.tasks[i := Local(caps, s.tasks[i], act, s.counters, s.nextId).0] &&
            s'.counters == Local(caps, s.tasks[i], act, s.counters, s.nextId).1 && (Roomy(base, s) ==> Roomy(base, s'))
  {
    hide Local, CanDo;
  }

  /** A task dropped and left alone ends; it needs its client only to report a selection the client holds. */
  lemma {:induction false} WindTask(caps: Caps, base: Counters, s: State, i: nat) returns (run: seq<Action>)
    requires Inv(caps, base, s) && Roomy(base, s) && i < |s.tasks|
    ensures Runs(caps, base, s, run) && (s.tasks[i].client.None? ==> OnlyDrops(run))
    ensures var s' := Exec(caps, base, s, run);
            Inv(caps, base, s') && Roomy(base, s') && |s'.tasks| == |s.tasks| &&
            s'.tasks == s.tasks[i := s'.tasks[i]] && Finished(s'.tasks[i])
    decreases Rank(s.counters, s.tasks[i])
  {
    run := [];
    if !Finished(s.tasks[i]) {
      var a := Do(i, Wind(s.tasks[i]));
      WindProgresses(caps, s.tasks[i], s.counters, s.nextId);
      if s.tasks[i].client.None? {
        WindIsUnattended(caps, s.tasks[i], s.counters, s.nextId);
      }
      StepKeepsInv(caps, base, s, a);
      DoApplies(caps, base, s, i, Wind(s.tasks[i]));
      hide Inv, TaskOk, CanDo, Rank, Wind, Finished, Unattended, Local, Apply, Roomy, Runs, Exec;
      var rest := WindTask(caps, base, Apply(caps, s, a), i);
      RunPrepend(caps, base, s, a, rest);
      run := [a] + rest;
    }
  }

  lemma {:induction false} WindTasks(caps: Caps, base: Counters, s: State, n: nat) returns (run: seq<Action>)
    requires Inv(caps, base, s) && Roomy(base, s) && n <= |s.tasks|
    ensures Runs(caps, base, s, run) && ((forall t :: t in s.tasks ==> t.client.None?) ==> OnlyDrops(run))
    ensures var s' := Exec(caps, base, s, run);
            Inv(caps, base, s') && Roomy(base, s') && |s'.tasks| == |s.tasks| &&
            (forall j :: 0 <= j < n ==> Finished(s'.tasks[j])) && s'.tasks[n..] == s.tasks[n..]
  {
    run := [];
    if n > 0 {
      hide Inv, Finished, Unattended;
      var before := WindTasks(caps, base, s, n - 1);
      var middle := Exec(caps, base, s, before);
      assert middle.tasks[n - 1] == middle.tasks[n - 1..][0] == s.tasks[n - 1..][0] == s.tasks[n - 1];
      assert s.tasks[n - 1] in s.tasks;
      var last := WindTask(caps, base, middle, n - 1);
      RunConcat(caps, base, s, before, last);
      run := before + last;
      var s' := Exec(caps, base, s, run);
      assert s'.tasks[n..] == middle.tasks[n..] == middle.tasks[n - 1..][1..] == s.tasks[n - 1..][1..] == s.tasks[n..];
    }
  }

  /**
   Whatever has happened so far, the tasks can still end, and then no capacity is lost. Where a client holds a
   selection that takes the client's report; where none does, dropping every task is enough.
   */
  lemma CapacityIsRecoverable(caps: Caps, base: Counters, run: seq<Action>) returns (more: seq<Action>)
    requires Runs(caps, base, Start(base), run)
    ensures Runs(caps, base, Start(base), run + more)
    ensures var s := Exec(caps, base, Start(base), run + more);
            Quiescent(s) &&
            forall b :: Get(s.counters.req, b) == Get(base.req, b) && Get(s.counters.tok, b) == Get(base.tok, b)
    ensures (forall t :: t in Exec(caps, base, Start(base), run).tasks ==> t.client.None?) ==> OnlyDrops(more)
  {
    StartInv(caps, base);
    RunKeepsInv(caps, base, Start(base), run);
    var s := Exec(caps, base, Start(base), run);
    RunEndsRoomy(caps, base, Start(base), run);
    more := WindTasks(caps, base, s, |s.tasks|);
    RunConcat(caps, base, Start(base), run, more);
    QuiescentRunRestoresCounters(caps, base, run + more);
  }

  lemma {:induction false} RunEndsRoomy(caps: Caps, base: Counters, s: State, run: seq<Action>)
    requires Runs(caps, base, s, run)
    ensures Roomy(base, Exec(caps, base, s, run))
    decreases |run|
  {
    if run != [] {
      RunEndsRoomy(caps, base, Apply(caps, s, run[0]), run[1..]);
    }
  }
}
