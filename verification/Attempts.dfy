/** What a completion does after each outcome, and how a selection goes through its candidates, over whole runs. */
module Attempts {
  import opened Basics
  import opened Reservations

  // ---- one task within a run ----

  /** Where task `i` is after an action, unless it has been reaped. */
  function Moved(i: nat, a: Action): Option<nat> {
    match a
    case Reap(j) => if j < i then Some(i - 1) else if j == i then None else Some(i)
    case _ => Some(i)
  }

  function Place(i: nat, run: seq<Action>): Option<nat>
    decreases |run|
  {
    if run == [] then Some(i)
    else if Moved(i, run[0]).None? then None
    else Place(Moved(i, run[0]).value, run[1..])
  }

  /** The acts of task `i` in a run. */
  function Story(i: nat, run: seq<Action>): seq<Act>
    decreases |run|
  {
    if run == [] then []
    else
      (if run[0].Do? && run[0].i == i then [run[0].act] else []) +
      (if Moved(i, run[0]).None? then [] else Story(Moved(i, run[0]).value, run[1..]))
  }

  /** `acts` can take a task from `t` to `u`, whatever others do to the counters meanwhile. */
  ghost predicate Took(caps: Caps, t: Task, acts: seq<Act>, u: Task)
    decreases |acts|
  {
    if acts == [] then u == t
    else CanDo(t, acts[0]) && exists c, id :: Took(caps, Local(caps, t, acts[0], c, id).0, acts[1..], u)
  }

  lemma {:induction false} StoryIsTaken(caps: Caps, base: Counters, s: State, run: seq<Action>, i: nat)
    requires Runs(caps, base, s, run) && i < |s.tasks| && Place(i, run).Some?
    ensures var j, s' := Place(i, run).value, Exec(caps, base, s, run);
            j < |s'.tasks| && Took(caps, s.tasks[i], Story(i, run), s'.tasks[j])
    decreases |run|
  {
    if run != [] {
      var a, rest := run[0], run[1..];
      var k := Moved(i, a).value;
      var after := Apply(caps, s, a);
      OneAction(caps, s, a, i);
      hide Apply, Local, CanDo, Roomy, Enabled;
      StoryIsTaken(caps, base, after, rest, k);
      if a.Do? && a.i == i {
        var u := Exec(caps, base, s, run).tasks[Place(i, run).value];
        assert ([a.act] + Story(k, rest))[1..] == Story(k, rest);
        assert Took(caps, Local(caps, s.tasks[i], a.act, s.counters, s.nextId).0, Story(k, rest), u);
      } else {
        assert [] + Story(k, rest) == Story(k, rest);
      }
    }
  }

  lemma OneAction(caps: Caps, s: State, a: Action, i: nat)
    requires Enabled(s, a) && i < |s.tasks| && Moved(i, a).Some?
    ensures var k, s' := Moved(i, a).value, Apply(caps, s, a);
            k < |s'.tasks| &&
            s'.tasks[k] == if a.Do? && a.i == i then Local(caps, s.tasks[i], a.act, s.counters, s.nextId).0
                           else s.tasks[i]
    ensures a.Do? && a.i == i ==> CanDo(s.tasks[i], a.act)
  {
    hide Local, CanDo, Finished;
  }

  // ---- calls and attempts ----

  function Last(s: seq<nat>): nat
    requires s != []
  {
    s[|s| - 1]
  }

  /** Every attempt has made one call, of the model at the end of the list, which is not excluded yet. */
  predicate CallOk(t: Task) {
    match t.driver
    case AwaitSelect(_) => |t.called| == t.attempt
    case Sleeping => |t.called| == t.attempt
    case Serving =>
      |t.called| == t.attempt + 1 && t.guard.Some? && Last(t.called) == t.guard.value.bucket.model &&
      Last(t.called) !in t.excluded
    case AwaitReport(after) =>
      |t.called| == t.attempt + 1 && (after.Again? ==> after.model == Last(t.called) && after.model !in t.excluded)
    case AwaitQuota(m, _) => |t.called| == t.attempt + 1 && m == Last(t.called) && m !in t.excluded
    case Gone => true
  }

  lemma LocalKeepsCallOk(caps: Caps, t: Task, act: Act, c: Counters, id: nat)
    requires TaskOk(t) && CallOk(t) && CanDo(t, act)
    ensures CallOk(Local(caps, t, act, c, id).0)
  {
    if act.Deliver? {
      DeliverKeepsCallOk(caps, t, c, id);
    } else if act.Report? || act.ReportReturns? || act.QuotaReturns? {
      ReportKeepsCallOk(caps, t, act, c, id);
    } else {
      OthersKeepCallOk(caps, t, act, c, id);
    }
  }

  lemma DeliverKeepsCallOk(caps: Caps, t: Task, c: Counters, id: nat)
    requires TaskOk(t) && CallOk(t) && CanDo(t, Deliver)
    ensures CallOk(Local(caps, t, Deliver, c, id).0)
  {
    hide Visited, NoDup, JobOk;
  }

  lemma ReportKeepsCallOk(caps: Caps, t: Task, act: Act, c: Counters, id: nat)
    requires CallOk(t) && CanDo(t, act) && (act.Report? || act.ReportReturns? || act.QuotaReturns?)
    ensures CallOk(Local(caps, t, act, c, id).0)
  {
  }

  /** Every other act leaves the calls, the exclusions and the attempt alone, and the driver where it is or waiting. */
  lemma OthersKeepCallOk(caps: Caps, t: Task, act: Act, c: Counters, id: nat)
    requires CallOk(t) && CanDo(t, act) && !act.Deliver? && !act.Report? && !act.ReportReturns? && !act.QuotaReturns?
    ensures CallOk(Local(caps, t, act, c, id).0)
  {
  }

  lemma {:induction false} RunKeepsCalls(caps: Caps, base: Counters, s: State, run: seq<Action>)
    requires Runs(caps, base, s, run) && Inv(caps, base, s) && forall t :: t in s.tasks ==> CallOk(t)
    ensures forall t :: t in Exec(caps, base, s, run).tasks ==> TaskOk(t) && CallOk(t)
    decreases |run|
  {
    if run == [] {
      hide TaskOk;
    } else {
      var a := run[0];
      StepKeepsInv(caps, base, s, a);
      StepKeepsCalls(caps, base, s, a);
      hide Inv, CallOk, TaskOk, Apply, Roomy, Enabled;
      RunKeepsCalls(caps, base, Apply(caps, s, a), run[1..]);
    }
  }

  lemma StepKeepsCalls(caps: Caps, base: Counters, s: State, a: Action)
    requires Enabled(s, a) && Inv(caps, base, s) && forall t :: t in s.tasks ==> CallOk(t)
    ensures forall t :: t in Apply(caps, s, a).tasks ==> CallOk(t)
  {
    if a.Do? {
      LocalKeepsCallOk(caps, s.tasks[a.i], a.act, s.counters, s.nextId);
    }
    hide TaskOk, CanDo, Local, Balanced, Accounted, WithinCaps;
  }

  // ---- what an outcome leads to ----

  /** The attempt is over: its report has returned, and after a 429 the quota report too. */
  predicate Passed(o: Outcome, acts: seq<Act>) { if o.Limited? then QuotaReturns in acts else ReportReturns in acts }

  /** The task asks the selector again, or for the first time. */
  predicate Asks(t: Task) { t.driver == AwaitSelect(false) && t.sel.Filtering? }

  /** The models that an outcome rules out for the rest of the request: the one called, unless it may be tried again. */
  function RuledOut(o: Outcome, m: nat): set<nat> { if o.Finish? || o == Limited(true) then {} else {m} }

  /** The outcome `o` of a call of `m`, waiting for its report or for its quota report. */
  ghost predicate Pending(o: Outcome, m: nat, t: Task) {
    match t.driver
    case AwaitReport(after) =>
      if o.Finish? then after.Return?
      else after.Again? && after.model == m && (after.exclude <==> o != Limited(true)) && (after.quota <==> o.Limited?)
    case AwaitQuota(n, exclude) => o.Limited? && n == m && (exclude <==> o != Limited(true))
    case _ => false
  }

  lemma ReportPends(caps: Caps, t: Task, o: Outcome, c: Counters, id: nat)
    requires CanDo(t, Report(o)) && CallOk(t)
    ensures var u := Local(caps, t, Report(o), c, id).0;
            Pending(o, Last(t.called), u) && u.driver.AwaitReport? &&
            u.called == t.called && u.excluded == t.excluded && u.attempt == t.attempt
  {
  }

  /** A pending outcome waits, or its report returns and decides. */
  lemma PendingStep(caps: Caps, t: Task, o: Outcome, m: nat, act: Act, c: Counters, id: nat)
    requires Pending(o, m, t) && CanDo(t, act) && act != Drop
    ensures var u := Local(caps, t, act, c, id).0;
            u.called == t.called &&
            if !Passed(o, [act]) then Pending(o, m, u) && u.excluded == t.excluded && u.attempt == t.attempt
            else
              u.excluded == t.excluded + RuledOut(o, m) &&
              if o.Finish? || t.attempt + 1 >= 4 then u.driver.Gone? else Asks(u)
  {
  }

  lemma {:induction false} PendingDecides(caps: Caps, t: Task, o: Outcome, m: nat, acts: seq<Act>, u: Task)
    requires Pending(o, m, t) && Took(caps, t, acts, u) && Drop !in acts
    requires acts == [] || !Passed(o, acts[..|acts| - 1])
    ensures u.called == t.called
    ensures if !Passed(o, acts) then Pending(o, m, u) && u.excluded == t.excluded
            else
              u.excluded == t.excluded + RuledOut(o, m) &&
              if o.Finish? || t.attempt + 1 >= 4 then u.driver.Gone? else Asks(u)
    decreases |acts|
  {
    if acts != [] {
      var act, rest := acts[0], acts[1..];
      assert forall a :: a in acts <==> a == act || a in rest;
      var c, id :| Took(caps, Local(caps, t, act, c, id).0, rest, u);
      PendingStep(caps, t, o, m, act, c, id);
      if rest == [] {
        assert acts == [act];
      } else {
        assert acts[..|acts| - 1] == [act] + rest[..|rest| - 1];
        assert act in acts[..|acts| - 1];
        hide Local, Pending, CanDo;
        PendingDecides(caps, Local(caps, t, act, c, id).0, o, m, rest, u);
      }
    }
  }

  lemma StartCalls(caps: Caps, base: Counters, run: seq<Action>)
    requires Runs(caps, base, Start(base), run)
    ensures forall t :: t in Exec(caps, base, Start(base), run).tasks ==> TaskOk(t) && CallOk(t)
  {
    StartInv(caps, base);
    RunKeepsCalls(caps, base, Start(base), run);
  }

  /** The run `more` starts with the report of task `i`'s call, and does not end that task's life. */
  ghost predicate Reports(caps: Caps, base: Counters, s: State, more: seq<Action>, i: nat, o: Outcome) {
    Runs(caps, base, s, more) && more != [] && more[0] == Do(i, Report(o)) && Place(i, more).Some?
  }

  /** Task `i`, wherever it is after `more`. */
  ghost function Followed(caps: Caps, base: Counters, s: State, more: seq<Action>, i: nat): Task
    requires Runs(caps, base, s, more) && i < |s.tasks| && Place(i, more).Some?
  {
    StoryIsTaken(caps, base, s, more, i);
    Exec(caps, base, s, more).tasks[Place(i, more).value]
  }

  lemma ReportFirst(caps: Caps, base: Counters, s: State, more: seq<Action>, i: nat, o: Outcome)
    requires Reports(caps, base, s, more, i, o) && forall t :: t in s.tasks ==> CallOk(t)
    ensures i < |s.tasks| && s.tasks[i] in s.tasks && CanDo(s.tasks[i], Report(o)) && s.tasks[i].called != []
    ensures exists c, id ::
              Took(caps, Local(caps, s.tasks[i], Report(o), c, id).0, Story(i, more[1..]),
                   Followed(caps, base, s, more, i))
  {
    OneAction(caps, s, more[0], i);
    assert s.tasks[i] in s.tasks;
    hide Apply, Local, Roomy;
    StoryIsTaken(caps, base, Apply(caps, s, more[0]), more[1..], i);
  }

  /**
   What becomes of a call, from whatever point of whatever run: until the reports it owes have returned the task
   waits; then a final answer ends it, and any other outcome ends it after four calls and asks the selector again
   before that, with the model just called ruled out exactly unless a pinned request may call it again.
   */
  lemma OutcomeDecides(caps: Caps, base: Counters, run: seq<Action>, more: seq<Action>, i: nat, o: Outcome)
    requires Runs(caps, base, Start(base), run)
    requires Reports(caps, base, Exec(caps, base, Start(base), run), more, i, o)
    requires var acts := Story(i, more[1..]);
             Drop !in acts && (acts == [] || !Passed(o, acts[..|acts| - 1]))
    ensures var s, acts := Exec(caps, base, Start(base), run), Story(i, more[1..]);
            i < |s.tasks| &&
            var t, u := s.tasks[i], Followed(caps, base, s, more, i);
            t.called != [] && Last(t.called) !in t.excluded && u.called == t.called &&
            if !Passed(o, acts) then (u.driver.AwaitReport? || u.driver.AwaitQuota?) && u.excluded == t.excluded
            else
              u.excluded == t.excluded + RuledOut(o, Last(t.called)) &&
              if o.Finish? || |u.called| == 4 then u.driver.Gone? else |u.called| < 4 && Asks(u)
  {
    var s, acts := Exec(caps, base, Start(base), run), Story(i, more[1..]);
    StartCalls(caps, base, run);
    ReportFirst(caps, base, s, more, i, o);
    var t, u := s.tasks[i], Followed(caps, base, s, more, i);
    var c, id :| Took(caps, Local(caps, t, Report(o), c, id).0, acts, u);
    ReportPends(caps, t, o, c, id);
    hide Local, CanDo, Took, Runs, Exec, Story, Place, Passed, Followed;
    PendingDecides(caps, Local(caps, t, Report(o), c, id).0, o, Last(t.called), acts, u);
  }

  // ---- a final answer is final ----

  ghost predicate Settled(t: Task) { (t.driver.AwaitReport? && t.driver.after.Return?) || t.driver.Gone? }

  lemma SettledStep(caps: Caps, t: Task, act: Act, c: Counters, id: nat)
    requires Settled(t) && CanDo(t, act)
    ensures var u := Local(caps, t, act, c, id).0;
            Settled(u) && u.called == t.called && !act.Deliver? &&
            (t.driver.Gone? || act == ReportReturns || act == Drop ==> u.driver.Gone?)
  {
  }

  lemma {:induction false} SettledStays(caps: Caps, t: Task, acts: seq<Act>, u: Task)
    requires Settled(t) && Took(caps, t, acts, u)
    ensures Settled(u) && u.called == t.called && Deliver !in acts
    ensures t.driver.Gone? || ReportReturns in acts || Drop in acts ==> u.driver.Gone?
    decreases |acts|
  {
    if acts != [] {
      var act, rest := acts[0], acts[1..];
      assert forall a :: a in acts <==> a == act || a in rest;
      var c, id :| Took(caps, Local(caps, t, act, c, id).0, rest, u);
      SettledStep(caps, t, act, c, id);
      hide Local, CanDo, Settled;
      SettledStays(caps, Local(caps, t, act, c, id).0, rest, u);
    }
  }

  /** Once a provider has answered, the task calls nobody again, and when its report returns it is over. */
  lemma AnswerIsFinal(caps: Caps, base: Counters, run: seq<Action>, more: seq<Action>, i: nat)
    requires Runs(caps, base, Start(base), run)
    requires Reports(caps, base, Exec(caps, base, Start(base), run), more, i, Finish)
    ensures var s, acts := Exec(caps, base, Start(base), run), Story(i, more[1..]);
            i < |s.tasks| &&
            var u := Followed(caps, base, s, more, i);
            u.called == s.tasks[i].called && Deliver !in acts &&
            (ReportReturns in acts || Drop in acts ==> u.driver.Gone?)
  {
    var s, acts := Exec(caps, base, Start(base), run), Story(i, more[1..]);
    StartCalls(caps, base, run);
    ReportFirst(caps, base, s, more, i, Finish);
    var t, u := s.tasks[i], Followed(caps, base, s, more, i);
    var c, id :| Took(caps, Local(caps, t, Report(Finish), c, id).0, acts, u);
    ReportPends(caps, t, Finish, c, id);
    hide Local, CanDo, Took, Runs, Exec, Story, Place, Followed;
    SettledStays(caps, Local(caps, t, Report(Finish), c, id).0, acts, u);
  }

  // ---- waiting ----

  predicate Waited(t: Task) { t.driver.Sleeping? || t.driver == AwaitSelect(true) || t.driver.Gone? }

  lemma WaitedStep(caps: Caps, t: Task, act: Act, c: Counters, id: nat)
    requires Waited(t) && CanDo(t, act) && !act.Deliver?
    ensures var u := Local(caps, t, act, c, id).0;
            Waited(u) && act != Refuse(true) && u.called == t.called &&
            (t.driver.Gone? || act == Refuse(false) || act == Drop ==> u.driver.Gone?)
  {
  }

  lemma {:induction false} WaitedStays(caps: Caps, t: Task, acts: seq<Act>, u: Task)
    requires Waited(t) && Took(caps, t, acts, u) && Deliver !in acts
    ensures Waited(u) && Refuse(true) !in acts && u.called == t.called
    ensures t.driver.Gone? || Refuse(false) in acts || Drop in acts ==> u.driver.Gone?
    decreases |acts|
  {
    if acts != [] {
      var act, rest := acts[0], acts[1..];
      assert forall a :: a in acts <==> a == act || a in rest;
      var c, id :| Took(caps, Local(caps, t, act, c, id).0, rest, u);
      WaitedStep(caps, t, act, c, id);
      hide Local, CanDo, Waited;
      WaitedStays(caps, Local(caps, t, act, c, id).0, rest, u);
    }
  }

  /** A refused selection waits at most once: after a wait the next answer is a candidate, or the end of the request. */
  lemma WaitsOnce(caps: Caps, base: Counters, s: State, more: seq<Action>, i: nat, sleep: bool)
    requires Runs(caps, base, s, more) && more != [] && more[0] == Do(i, Refuse(sleep)) && Place(i, more).Some?
    requires Deliver !in Story(i, more[1..])
    ensures i < |s.tasks| && Followed(caps, base, s, more, i).called == s.tasks[i].called
    ensures Refuse(true) !in Story(i, more[1..])
    ensures !sleep || Refuse(false) in Story(i, more[1..]) ==> Followed(caps, base, s, more, i).driver.Gone?
  {
    OneAction(caps, s, more[0], i);
    var t := Local(caps, s.tasks[i], Refuse(sleep), s.counters, s.nextId).0;
    assert Waited(t) && t.called == s.tasks[i].called && (!sleep ==> t.driver.Gone?);
    hide Apply, Local, Roomy, Waited;
    StoryIsTaken(caps, base, Apply(caps, s, more[0]), more[1..], i);
    WaitedStays(caps, t, Story(i, more[1..]), Followed(caps, base, s, more, i));
  }

  // ---- the candidates of a selection, one after the other ----

  /** At some moment of the run the bucket has no room for another request. */
  ghost predicate SeenFull(caps: Caps, base: Counters, s: State, run: seq<Action>, b: Bucket)
    requires Runs(caps, base, s, run)
    decreases |run|
  {
    (b.model in caps && Get(s.counters.req, b) >= caps[b.model]) ||
    (run != [] && SeenFull(caps, base, Apply(caps, s, run[0]), run[1..], b))
  }

  ghost predicate AllSeenFull(caps: Caps, base: Counters, s: State, run: seq<Action>, pool: seq<Bucket>)
    requires Runs(caps, base, s, run)
  {
    forall b :: b in pool ==> SeenFull(caps, base, s, run, b)
  }

  /** Of `pool`: the first candidate after the first `from` that was not seen full, or none when all were. */
  ghost predicate TakenFrom(
    caps: Caps, base: Counters, s: State, run: seq<Action>, pool: seq<Bucket>, from: nat, sel: Select)
    requires Runs(caps, base, s, run)
  {
    match sel
    case Counted(r) => exists n :: FirstWithRoom(caps, base, s, run, pool, from, n, r.bucket)
    case Ready(Some(r)) => exists n :: FirstWithRoom(caps, base, s, run, pool, from, n, r.bucket)
    case Ready(None) => from <= |pool| && AllSeenFull(caps, base, s, run, pool[from..])
    case _ => true
  }

  ghost predicate FirstWithRoom(
    caps: Caps, base: Counters, s: State, run: seq<Action>, pool: seq<Bucket>, from: nat, n: nat, b: Bucket)
    requires Runs(caps, base, s, run)
  {
    from <= n < |pool| && pool[n] == b && AllSeenFull(caps, base, s, run, pool[from..n])
  }

  /** The candidate's count is at its cap. */
  predicate Full(caps: Caps, b: Bucket, n: nat) { b.model in caps && n >= caps[b.model] }

  /** The selection still has `pool` to go through, less its first candidate when that was read to be full. */
  ghost predicate GoesThrough(caps: Caps, t: Task, pool: seq<Bucket>, from: nat) {
    (t.driver.AwaitSelect? || t.driver.Gone?) &&
    match t.sel
    case Loading(p) => p == pool && from == 0
    case Trying(p, n) => p == pool && pool != [] && from == if Full(caps, pool[0], n) then 1 else 0
    case Ready(None) => pool == [] && from == 0
    case _ => false
  }

  /** The selection has taken `r`. */
  predicate Has(t: Task, r: Res) {
    (t.driver.AwaitSelect? || t.driver.Gone?) && (t.sel == Counted(r) || t.sel == Ready(Some(r)))
  }

  /** Nobody claims the selection: it goes on, or keeps its answer. */
  predicate Unclaimed(acts: seq<Act>) {
    Deliver !in acts && Refuse(true) !in acts && Refuse(false) !in acts && Orphan !in acts
  }

  lemma SelectionStep(caps: Caps, t: Task, pool: seq<Bucket>, from: nat, act: Act, c: Counters, id: nat)
    requires GoesThrough(caps, t, pool, from) && CanDo(t, act) && Unclaimed([act])
    ensures var u := Local(caps, t, act, c, id).0;
            GoesThrough(caps, u, pool, from) ||
            (from == 1 && GoesThrough(caps, u, pool[1..], 0)) ||
            (from == 0 && pool != [] &&
             (Has(u, Res(id, pool[0], t.tokens)) ||
              GoesThrough(caps, u, pool, if Full(caps, pool[0], Get(c.req, pool[0])) then 1 else 0)))
  {
    assert act in [act];
  }

  lemma HasStep(caps: Caps, t: Task, r: Res, act: Act, c: Counters, id: nat)
    requires Has(t, r) && CanDo(t, act) && Unclaimed([act])
    ensures Has(Local(caps, t, act, c, id).0, r)
  {
    assert act in [act];
  }

  lemma {:induction false} HasStays(caps: Caps, t: Task, r: Res, acts: seq<Act>, u: Task)
    requires Has(t, r) && Took(caps, t, acts, u) && Unclaimed(acts)
    ensures Has(u, r)
    decreases |acts|
  {
    if acts != [] {
      var act, rest := acts[0], acts[1..];
      assert act in acts && Unclaimed([act]) && Unclaimed(rest);
      var c, id :| Took(caps, Local(caps, t, act, c, id).0, rest, u);
      HasStep(caps, t, r, act, c, id);
      HasStays(caps, Local(caps, t, act, c, id).0, r, rest, u);
    }
  }

  /** What is seen later in a run is seen in it. */
  lemma TakenLater(
    caps: Caps, base: Counters, s: State, run: seq<Action>, pool: seq<Bucket>, from: nat, sel: Select)
    requires Runs(caps, base, s, run) && run != []
    requires TakenFrom(caps, base, Apply(caps, s, run[0]), run[1..], pool, from, sel)
    ensures TakenFrom(caps, base, s, run, pool, from, sel)
  {
    hide Apply, Roomy, Enabled;
    if sel.Counted? || (sel.Ready? && sel.result.Some?) {
      var r := if sel.Counted? then sel.r else sel.result.value;
      var n: nat :| FirstWithRoom(caps, base, Apply(caps, s, run[0]), run[1..], pool, from, n, r.bucket);
      assert FirstWithRoom(caps, base, s, run, pool, from, n, r.bucket);
    }
  }

  /** The first candidate is passed over: the rest of the pool is the pool from its second candidate on. */
  lemma TakenShift(caps: Caps, base: Counters, s: State, run: seq<Action>, pool: seq<Bucket>, sel: Select)
    requires Runs(caps, base, s, run) && pool != [] && TakenFrom(caps, base, s, run, pool[1..], 0, sel)
    ensures TakenFrom(caps, base, s, run, pool, 1, sel)
  {
    hide SeenFull, Runs;
    assert pool[1..][0..] == pool[1..];
    if sel.Counted? || (sel.Ready? && sel.result.Some?) {
      var r := if sel.Counted? then sel.r else sel.result.value;
      var n: nat :| FirstWithRoom(caps, base, s, run, pool[1..], 0, n, r.bucket);
      assert pool[1..][0..n] == pool[1..n + 1];
      assert FirstWithRoom(caps, base, s, run, pool, 1, n + 1, r.bucket);
    }
  }

  lemma TakenWithFirst(caps: Caps, base: Counters, s: State, run: seq<Action>, pool: seq<Bucket>, sel: Select)
    requires Runs(caps, base, s, run) && pool != [] && SeenFull(caps, base, s, run, pool[0])
    requires TakenFrom(caps, base, s, run, pool, 1, sel)
    ensures TakenFrom(caps, base, s, run, pool, 0, sel)
  {
    hide SeenFull, Runs;
    if sel.Counted? || (sel.Ready? && sel.result.Some?) {
      var r := if sel.Counted? then sel.r else sel.result.value;
      var n: nat :| FirstWithRoom(caps, base, s, run, pool, 1, n, r.bucket);
      assert pool[0..n] == [pool[0]] + pool[1..n];
      assert FirstWithRoom(caps, base, s, run, pool, 0, n, r.bucket);
    } else {
      assert pool[0..] == [pool[0]] + pool[1..];
    }
  }

  lemma {:induction false} SelectionGoesOn(
    caps: Caps, base: Counters, s: State, run: seq<Action>, i: nat, pool: seq<Bucket>, from: nat)
    requires Runs(caps, base, s, run) && i < |s.tasks| && Place(i, run).Some? && Unclaimed(Story(i, run))
    requires GoesThrough(caps, s.tasks[i], pool, from)
    ensures TakenFrom(caps, base, s, run, pool, from, Followed(caps, base, s, run, i).sel)
    decreases |run|
  {
    if run == [] {
      SelectionAtEnd(caps, base, s, i, pool, from);
    } else {
      var a, t := run[0], s.tasks[i];
      var after, k := Apply(caps, s, a), Moved(i, a).value;
      OneAction(caps, s, a, i);
      var u, sel := after.tasks[k], Followed(caps, base, s, run, i).sel;
      assert Followed(caps, base, s, run, i) == Followed(caps, base, after, run[1..], k);
      StoryParts(i, run);
      hide Apply, Local, Roomy, Enabled, Followed, TakenFrom, GoesThrough, Story, Place, CanDo, Unclaimed;
      if a.Do? && a.i == i {
        SelectionStep(caps, t, pool, from, a.act, s.counters, s.nextId);
        if GoesThrough(caps, u, pool, from) {
          SelectionGoesOn(caps, base, after, run[1..], k, pool, from);
          TakenLater(caps, base, s, run, pool, from, sel);
        } else if from == 1 && GoesThrough(caps, u, pool[1..], 0) {
          SelectionGoesOn(caps, base, after, run[1..], k, pool[1..], 0);
          TakenShift(caps, base, after, run[1..], pool, sel);
          TakenLater(caps, base, s, run, pool, 1, sel);
        } else if Has(u, Res(s.nextId, pool[0], t.tokens)) {
          StoryIsTaken(caps, base, after, run[1..], k);
          SelectionHas(caps, base, s, run, i, pool, Res(s.nextId, pool[0], t.tokens));
        } else {
          var next := if Full(caps, pool[0], Get(s.counters.req, pool[0])) then 1 else 0;
          SelectionGoesOn(caps, base, after, run[1..], k, pool, next);
          TakenLater(caps, base, s, run, pool, next, sel);
          if next == 1 {
            TakenWithFirst(caps, base, s, run, pool, sel);
          }
        }
      } else {
        SelectionGoesOn(caps, base, after, run[1..], k, pool, from);
        TakenLater(caps, base, s, run, pool, from, sel);
      }
    }
  }

  lemma SelectionAtEnd(caps: Caps, base: Counters, s: State, i: nat, pool: seq<Bucket>, from: nat)
    requires Roomy(base, s) && i < |s.tasks| && GoesThrough(caps, s.tasks[i], pool, from)
    ensures TakenFrom(caps, base, s, [], pool, from, Followed(caps, base, s, [], i).sel)
  {
    assert pool == [] ==> pool[from..] == [];
  }

  lemma StoryParts(i: nat, run: seq<Action>)
    requires run != [] && Moved(i, run[0]).Some? && Unclaimed(Story(i, run))
    ensures Unclaimed(Story(Moved(i, run[0]).value, run[1..]))
    ensures run[0].Do? && run[0].i == i ==> Unclaimed([run[0].act])
  {
    var rest := Story(Moved(i, run[0]).value, run[1..]);
    assert forall a :: a in rest ==> a in Story(i, run);
    if run[0].Do? && run[0].i == i {
      assert run[0].act in Story(i, run);
    }
  }

  lemma SelectionHas(caps: Caps, base: Counters, s: State, run: seq<Action>, i: nat, pool: seq<Bucket>, r: Res)
    requires Runs(caps, base, s, run) && i < |s.tasks| && Place(i, run).Some? && run != [] && pool != []
    requires Moved(i, run[0]).Some? && Unclaimed(Story(Moved(i, run[0]).value, run[1..])) && r.bucket == pool[0]
    requires Moved(i, run[0]).value < |Apply(caps, s, run[0]).tasks|
    requires Has(Apply(caps, s, run[0]).tasks[Moved(i, run[0]).value], r)
    ensures TakenFrom(caps, base, s, run, pool, 0, Followed(caps, base, s, run, i).sel)
  {
    var after, k := Apply(caps, s, run[0]), Moved(i, run[0]).value;
    hide Apply, Roomy, Enabled;
    StoryIsTaken(caps, base, after, run[1..], k);
    HasStays(caps, after.tasks[k], r, Story(k, run[1..]), Followed(caps, base, s, run, i));
    assert pool[0..0] == [];
    assert FirstWithRoom(caps, base, s, run, pool, 0, 0, pool[0]);
  }

  /**
   A selection takes the first of its candidates that it has not seen full, in the order in which they are offered,
   and comes back empty only when it has seen every one of them full: each at its cap at some moment of the run.
   */
  lemma FirstWithRoomIsTaken(
    caps: Caps, base: Counters, run: seq<Action>, more: seq<Action>, i: nat, pool: seq<Bucket>)
    requires Runs(caps, base, Start(base), run) && Runs(caps, base, Exec(caps, base, Start(base), run), more)
    requires more != [] && more[0] == Do(i, Offer(pool)) && Place(i, more).Some? && Unclaimed(Story(i, more[1..]))
    ensures var s := Exec(caps, base, Start(base), run);
            i < |s.tasks| && TakenFrom(caps, base, s, more, pool, 0, Followed(caps, base, s, more, i).sel)
  {
    var s := Exec(caps, base, Start(base), run);
    StartCalls(caps, base, run);
    OneAction(caps, s, more[0], i);
    var after := Apply(caps, s, more[0]);
    assert s.tasks[i] in s.tasks;
    assert GoesThrough(caps, after.tasks[i], pool, 0);
    hide Apply, Local, Roomy, TakenFrom, GoesThrough;
    SelectionGoesOn(caps, base, after, more[1..], i, pool, 0);
    TakenLater(caps, base, s, more, pool, 0, Followed(caps, base, s, more, i).sel);
  }
}
