/** The batch queue: submissions are queued by model, taken by a flush, and answered by their batch job. */
module Batch {
  import opened Basics

  datatype Entry = Entry(id: nat, model: nat, estimated: nat)

  /** A finished request, as a client polls it. */
  datatype State = Success(body: string, prompt: nat, completion: nat) | Error(message: string)

  datatype Failure = NoFailure | Failure(message: Option<string>)

  /** A line of the job's output; lines that do not parse or name no request are `Unusable`. */
  datatype Line = Unusable | Line(id: nat, failure: Failure, body: string, prompt: nat, completion: nat)

  /** How a job ends: refused with a message before there is any output, or with the lines of its output. */
  datatype Verdict = Refused(message: string) | Output(lines: seq<Line>)

  /** The line that answers a request: the last one of its id. */
  function AnswerIn(lines: seq<Line>, id: nat): (l: Option<Line>)
    ensures l.Some? ==> l.value.Line? && l.value.id == id && l.value in lines
  {
    if lines == [] then None
    else if lines[|lines| - 1].Line? && lines[|lines| - 1].id == id then Some(lines[|lines| - 1])
    else AnswerIn(lines[..|lines| - 1], id)
  }

  function StateOf(l: Option<Line>): State
    requires l.Some? ==> l.value.Line?
  {
    if l.None? then Error("result missing from batch output")
    else if l.value.failure.NoFailure? then Success(l.value.body, l.value.prompt, l.value.completion)
    else Error(l.value.failure.message.GetOr("unknown error"))
  }

  /** What an entry is answered when its job ends. */
  function ResultFor(e: Entry, v: Verdict): State {
    if v.Refused? then Error(v.message) else StateOf(AnswerIn(v.lines, e.id))
  }

  function Posted(results: map<nat, State>, e: Entry, v: Verdict): map<nat, State> { results[e.id := ResultFor(e, v)] }

  function AllPosted(results: map<nat, State>, entries: seq<Entry>, v: Verdict): map<nat, State> {
    if entries == [] then results
    else Posted(AllPosted(results, entries[..|entries| - 1], v), entries[|entries| - 1], v)
  }

  function Enqueued(queue: map<nat, seq<Entry>>, e: Entry): map<nat, seq<Entry>> {
    queue[e.model := (if e.model in queue then queue[e.model] else []) + [e]]
  }

  /** Nothing yet, or the finished request. */
  function Polled(results: map<nat, State>, id: nat): Option<State> {
    if id in results then Some(results[id]) else None
  }

  predicate DistinctIds(entries: seq<Entry>) {
    forall i, j :: 0 <= i < j < |entries| ==> entries[i].id != entries[j].id
  }

  lemma {:induction false} AllPostedKeys(results: map<nat, State>, entries: seq<Entry>, v: Verdict)
    ensures AllPosted(results, entries, v).Keys == results.Keys + (set e | e in entries :: e.id)
    ensures forall id :: id in results && (forall e :: e in entries ==> e.id != id) ==>
            AllPosted(results, entries, v)[id] == results[id]
  {
    if entries != [] {
      var front, last := entries[..|entries| - 1], entries[|entries| - 1];
      AllPostedKeys(results, front, v);
      hide ResultFor;
      assert forall e :: e in entries <==> e in front || e == last;
    }
  }

  lemma {:induction false} AllPostedValues(results: map<nat, State>, entries: seq<Entry>, v: Verdict, i: nat)
    requires DistinctIds(entries) && i < |entries|
    ensures entries[i].id in AllPosted(results, entries, v)
    ensures AllPosted(results, entries, v)[entries[i].id] == ResultFor(entries[i], v)
  {
    hide ResultFor;
    if i < |entries| - 1 {
      AllPostedValues(results, entries[..|entries| - 1], v, i);
    }
  }

  /** Whichever way a job ends, each of its entries gets exactly one answer, its own, and nobody else gets any. */
  lemma EveryEntryIsAnswered(results: map<nat, State>, entries: seq<Entry>, v: Verdict)
    requires DistinctIds(entries)
    ensures var after := AllPosted(results, entries, v);
            after.Keys == results.Keys + (set e | e in entries :: e.id) &&
            (forall e :: e in entries ==> after[e.id] == ResultFor(e, v)) &&
            forall id :: id in results && (forall e :: e in entries ==> e.id != id) ==> after[id] == results[id]
  {
    AllPostedKeys(results, entries, v);
    hide AllPosted, ResultFor;
    forall e | e in entries
      ensures AllPosted(results, entries, v)[e.id] == ResultFor(e, v)
    {
      var i :| 0 <= i < |entries| && entries[i] == e;
      AllPostedValues(results, entries, v, i);
    }
  }

  // ---- the queue object ----

  class BatchQueue {
    var queue: map<nat, seq<Entry>>
    var results: map<nat, State>

    constructor ()
      ensures queue == map[] && results == map[]
    {
      queue, results := map[], map[];
    }

    method Enqueue(e: Entry)
      modifies this`queue
      ensures queue == Enqueued(old(queue), e)
    {
      if e.model !in queue {
        queue := queue[e.model := []];
      }
      queue := queue[e.model := queue[e.model] + [e]];
    }

    /** The drain of a flush. */
    method TakeAll() returns (groups: map<nat, seq<Entry>>)
      modifies this`queue
      ensures groups == old(queue) && queue == map[]
    {
      groups := queue;
      queue := map[];
    }

    method RejectAll(entries: seq<Entry>, message: string)
      modifies this`results
      ensures results == AllPosted(old(results), entries, Refused(message))
    {
      for i := 0 to |entries|
        invariant results == AllPosted(old(results), entries[..i], Refused(message))
      {
        assert entries[..i + 1][..i] == entries[..i];
        results := results[entries[i].id := Error(message)];
      }
      assert entries[..|entries|] == entries;
    }

    /** One flushed group, from the end of its job on. */
    method FlushModelGroup(entries: seq<Entry>, v: Verdict) returns (prompt: nat, completion: nat, estimated: nat)
      modifies this`results
      ensures results == AllPosted(old(results), entries, v)
      ensures v.Refused? ==> prompt == completion == estimated == 0
      ensures v.Output? ==>
                prompt == Total(entries, (e: Entry) => Prompt(ResultFor(e, v))) &&
                completion == Total(entries, (e: Entry) => Completion(ResultFor(e, v))) &&
                estimated == Total(entries, (e: Entry) => e.estimated)
    {
      prompt, completion, estimated := 0, 0, 0;
      if v.Refused? {
        RejectAll(entries, v.message);
        return;
      }
      var index := IndexLines(v.lines);
      for i := 0 to |entries|
        invariant results == AllPosted(old(results), entries[..i], v)
        invariant prompt == Total(entries[..i], (e: Entry) => Prompt(ResultFor(e, v)))
        invariant completion == Total(entries[..i], (e: Entry) => Completion(ResultFor(e, v)))
        invariant estimated == Total(entries[..i], (e: Entry) => e.estimated)
      {
        var e := entries[i];
        assert entries[..i + 1][..i] == entries[..i] && entries[..i + 1] == entries[..i] + [e];
        TotalAppend(entries[..i], e, (e: Entry) => Prompt(ResultFor(e, v)));
        TotalAppend(entries[..i], e, (e: Entry) => Completion(ResultFor(e, v)));
        TotalAppend(entries[..i], e, (e: Entry) => e.estimated);
        estimated := estimated + e.estimated;
        var state := StateOf(if e.id in index then Some(index[e.id]) else None);
        assert state == ResultFor(e, v);
        if state.Success? {
          prompt := prompt + state.prompt;
          completion := completion + state.completion;
        }
        results := results[e.id := state];
      }
      assert entries[..|entries|] == entries;
    }

    /** A poll; what a client may conclude from it is `PollsAreFinal`. */
    method Poll(id: nat) returns (state: Option<State>)
      ensures state == Polled(results, id)
    {
      if id !in results {
        return None;
      }
      state := Some(results[id]);
    }
  }

  function Prompt(s: State): nat { if s.Success? then s.prompt else 0 }

  function Completion(s: State): nat { if s.Success? then s.completion else 0 }

  /** The last line of a request decides its answer: the line's own body and token counts, or its error. */
  lemma {:induction false} LastLineDecides(e: Entry, before: seq<Line>, l: Line, after: seq<Line>)
    requires l.Line? && l.id == e.id && forall k :: k in after && k.Line? ==> k.id != e.id
    ensures var s := ResultFor(e, Output(before + [l] + after));
            if l.failure == NoFailure then
              s == Success(l.body, l.prompt, l.completion) && Prompt(s) == l.prompt && Completion(s) == l.completion
            else
              s == Error(if l.failure.message.Some? then l.failure.message.value else "unknown error") &&
              Prompt(s) == 0 && Completion(s) == 0
    decreases |after|
  {
    var lines := before + [l] + after;
    if after == [] {
      assert lines[|lines| - 1] == l;
    } else {
      var shorter := after[..|after| - 1];
      LastLineDecides(e, before, l, shorter);
      assert after[|after| - 1] in after && lines[|lines| - 1] == after[|after| - 1];
      assert lines[..|lines| - 1] == before + [l] + shorter;
    }
  }

  /** A request without a line is answered with an error, and a refused job answers everybody with its message. */
  lemma {:induction false} NoLineIsMissing(e: Entry, lines: seq<Line>, message: string)
    requires forall l :: l in lines && l.Line? ==> l.id != e.id
    ensures ResultFor(e, Output(lines)) == Error("result missing from batch output")
    ensures ResultFor(e, Refused(message)) == Error(message)
  {
    if lines != [] {
      assert lines[|lines| - 1] in lines;
      NoLineIsMissing(e, lines[..|lines| - 1], message);
    }
  }

  /** The output indexed by request: of two lines with one id the later counts. */
  method IndexLines(lines: seq<Line>) returns (index: map<nat, Line>)
    ensures forall id :: if id in index then AnswerIn(lines, id) == Some(index[id]) else AnswerIn(lines, id).None?
  {
    index := map[];
    for i := 0 to |lines|
      invariant forall id ::
                if id in index then AnswerIn(lines[..i], id) == Some(index[id]) else AnswerIn(lines[..i], id).None?
    {
      assert lines[..i + 1][..i] == lines[..i];
      if lines[i].Line? {
        index := index[lines[i].id := lines[i]];
      }
    }
    assert lines[..|lines|] == lines;
  }

  // ---- the whole service: submissions, flushes and jobs interleave ----

  /** A flushed group: its job's verdict once there is one, and how many entries have been answered. */
  datatype Job = Job(entries: seq<Entry>, verdict: Option<Verdict>, posted: nat)

  datatype Service = Service(queue: map<nat, seq<Entry>>, jobs: seq<Job>, results: map<nat, State>, submitted: set<nat>)

  const IDLE := Service(map[], [], map[], {})

  /** `order` is the order in which the groups of a drained queue are handed out. */
  datatype Step = Submit(e: Entry) | Drain(order: seq<nat>) | Conclude(j: nat, v: Verdict) | Post(j: nat)

  ghost predicate Enumerates(order: seq<nat>, keys: set<nat>) {
    (forall k :: k in order <==> k in keys) && forall a, b :: 0 <= a < b < |order| ==> order[a] != order[b]
  }

  /** Request ids are fresh; a job is concluded once and answers its entries in order afterwards. */
  ghost predicate Enabled(s: Service, step: Step) {
    match step
    case Submit(e) => e.id !in s.submitted
    case Drain(order) => Enumerates(order, s.queue.Keys)
    case Conclude(j, _) => j < |s.jobs| && s.jobs[j].verdict.None?
    case Post(j) => j < |s.jobs| && s.jobs[j].verdict.Some? && s.jobs[j].posted < |s.jobs[j].entries|
  }

  ghost function Next(s: Service, step: Step): Service
    requires Enabled(s, step)
  {
    match step
    case Submit(e) => s.(queue := Enqueued(s.queue, e), submitted := s.submitted + {e.id})
    case Drain(order) =>
      s.(queue := map[], jobs := s.jobs + seq(|order|, k requires 0 <= k < |order| => Job(s.queue[order[k]], None, 0)))
    case Conclude(j, v) => s.(jobs := s.jobs[j := s.jobs[j].(verdict := Some(v))])
    case Post(j) =>
      var job := s.jobs[j];
      s.(jobs := s.jobs[j := job.(posted := job.posted + 1)],
         results := Posted(s.results, job.entries[job.posted], job.verdict.value))
  }

  /** Where an entry is. */
  datatype Place = InQueue(model: nat, i: nat) | InJob(j: nat, i: nat)

  predicate Exists(s: Service, p: Place) {
    match p
    case InQueue(m, i) => m in s.queue && i < |s.queue[m]|
    case InJob(j, i) => j < |s.jobs| && i < |s.jobs[j].entries|
  }

  function EntryAt(s: Service, p: Place): Entry
    requires Exists(s, p)
  {
    match p
    case InQueue(m, i) => s.queue[m][i]
    case InJob(j, i) => s.jobs[j].entries[i]
  }

  predicate Holds(s: Service, p: Place, id: nat) { Exists(s, p) && EntryAt(s, p).id == id }

  predicate Answered(s: Service, p: Place) { p.InJob? && p.j < |s.jobs| && p.i < s.jobs[p.j].posted }

  /**
   Every submitted request is in exactly one place, and it has a result exactly when its job has answered it:
   the result its own entry gets from its job's verdict.
   */
  ghost predicate Inv(s: Service) {
    (forall p, q, id :: Holds(s, p, id) && Holds(s, q, id) ==> p == q) &&
    (forall id :: id in s.submitted <==> exists p :: Holds(s, p, id)) &&
    (forall p, id :: Holds(s, p, id) ==> (id in s.results <==> Answered(s, p))) &&
    (forall id :: id in s.results ==> id in s.submitted) &&
    (forall p :: Exists(s, p) && Answered(s, p) ==>
       s.jobs[p.j].verdict.Some? && EntryAt(s, p).id in s.results &&
       s.results[EntryAt(s, p).id] == ResultFor(EntryAt(s, p), s.jobs[p.j].verdict.value)) &&
    (forall j :: 0 <= j < |s.jobs| ==>
     s.jobs[j].posted <= |s.jobs[j].entries| && (s.jobs[j].verdict.None? ==> s.jobs[j].posted == 0))
  }

  lemma SubmitKeeps(s: Service, e: Entry)
    requires Inv(s) && Enabled(s, Submit(e))
    ensures Inv(Next(s, Submit(e)))
  {
    var t := Next(s, Submit(e));
    hide ResultFor;
    var here := InQueue(e.model, if e.model in s.queue then |s.queue[e.model]| else 0);
    assert Holds(t, here, e.id);
    forall p, id
      ensures Holds(t, p, id) <==> (Holds(s, p, id) || (p == here && id == e.id))
    {
    }
    forall p | Exists(t, p) && Answered(t, p)
      ensures Exists(s, p) && EntryAt(t, p) == EntryAt(s, p)
    {
    }
  }

  lemma DrainKeeps(s: Service, order: seq<nat>)
    requires Inv(s) && Enabled(s, Drain(order))
    ensures Inv(Next(s, Drain(order)))
  {
    var t := Next(s, Drain(order));
    hide ResultFor;
    forall p, id
      ensures Holds(t, p, id) ==>
              Holds(s, Before(s, order, p), id) && (Answered(t, p) <==> Answered(s, Before(s, order, p)))
    {
      DrainMoves(s, order, p, id);
    }
    forall p, id | Holds(s, p, id)
      ensures exists q :: Holds(t, q, id)
    {
      var q := DrainReaches(s, order, p, id);
    }
    forall p, q, id | Holds(t, p, id) && Holds(t, q, id)
      ensures p == q
    {
      DrainKeepsPlaces(s, order, p, q, id);
    }
    forall p | Exists(t, p) && Answered(t, p)
      ensures Exists(s, p) && Answered(s, p) && EntryAt(t, p) == EntryAt(s, p) && t.jobs[p.j] == s.jobs[p.j]
    {
    }
  }

  lemma DrainKeepsPlaces(s: Service, order: seq<nat>, p: Place, q: Place, id: nat)
    requires Inv(s) && Enabled(s, Drain(order))
    requires Holds(Next(s, Drain(order)), p, id) && Holds(Next(s, Drain(order)), q, id)
    ensures p == q
  {
    DrainMoves(s, order, p, id);
    DrainMoves(s, order, q, id);
    assert Before(s, order, p) == Before(s, order, q);
  }

  lemma DrainMoves(s: Service, order: seq<nat>, p: Place, id: nat)
    requires Inv(s) && Enabled(s, Drain(order))
    ensures var t := Next(s, Drain(order));
            Holds(t, p, id) ==>
            Holds(s, Before(s, order, p), id) && (Answered(t, p) <==> Answered(s, Before(s, order, p)))
  {
    var t := Next(s, Drain(order));
    if Holds(t, p, id) && p.j >= |s.jobs| {
      assert order[p.j - |s.jobs|] in order;
    }
  }

  lemma DrainReaches(s: Service, order: seq<nat>, p: Place, id: nat) returns (q: Place)
    requires Enabled(s, Drain(order)) && Holds(s, p, id)
    ensures Holds(Next(s, Drain(order)), q, id)
  {
    q := p;
    if p.InQueue? {
      assert p.model in order;
      var k :| 0 <= k < |order| && order[k] == p.model;
      q := InJob(|s.jobs| + k, p.i);
    }
  }

  /** Where the entry of a place was before a drain. */
  function Before(s: Service, order: seq<nat>, p: Place): Place {
    if p.InJob? && |s.jobs| <= p.j < |s.jobs| + |order| then InQueue(order[p.j - |s.jobs|], p.i) else p
  }

  lemma ConcludeKeeps(s: Service, j: nat, v: Verdict)
    requires Inv(s) && Enabled(s, Conclude(j, v))
    ensures Inv(Next(s, Conclude(j, v)))
  {
    var t := Next(s, Conclude(j, v));
    hide ResultFor;
    assert forall p, id :: Holds(t, p, id) <==> Holds(s, p, id);
  }

  lemma PostKeeps(s: Service, j: nat)
    requires Inv(s) && Enabled(s, Post(j))
    ensures Inv(Next(s, Post(j)))
    ensures s.jobs[j].entries[s.jobs[j].posted].id !in s.results
  {
    var t, job := Next(s, Post(j)), s.jobs[j];
    var here, e := InJob(j, job.posted), job.entries[job.posted];
    hide ResultFor;
    assert Holds(s, here, e.id);
    assert forall p, id :: Holds(t, p, id) <==> Holds(s, p, id);
    forall p | Exists(t, p) && Answered(t, p)
      ensures t.jobs[p.j].verdict.Some? && EntryAt(t, p).id in t.results
      ensures t.results[EntryAt(t, p).id] == ResultFor(EntryAt(t, p), t.jobs[p.j].verdict.value)
    {
      PostAnswers(s, j, p);
    }
  }

  lemma PostAnswers(s: Service, j: nat, p: Place)
    requires Inv(s) && Enabled(s, Post(j)) && Exists(Next(s, Post(j)), p) && Answered(Next(s, Post(j)), p)
    ensures var t := Next(s, Post(j));
            t.jobs[p.j].verdict.Some? && EntryAt(t, p).id in t.results &&
            t.results[EntryAt(t, p).id] == ResultFor(EntryAt(t, p), t.jobs[p.j].verdict.value)
  {
    hide ResultFor;
    var job := s.jobs[j];
    var here, e := InJob(j, job.posted), job.entries[job.posted];
    assert Holds(s, here, e.id);
    if p != here {
      assert Exists(s, p) && Answered(s, p) && Holds(s, p, EntryAt(s, p).id);
    }
  }

  lemma StepKeepsInv(s: Service, step: Step)
    requires Inv(s) && Enabled(s, step)
    ensures Inv(Next(s, step))
    ensures forall id :: id in s.results ==> id in Next(s, step).results && Next(s, step).results[id] == s.results[id]
  {
    hide Inv;
    match step
    case Submit(e) => SubmitKeeps(s, e);
    case Drain(order) => DrainKeeps(s, order);
    case Conclude(j, v) => ConcludeKeeps(s, j, v);
    case Post(j) => PostKeeps(s, j);
  }

  // ---- runs ----

  ghost predicate Feasible(s: Service, steps: seq<Step>)
    decreases |steps|
  {
    steps == [] || (Enabled(s, steps[0]) && Feasible(Next(s, steps[0]), steps[1..]))
  }

  ghost function After(s: Service, steps: seq<Step>): Service
    requires Feasible(s, steps)
    decreases |steps|
  {
    if steps == [] then s else After(Next(s, steps[0]), steps[1..])
  }

  /** Over any run the invariant holds and a result, once given, never changes. */
  lemma {:induction false} RunKeepsResults(s: Service, steps: seq<Step>)
    requires Inv(s) && Feasible(s, steps)
    ensures Inv(After(s, steps))
    ensures forall id :: id in s.results ==>
            id in After(s, steps).results && After(s, steps).results[id] == s.results[id]
    decreases |steps|
  {
    if steps != [] {
      StepKeepsInv(s, steps[0]);
      hide Inv, Enabled, Next;
      RunKeepsResults(Next(s, steps[0]), steps[1..]);
    }
  }

  ghost predicate Queued(s: Service, id: nat) { exists m: nat, i: nat :: Holds(s, InQueue(m, i), id) }

  ghost predicate Flushing(s: Service, id: nat) {
    exists j: nat, i: nat :: Holds(s, InJob(j, i), id) && s.jobs[j].posted <= i
  }

  ghost predicate Done(s: Service, id: nat) { id in s.results }

  /**
   After any run each submitted request is in exactly one of queued, flushing and done, and nothing else is in any.
   */
  lemma Conservation(steps: seq<Step>, id: nat)
    requires Feasible(IDLE, steps)
    ensures var s := After(IDLE, steps);
            (id in s.submitted <==> Queued(s, id) || Flushing(s, id) || Done(s, id)) &&
            !(Queued(s, id) && Flushing(s, id)) && !(Queued(s, id) && Done(s, id)) && !(Flushing(s, id) && Done(s, id))
  {
    assert Inv(IDLE);
    RunKeepsResults(IDLE, steps);
    var s := After(IDLE, steps);
    if id in s.submitted {
      var p :| Holds(s, p, id);
      if p.InQueue? {
        assert Holds(s, InQueue(p.model, p.i), id);
      } else {
        assert Holds(s, InJob(p.j, p.i), id);
      }
    }
  }

  /** When the queue is empty and every job has answered, every submitted request has its own result. */
  lemma QuiescentMeansAnswered(steps: seq<Step>)
    requires Feasible(IDLE, steps)
    requires var s := After(IDLE, steps);
             s.queue == map[] && forall j :: 0 <= j < |s.jobs| ==> s.jobs[j].posted == |s.jobs[j].entries|
    ensures var s := After(IDLE, steps);
            s.results.Keys == s.submitted &&
            forall p :: Exists(s, p) ==>
              p.InJob? && s.jobs[p.j].verdict.Some? && EntryAt(s, p).id in s.results &&
              s.results[EntryAt(s, p).id] == ResultFor(EntryAt(s, p), s.jobs[p.j].verdict.value)
  {
    assert Inv(IDLE);
    RunKeepsResults(IDLE, steps);
    var s := After(IDLE, steps);
    hide ResultFor;
    forall id | id in s.submitted
      ensures id in s.results
    {
      var p :| Holds(s, p, id);
      assert Answered(s, p);
    }
    forall p | Exists(s, p)
      ensures p.InJob? && Answered(s, p)
    {
    }
  }

  /**
   What a poll tells a client of a submitted request, after any run: nothing means that it is queued or
   flushing; an answer is its own entry's, from its own job's verdict, and every later poll gives it again.
   */
  lemma PollsAreFinal(steps: seq<Step>, more: seq<Step>, id: nat)
    requires Feasible(IDLE, steps) && Feasible(After(IDLE, steps), more) && id in After(IDLE, steps).submitted
    ensures var s, later := After(IDLE, steps), After(After(IDLE, steps), more);
            (Polled(s.results, id).None? <==> Queued(s, id) || Flushing(s, id)) &&
            (Polled(s.results, id).Some? ==>
               Polled(later.results, id) == Polled(s.results, id) &&
               exists p :: Holds(s, p, id) && p.InJob? && s.jobs[p.j].verdict.Some? &&
                           Polled(s.results, id) == Some(ResultFor(EntryAt(s, p), s.jobs[p.j].verdict.value)))
  {
    assert Inv(IDLE);
    RunKeepsResults(IDLE, steps);
    var s := After(IDLE, steps);
    RunKeepsResults(s, more);
    Conservation(steps, id);
    hide ResultFor;
    var p :| Holds(s, p, id);
    if id in s.results {
      assert Exists(s, p) && Answered(s, p);
    }
  }
}
