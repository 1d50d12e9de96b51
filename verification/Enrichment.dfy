/** Catalogue enrichment over repeated syncs: new models are scraped a few per run, scraped ones keep what was found. */
module Enrichment {
  import opened Basics

  const FALLBACK_CONTEXT: nat := 16_384

  datatype Category = Chat | Embedding | Decision

  /** A catalogue row as the API lists it, with the category it is given; rows without one are dropped. */
  datatype Model = Model(id: nat, category: Option<Category>, context: Option<nat>, maxOutput: Option<nat>,
                         priceIn: Option<real>)

  /** What a model's page yields, each field at best effort. */
  datatype Web = Web(fnCall: Option<bool>, jsonMode: Option<bool>, cached: Option<real>, context: Option<nat>,
                     maxOutput: Option<nat>)

  /** A row of the generated file. */
  datatype Entry = Entry(
    id: nat, category: Category, context: Option<nat>, maxOutput: Option<nat>, fnCall: bool, jsonMode: bool,
    priceIn: Option<real>, cached: Option<real>, enrichedAt: Option<int>, syncedAt: int)

  predicate Missing(size: Option<nat>) { size.None? || size.value == 0 }

  function NonZero(size: Option<nat>): Option<nat> { if Missing(size) then None else size }

  function MapEntry(m: Model, now: int): Entry
    requires m.category.Some?
  {
    Entry(m.id, m.category.value, NonZero(m.context), NonZero(m.maxOutput),
          m.category.value.Chat?, m.category.value.Chat?, m.priceIn, None, None, now)
  }

  /** A cached price that is not below the input price is a misreading. */
  predicate Plausible(cached: Option<real>, priceIn: Option<real>) {
    cached.Some? && (priceIn.Some? ==> cached.value < priceIn.value)
  }

  function Enrich(e: Entry, web: Web, now: int): Entry {
    e.(fnCall := web.fnCall.GetOr(e.fnCall), jsonMode := web.jsonMode.GetOr(e.jsonMode),
       cached := if Plausible(web.cached, e.priceIn) then web.cached else e.cached,
       context := if Missing(e.context) then web.context.Or(e.context) else e.context,
       maxOutput := if Missing(e.maxOutput) then web.maxOutput.Or(e.maxOutput) else e.maxOutput,
       enrichedAt := Some(now))
  }

  function CarryForward(e: Entry, prior: Entry): Entry {
    e.(fnCall := prior.fnCall, jsonMode := prior.jsonMode, cached := prior.cached, enrichedAt := prior.enrichedAt,
       context := if Missing(e.context) && !Missing(prior.context) then prior.context else e.context,
       maxOutput := if Missing(e.maxOutput) && !Missing(prior.maxOutput) then prior.maxOutput else e.maxOutput)
  }

  /** The last adjustments of a row: a fallback context, and the flags of a decision model. */
  function Finish(e: Entry): Entry {
    var f := if Missing(e.context) then e.(context := Some(FALLBACK_CONTEXT)) else e;
    if f.category.Decision? then f.(fnCall := false, jsonMode := true) else f
  }

  predicate EnrichedBefore(prior: map<nat, Entry>, id: nat) { id in prior && prior[id].enrichedAt.Some? }

  /** The page of a model not enriched before is fetched while the run has budget. */
  predicate Fetched(m: Model, prior: map<nat, Entry>, enriched: nat, budget: nat) {
    !EnrichedBefore(prior, m.id) && enriched < budget
  }

  /** It is scraped when it loads; a page that fails costs nothing. */
  predicate Scraped(m: Model, prior: map<nat, Entry>, pages: map<nat, Web>, enriched: nat, budget: nat) {
    Fetched(m, prior, enriched, budget) && m.id in pages
  }

  function RowFor(m: Model, prior: map<nat, Entry>, pages: map<nat, Web>, enriched: nat, budget: nat, now: int): Entry
    requires m.category.Some?
  {
    var listed := MapEntry(m, now);
    Finish(if EnrichedBefore(prior, m.id) then CarryForward(listed, prior[m.id])
           else if Scraped(m, prior, pages, enriched, budget) then Enrich(listed, pages[m.id], now)
           else listed)
  }

  function Spent(m: Model, prior: map<nat, Entry>, pages: map<nat, Web>, enriched: nat, budget: nat): nat {
    if Scraped(m, prior, pages, enriched, budget) then enriched + 1 else enriched
  }

  /** The rows of the models from here on, given how many have been enriched in this run. */
  function Rows(data: seq<Model>, prior: map<nat, Entry>, pages: map<nat, Web>, enriched: nat, budget: nat,
                now: int): seq<Entry> {
    if data == [] then []
    else if data[0].category.None? then Rows(data[1..], prior, pages, enriched, budget, now)
    else
      [RowFor(data[0], prior, pages, enriched, budget, now)] +
      Rows(data[1..], prior, pages, Spent(data[0], prior, pages, enriched, budget), budget, now)
  }

  function TotalSpent(data: seq<Model>, prior: map<nat, Entry>, pages: map<nat, Web>, enriched: nat, budget: nat): nat {
    if data == [] then enriched
    else if data[0].category.None? then TotalSpent(data[1..], prior, pages, enriched, budget)
    else TotalSpent(data[1..], prior, pages, Spent(data[0], prior, pages, enriched, budget), budget)
  }

  /** The pages a run asks for, in order. */
  function Fetches(data: seq<Model>, prior: map<nat, Entry>, pages: map<nat, Web>, enriched: nat,
                   budget: nat): seq<nat> {
    if data == [] then []
    else if data[0].category.None? then Fetches(data[1..], prior, pages, enriched, budget)
    else
      (if Fetched(data[0], prior, enriched, budget) then [data[0].id] else []) +
      Fetches(data[1..], prior, pages, Spent(data[0], prior, pages, enriched, budget), budget)
  }

  /** `fetched` is the log of the pages asked for. */
  method BuildEntries(data: seq<Model>, prior: map<nat, Entry>, pages: map<nat, Web>, budget: nat, now: int)
    returns (entries: seq<Entry>, enriched: nat, fetched: seq<nat>)
    ensures entries == Rows(data, prior, pages, 0, budget, now) && enriched == TotalSpent(data, prior, pages, 0, budget)
    ensures fetched == Fetches(data, prior, pages, 0, budget)
  {
    entries, enriched, fetched := [], 0, [];
    assert data[0..] == data;
    for i := 0 to |data|
      invariant entries + Rows(data[i..], prior, pages, enriched, budget, now) ==
                Rows(data, prior, pages, 0, budget, now)
      invariant TotalSpent(data[i..], prior, pages, enriched, budget) == TotalSpent(data, prior, pages, 0, budget)
      invariant fetched + Fetches(data[i..], prior, pages, enriched, budget) == Fetches(data, prior, pages, 0, budget)
    {
      var m := data[i];
      assert data[i..][0] == m && data[i..][1..] == data[i + 1..];
      if m.category.Some? {
        var entry, spent, asked := BuildRow(m, prior, pages, enriched, budget, now);
        hide RowFor, Spent, Fetched;
        entries, enriched, fetched := entries + [entry], spent, fetched + asked;
      }
    }
  }

  /** One pass of the loop over the catalogue. */
  method BuildRow(m: Model, prior: map<nat, Entry>, pages: map<nat, Web>, enriched: nat, budget: nat, now: int)
    returns (entry: Entry, spent: nat, asked: seq<nat>)
    requires m.category.Some?
    ensures entry == RowFor(m, prior, pages, enriched, budget, now) && spent == Spent(m, prior, pages, enriched, budget)
    ensures asked == if Fetched(m, prior, enriched, budget) then [m.id] else []
  {
    entry, spent, asked := MapEntry(m, now), enriched, [];
    hide Enrich, CarryForward, MapEntry;
    if m.id in prior && prior[m.id].enrichedAt.Some? {
      entry := CarryForward(entry, prior[m.id]);
    } else if enriched < budget {
      asked := [m.id];
      if m.id in pages {
        entry := Enrich(entry, pages[m.id], now);
        spent := spent + 1;
      }
    }
    if Missing(entry.context) {
      entry := entry.(context := Some(FALLBACK_CONTEXT));
    }
    if entry.category.Decision? {
      entry := entry.(fnCall := false, jsonMode := true);
    }
  }

  // ---- one run ----

  function Kept(data: seq<Model>): seq<Model> {
    if data == [] then [] else (if data[0].category.Some? then [data[0]] else []) + Kept(data[1..])
  }

  function CountEnriched(entries: seq<Entry>): nat {
    if entries == [] then 0 else (if entries[0].enrichedAt.Some? then 1 else 0) + CountEnriched(entries[1..])
  }

  function CountPrior(kept: seq<Model>, prior: map<nat, Entry>): nat {
    if kept == [] then 0 else (if EnrichedBefore(prior, kept[0].id) then 1 else 0) + CountPrior(kept[1..], prior)
  }

  function CountIn(kept: seq<Model>, ids: set<nat>): nat {
    if kept == [] then 0 else (if kept[0].id in ids then 1 else 0) + CountIn(kept[1..], ids)
  }

  lemma RowIsEnriched(m: Model, prior: map<nat, Entry>, pages: map<nat, Web>, enriched: nat, budget: nat, now: int)
    requires m.category.Some?
    ensures RowFor(m, prior, pages, enriched, budget, now).id == m.id
    ensures RowFor(m, prior, pages, enriched, budget, now).enrichedAt.Some? <==>
            EnrichedBefore(prior, m.id) || Scraped(m, prior, pages, enriched, budget)
  {
  }

  /**
   A run enriches at most its budget, and what it enriches adds to what was enriched before; a run that stays
   below its budget has enriched every model whose page succeeds.
   */
  lemma {:induction false} RunEnriches(
    data: seq<Model>, prior: map<nat, Entry>, pages: map<nat, Web>, enriched: nat, budget: nat, now: int, ids: set<nat>)
    requires enriched <= budget && ids <= pages.Keys
    ensures var rows := Rows(data, prior, pages, enriched, budget, now);
            var total := TotalSpent(data, prior, pages, enriched, budget);
            enriched <= total <= budget && CountEnriched(rows) == CountPrior(Kept(data), prior) + (total - enriched) &&
            (total < budget ==> CountEnriched(rows) >= CountIn(Kept(data), ids))
  {
    if data != [] {
      var m, rest := data[0], data[1..];
      if m.category.None? {
        RunEnriches(rest, prior, pages, enriched, budget, now, ids);
        assert Kept(data) == Kept(rest);
      } else {
        var spent := Spent(m, prior, pages, enriched, budget);
        RunEnriches(rest, prior, pages, spent, budget, now, ids);
        RowIsEnriched(m, prior, pages, enriched, budget, now);
        hide RowFor;
        var row, rows := RowFor(m, prior, pages, enriched, budget, now), Rows(rest, prior, pages, spent, budget, now);
        assert Kept(data) == [m] + Kept(rest) && ([m] + Kept(rest))[1..] == Kept(rest);
        assert ([row] + rows)[1..] == rows;
      }
    }
  }

  lemma {:induction false} FetchesAreKept(data: seq<Model>, prior: map<nat, Entry>, pages: map<nat, Web>, enriched: nat,
                                          budget: nat)
    ensures forall id :: id in Fetches(data, prior, pages, enriched, budget) ==>
            exists m :: m in Kept(data) && m.id == id
  {
    if data != [] {
      var m, rest := data[0], data[1..];
      FetchesAreKept(rest, prior, pages, if m.category.None? then enriched
                                         else Spent(m, prior, pages, enriched, budget), budget);
      assert forall k :: k in Kept(rest) ==> k in Kept(data);
      assert m.category.Some? ==> m in Kept(data);
      hide Fetched, Spent;
    }
  }

  /**
   A model's page is asked for in a run if and only if its row is not enriched in the previous file and the run
   has budget left when it comes to the model.
   */
  lemma {:induction false} FetchedIff(
    data: seq<Model>, prior: map<nat, Entry>, pages: map<nat, Web>, enriched: nat, budget: nat, i: nat)
    requires DistinctIds(data) && i < |data| && data[i].category.Some?
    ensures data[i].id in Fetches(data, prior, pages, enriched, budget) <==>
            !EnrichedBefore(prior, data[i].id) && TotalSpent(data[..i], prior, pages, enriched, budget) < budget
  {
    var m, rest := data[0], data[1..];
    var spent := if m.category.None? then enriched else Spent(m, prior, pages, enriched, budget);
    hide EnrichedBefore, Spent, DistinctIds, Kept;
    KeptTail(data);
    if m.category.Some? {
      FirstIsDistinct(data);
    }
    if i == 0 {
      FetchesAreKept(rest, prior, pages, spent, budget);
    } else {
      FetchedIff(rest, prior, pages, spent, budget, i - 1);
      assert data[..i][0] == m && data[..i][1..] == rest[..i - 1];
      KeptHolds(rest, i - 1);
    }
  }

  lemma FirstIsDistinct(data: seq<Model>)
    requires data != [] && data[0].category.Some? && DistinctIds(data)
    ensures forall k :: k in Kept(data[1..]) ==> k.id != data[0].id
  {
    var rest := Kept(data[1..]);
    assert Kept(data) == [data[0]] + rest;
    forall k | k in rest
      ensures k.id != data[0].id
    {
      var a :| 0 <= a < |rest| && rest[a] == k;
      assert Kept(data)[0].id != Kept(data)[a + 1].id;
    }
  }

  lemma KeptTail(data: seq<Model>)
    requires data != [] && DistinctIds(data)
    ensures DistinctIds(data[1..])
    ensures Kept(data) == (if data[0].category.Some? then [data[0]] else []) + Kept(data[1..])
  {
    var rest := Kept(data[1..]);
    if data[0].category.Some? {
      assert Kept(data) == [data[0]] + rest;
      hide Kept;
      DistinctTail(data[0], rest);
    } else {
      assert Kept(data) == [] + rest == rest;
    }
  }

  lemma DistinctTail(m: Model, rest: seq<Model>)
    requires Distinct([m] + rest)
    ensures Distinct(rest)
  {
    forall i, j | 0 <= i < j < |rest|
      ensures rest[i].id != rest[j].id
    {
      assert ([m] + rest)[i + 1].id != ([m] + rest)[j + 1].id;
    }
  }

  lemma {:induction false} KeptHolds(data: seq<Model>, i: nat)
    requires i < |data| && data[i].category.Some?
    ensures data[i] in Kept(data)
  {
    if i > 0 {
      KeptHolds(data[1..], i - 1);
    }
  }

  /** A row of a run for a model, made at whatever point of the budget. */
  ghost predicate IsRow(e: Entry, m: Model, prior: map<nat, Entry>, pages: map<nat, Web>, budget: nat, now: int) {
    m.category.Some? && exists n: nat :: e == RowFor(m, prior, pages, n, budget, now)
  }

  lemma RowIsRow(m: Model, prior: map<nat, Entry>, pages: map<nat, Web>, n: nat, budget: nat, now: int)
    requires m.category.Some?
    ensures IsRow(RowFor(m, prior, pages, n, budget, now), m, prior, pages, budget, now)
  {
    hide RowFor;
  }

  lemma {:induction false} RowsMatch(data: seq<Model>, prior: map<nat, Entry>, pages: map<nat, Web>, enriched: nat,
                                     budget: nat, now: int)
    ensures var rows, kept := Rows(data, prior, pages, enriched, budget, now), Kept(data);
            |rows| == |kept| && forall i :: 0 <= i < |kept| ==> IsRow(rows[i], kept[i], prior, pages, budget, now)
  {
    hide RowFor, IsRow, Spent;
    if data != [] {
      var m, rest := data[0], data[1..];
      if m.category.None? {
        RowsMatch(rest, prior, pages, enriched, budget, now);
        assert Kept(data) == Kept(rest);
      } else {
        var spent := Spent(m, prior, pages, enriched, budget);
        RowsMatch(rest, prior, pages, spent, budget, now);
        RowIsRow(m, prior, pages, enriched, budget, now);
        var rows, kept := Rows(rest, prior, pages, spent, budget, now), Kept(rest);
        var all := [RowFor(m, prior, pages, enriched, budget, now)] + rows;
        assert Rows(data, prior, pages, enriched, budget, now) == all && Kept(data) == [m] + kept;
        forall i | 0 <= i < |all|
          ensures IsRow(all[i], ([m] + kept)[i], prior, pages, budget, now)
        {
          if i > 0 {
            assert all[i] == rows[i - 1] && ([m] + kept)[i] == kept[i - 1];
          }
        }
      }
    }
  }

  // ---- the file between runs ----

  /** The previous file by id. */
  function PriorOf(file: seq<Entry>): map<nat, Entry> {
    if file == [] then map[] else PriorOf(file[..|file| - 1])[file[|file| - 1].id := file[|file| - 1]]
  }

  predicate Distinct(ms: seq<Model>) { forall i, j :: 0 <= i < j < |ms| ==> ms[i].id != ms[j].id }

  predicate DistinctIds(data: seq<Model>) { Distinct(Kept(data)) }

  predicate Lists(file: seq<Entry>, kept: seq<Model>) {
    |file| == |kept| && forall i :: 0 <= i < |file| ==> file[i].id == kept[i].id
  }

  lemma {:induction false} PriorAt(file: seq<Entry>, i: nat)
    requires i < |file| && forall a, b :: 0 <= a < b < |file| ==> file[a].id != file[b].id
    ensures file[i].id in PriorOf(file) && PriorOf(file)[file[i].id] == file[i]
  {
    if i < |file| - 1 {
      PriorAt(file[..|file| - 1], i);
    }
  }

  lemma {:induction false} CountsAgree(file: seq<Entry>, kept: seq<Model>, prior: map<nat, Entry>)
    requires Lists(file, kept) && forall i :: 0 <= i < |file| ==> file[i].id in prior && prior[file[i].id] == file[i]
    ensures CountPrior(kept, prior) == CountEnriched(file)
  {
    if file != [] {
      assert forall i :: 0 <= i < |file| - 1 ==> file[1..][i] == file[i + 1] && kept[1..][i] == kept[i + 1];
      CountsAgree(file[1..], kept[1..], prior);
      assert file[0].id == kept[0].id;
    }
  }

  /** A run: the pages that load during it, and its time. */
  datatype Run = Run(pages: map<nat, Web>, now: int)

  function Synced(data: seq<Model>, file: seq<Entry>, r: Run, budget: nat): seq<Entry> {
    Rows(data, PriorOf(file), r.pages, 0, budget, r.now)
  }

  function AllSynced(data: seq<Model>, file: seq<Entry>, runs: seq<Run>, budget: nat): seq<Entry> {
    if runs == [] then file
    else Synced(data, AllSynced(data, file, runs[..|runs| - 1], budget), runs[|runs| - 1], budget)
  }

  lemma SyncedLists(data: seq<Model>, file: seq<Entry>, r: Run, budget: nat)
    ensures Lists(Synced(data, file, r, budget), Kept(data))
  {
    var rows := Synced(data, file, r, budget);
    RowsMatch(data, PriorOf(file), r.pages, 0, budget, r.now);
    forall i | 0 <= i < |rows|
      ensures rows[i].id == Kept(data)[i].id
    {
      var n: nat :| rows[i] == RowFor(Kept(data)[i], PriorOf(file), r.pages, n, budget, r.now);
      RowIsEnriched(Kept(data)[i], PriorOf(file), r.pages, n, budget, r.now);
    }
  }

  /** From one file of a fixed catalogue to the next: at most the budget more, and all that can be had when less. */
  lemma SyncStep(data: seq<Model>, file: seq<Entry>, r: Run, budget: nat, ids: set<nat>)
    requires DistinctIds(data) && Lists(file, Kept(data)) && ids <= r.pages.Keys
    ensures var more := CountEnriched(Synced(data, file, r, budget));
            CountEnriched(file) <= more <= CountEnriched(file) + budget &&
            more >= Min(CountEnriched(file) + budget, CountIn(Kept(data), ids))
  {
    var kept, prior := Kept(data), PriorOf(file);
    assert forall i :: 0 <= i < |file| ==> file[i].id == kept[i].id;
    forall i | 0 <= i < |file|
      ensures file[i].id in prior && prior[file[i].id] == file[i]
    {
      PriorAt(file, i);
    }
    CountsAgree(file, kept, prior);
    RunEnriches(data, prior, r.pages, 0, budget, r.now, ids);
  }

  /** How many of the catalogue's models a file, of whatever origin, already marks as enriched. */
  function Already(data: seq<Model>, start: seq<Entry>): nat { CountPrior(Kept(data), PriorOf(start)) }

  /**
   Convergence over any runs of a fixed catalogue, from any file: k runs enrich at most k * budget further models
   and leave at least min(k * budget, n) enriched, where n counts the models whose page loads in every one of the
   runs; failing pages take nothing from the budget.
   */
  lemma {:induction false} RunsConverge(data: seq<Model>, start: seq<Entry>, runs: seq<Run>, budget: nat, ids: set<nat>)
    requires DistinctIds(data) && runs != [] && forall r :: r in runs ==> ids <= r.pages.Keys
    ensures Lists(AllSynced(data, start, runs, budget), Kept(data))
    ensures Min(|runs| * budget, CountIn(Kept(data), ids)) <= CountEnriched(AllSynced(data, start, runs, budget))
    ensures Already(data, start) <= CountEnriched(AllSynced(data, start, runs, budget)) <=
            Already(data, start) + |runs| * budget
  {
    var before, r := runs[..|runs| - 1], runs[|runs| - 1];
    var file := AllSynced(data, start, before, budget);
    SyncedLists(data, file, r, budget);
    if before == [] {
      RunEnriches(data, PriorOf(start), r.pages, 0, budget, r.now, ids);
      assert |runs| * budget == budget;
    } else {
      RunsConverge(data, start, before, budget, ids);
      SyncStep(data, file, r, budget, ids);
      hide Synced, CountIn, Kept, CountEnriched, DistinctIds, Already;
      BudgetsAdd(|before|, budget, CountIn(Kept(data), ids), CountEnriched(file), Already(data, start));
    }
  }

  lemma BudgetsAdd(k: nat, budget: nat, n: nat, had: nat, already: nat)
    requires Min(k * budget, n) <= had <= already + k * budget
    ensures Min(had + budget, n) >= Min((k + 1) * budget, n) && had + budget <= already + (k + 1) * budget
  {
    assert (k + 1) * budget == k * budget + budget;
  }

  // ---- what was scraped stays ----

  /** A row made from this model's API data, whatever was scraped for it. */
  predicate MadeFrom(e: Entry, m: Model) {
    m.category.Some? && e.id == m.id && e.category == m.category.value && e.priceIn == m.priceIn &&
    !Missing(e.context) &&
    (!Missing(m.context) ==> e.context == m.context) && (!Missing(m.maxOutput) ==> e.maxOutput == m.maxOutput) &&
    (e.category.Decision? ==> !e.fnCall && e.jsonMode)
  }

  lemma RowIsMadeFrom(m: Model, prior: map<nat, Entry>, pages: map<nat, Web>, n: nat, budget: nat, now: int)
    requires m.category.Some?
    ensures MadeFrom(RowFor(m, prior, pages, n, budget, now), m)
  {
  }

  /** An enriched row after a later sync: an output size of zero is no size and is not carried forward. */
  function Resynced(e: Entry, now: int): Entry { e.(syncedAt := now, maxOutput := NonZero(e.maxOutput)) }

  lemma RowStays(m: Model, prior: map<nat, Entry>, pages: map<nat, Web>, n: nat, budget: nat, now: int)
    requires m.id in prior && MadeFrom(prior[m.id], m) && prior[m.id].enrichedAt.Some?
    ensures RowFor(m, prior, pages, n, budget, now) == Resynced(prior[m.id], now)
  {
  }

  /**
   A model once enriched keeps every scraped field over any further runs, but for an output size of zero:
   the size is kept if and only if it is not zero, and becomes unknown otherwise.
   */
  lemma {:induction false} EnrichedStays(
    data: seq<Model>, start: seq<Entry>, first: seq<Run>, later: seq<Run>, budget: nat, i: nat)
    requires DistinctIds(data) && first != []
    requires var file := AllSynced(data, start, first, budget);
             i < |file| && file[i].enrichedAt.Some?
    ensures var file, last := AllSynced(data, start, first, budget), AllSynced(data, start, first + later, budget);
            |last| == |file| &&
            last[i] == (if later == [] then file[i] else Resynced(file[i], later[|later| - 1].now)) &&
            (later != [] ==> (last[i].maxOutput == file[i].maxOutput <==> file[i].maxOutput != Some(0)))
  {
    hide RowFor;
    var file := AllSynced(data, start, first, budget);
    AllMadeFrom(data, start, first, budget);
    if later == [] {
      assert first + later == first;
    } else {
      var front, r := later[..|later| - 1], later[|later| - 1];
      assert (first + later)[..|first + later| - 1] == first + front && (first + later)[|first + later| - 1] == r;
      EnrichedStays(data, start, first, front, budget, i);
      AllMadeFrom(data, start, first + front, budget);
      RowOfNext(data, AllSynced(data, start, first + front, budget), r, budget, i);
    }
  }

  /** Two runs of one model whose page gives an output size of zero: written by the first, unknown after the second. */
  lemma ZeroSizeIsDropped()
    ensures var data := [Model(0, Some(Chat), Some(1_000), None, None)];
            var r := Run(map[0 := Web(None, None, None, None, Some(0))], 1);
            var once := Synced(data, [], r, 1);
            var twice := Synced(data, once, r, 1);
            |once| == |twice| == 1 && once[0].enrichedAt == twice[0].enrichedAt == Some(1) &&
            once[0].maxOutput == Some(0) && twice[0].maxOutput == None
  {
    var data := [Model(0, Some(Chat), Some(1_000), None, None)];
    var r := Run(map[0 := Web(None, None, None, None, Some(0))], 1);
    var once := Synced(data, [], r, 1);
    OneRow(data[0], PriorOf([]), r, 1);
    assert once == [RowFor(data[0], map[], r.pages, 0, 1, 1)];
    assert once[..0] == [] && PriorOf(once) == map[0 := once[0]];
    OneRow(data[0], PriorOf(once), r, 1);
  }

  lemma OneRow(m: Model, prior: map<nat, Entry>, r: Run, budget: nat)
    requires m.category.Some?
    ensures Rows([m], prior, r.pages, 0, budget, r.now) == [RowFor(m, prior, r.pages, 0, budget, r.now)]
  {
    hide RowFor;
    assert [m][1..] == [];
  }

  /**
   Two models and a budget of one page per run, where only the first model's page loads. The second's is not
   asked for in the first run, since the budget is spent on the first; it is in the second, fails, and is asked
   for again in the third.
   */
  lemma UnloadedWaitsForBudget()
    ensures var data := [Model(0, Some(Chat), None, None, None), Model(1, Some(Chat), None, None, None)];
            var pages := map[0 := Web(None, None, None, None, None)];
            var file := Synced(data, [], Run(pages, 1), 1);
            var next := Synced(data, file, Run(pages, 2), 1);
            Fetches(data, PriorOf([]), pages, 0, 1) == [0] && Fetches(data, PriorOf(file), pages, 0, 1) == [1] &&
            |file| == |next| == 2 && file[1].enrichedAt.None? && next[1].enrichedAt.None? &&
            Fetches(data, PriorOf(next), pages, 0, 1) == [1]
  {
    var a, b := Model(0, Some(Chat), None, None, None), Model(1, Some(Chat), None, None, None);
    var pages := map[0 := Web(None, None, None, None, None)];
    var file := Synced([a, b], [], Run(pages, 1), 1);
    TwoRows(a, b, PriorOf([]), pages, 1, 1);
    TwoPrior(file[0], file[1]);
    assert file == [file[0], file[1]];
    var next := Synced([a, b], file, Run(pages, 2), 1);
    TwoRows(a, b, PriorOf(file), pages, 1, 2);
    TwoPrior(next[0], next[1]);
    assert next == [next[0], next[1]];
    TwoRows(a, b, PriorOf(next), pages, 1, 3);
  }

  lemma TwoPrior(e: Entry, f: Entry)
    ensures PriorOf([e, f]) == map[e.id := e][f.id := f]
  {
    assert [e, f][..1] == [e] && [e][..0] == [];
    assert PriorOf([e]) == map[][e.id := e];
  }

  lemma TwoRows(a: Model, b: Model, prior: map<nat, Entry>, pages: map<nat, Web>, budget: nat, now: int)
    requires a.category.Some? && b.category.Some?
    ensures var spent := Spent(a, prior, pages, 0, budget);
            Rows([a, b], prior, pages, 0, budget, now) ==
            [RowFor(a, prior, pages, 0, budget, now), RowFor(b, prior, pages, spent, budget, now)] &&
            Fetches([a, b], prior, pages, 0, budget) ==
            (if Fetched(a, prior, 0, budget) then [a.id] else []) +
            (if Fetched(b, prior, spent, budget) then [b.id] else [])
  {
    hide RowFor, Fetched, Spent;
    var both, one, spent := [a, b], [b], Spent(a, prior, pages, 0, budget);
    assert both[1..] == one && one[1..] == [];
    assert Rows(one, prior, pages, spent, budget, now) == [RowFor(b, prior, pages, spent, budget, now)];
    assert Rows(both, prior, pages, 0, budget, now) ==
           [RowFor(a, prior, pages, 0, budget, now)] + Rows(one, prior, pages, spent, budget, now);
    assert Fetches(one, prior, pages, spent, budget) == if Fetched(b, prior, spent, budget) then [b.id] else [];
  }

  lemma AllMadeFrom(data: seq<Model>, start: seq<Entry>, runs: seq<Run>, budget: nat)
    requires runs != []
    ensures var file, kept := AllSynced(data, start, runs, budget), Kept(data);
            |file| == |kept| && forall i :: 0 <= i < |file| ==> MadeFrom(file[i], kept[i])
  {
    var before, r := AllSynced(data, start, runs[..|runs| - 1], budget), runs[|runs| - 1];
    var rows, kept := Synced(data, before, r, budget), Kept(data);
    RowsMatch(data, PriorOf(before), r.pages, 0, budget, r.now);
    hide RowFor, MadeFrom, Rows, Kept;
    forall i | 0 <= i < |rows|
      ensures MadeFrom(rows[i], kept[i])
    {
      var n: nat :| rows[i] == RowFor(kept[i], PriorOf(before), r.pages, n, budget, r.now);
      RowIsMadeFrom(kept[i], PriorOf(before), r.pages, n, budget, r.now);
    }
  }

  lemma RowOfNext(data: seq<Model>, file: seq<Entry>, r: Run, budget: nat, i: nat)
    requires DistinctIds(data) && |file| == |Kept(data)| &&
             forall j :: 0 <= j < |file| ==> MadeFrom(file[j], Kept(data)[j])
    requires i < |file| && file[i].enrichedAt.Some?
    ensures |Synced(data, file, r, budget)| == |file| && Synced(data, file, r, budget)[i] == Resynced(file[i], r.now)
  {
    var kept, prior, rows := Kept(data), PriorOf(file), Synced(data, file, r, budget);
    hide RowFor;
    RowsMatch(data, prior, r.pages, 0, budget, r.now);
    assert forall j :: 0 <= j < |file| ==> file[j].id == kept[j].id;
    PriorAt(file, i);
    var n: nat :| rows[i] == RowFor(kept[i], prior, r.pages, n, budget, r.now);
    RowStays(kept[i], prior, r.pages, n, budget, r.now);
  }

  // ---- what a row says ----

  /** The first of two sizes that is known and not zero. */
  function FirstSize(a: Option<nat>, b: Option<nat>): Option<nat> {
    if a.Some? && a.value > 0 then a else if b.Some? && b.value > 0 then b else None
  }

  function OrElse<T>(a: Option<T>, b: T): T { if a.Some? then a.value else b }

  const NO_PAGE := Web(None, None, None, None, None)

  /**
   A row that is not carried forward, field by field: the API's sizes before the page's and a fallback context, the
   page's flags before what chat models are taken to support, and a cached price only if it is below the input price.
   */
  lemma FreshRow(m: Model, prior: map<nat, Entry>, pages: map<nat, Web>, n: nat, budget: nat, now: int)
    requires m.category.Some? && !EnrichedBefore(prior, m.id)
    ensures var e := RowFor(m, prior, pages, n, budget, now);
            var scraped := n < budget && m.id in pages;
            var web := if scraped then pages[m.id] else NO_PAGE;
            e.id == m.id && e.category == m.category.value && e.priceIn == m.priceIn && e.syncedAt == now &&
            e.enrichedAt == (if scraped then Some(now) else None) &&
            e.context == Some(FirstSize(m.context, web.context).GetOr(16_384)) &&
            (FirstSize(m.maxOutput, None).Some? ==> e.maxOutput == m.maxOutput) &&
            (FirstSize(m.maxOutput, None).None? ==> e.maxOutput == web.maxOutput) &&
            (m.category.value.Decision? ==> !e.fnCall && e.jsonMode) &&
            (!m.category.value.Decision? ==>
               e.fnCall == OrElse(web.fnCall, m.category.value.Chat?) &&
               e.jsonMode == OrElse(web.jsonMode, m.category.value.Chat?)) &&
            forall p :: e.cached == Some(p) <==> web.cached == Some(p) && (m.priceIn.Some? ==> p < m.priceIn.value)
  {
  }

  /** A row that is carried forward, whatever the API says by now: what was scraped stays, but API sizes come first. */
  lemma CarriedRow(m: Model, prior: map<nat, Entry>, pages: map<nat, Web>, n: nat, budget: nat, now: int)
    requires m.category.Some? && EnrichedBefore(prior, m.id)
    ensures var e, p := RowFor(m, prior, pages, n, budget, now), prior[m.id];
            e.id == m.id && e.category == m.category.value && e.priceIn == m.priceIn && e.syncedAt == now &&
            e.enrichedAt == p.enrichedAt && e.cached == p.cached &&
            e.context == Some(FirstSize(m.context, p.context).GetOr(16_384)) &&
            e.maxOutput == FirstSize(m.maxOutput, p.maxOutput) &&
            (if m.category.value.Decision? then !e.fnCall && e.jsonMode
             else e.fnCall == p.fnCall && e.jsonMode == p.jsonMode)
  {
  }

  // ---- a cached price is a discount ----

  predicate Discounted(e: Entry) { e.cached.Some? && e.priceIn.Some? ==> e.cached.value < e.priceIn.value }

  /** A row's cached price is below its input price unless it was carried forward past a fall of the input price. */
  lemma DiscountedIff(m: Model, prior: map<nat, Entry>, pages: map<nat, Web>, n: nat, budget: nat, now: int)
    requires m.category.Some?
    ensures Discounted(RowFor(m, prior, pages, n, budget, now)) <==>
            !(EnrichedBefore(prior, m.id) && prior[m.id].cached.Some? && m.priceIn.Some? &&
              m.priceIn.value <= prior[m.id].cached.value)
  {
    if EnrichedBefore(prior, m.id) {
      CarriedRow(m, prior, pages, n, budget, now);
    } else {
      FreshRow(m, prior, pages, n, budget, now);
    }
    hide RowFor;
  }

  /** While the catalogue keeps its prices every cached price in the file is a discount, after any number of runs. */
  lemma {:induction false} CachedIsDiscount(data: seq<Model>, runs: seq<Run>, budget: nat)
    requires DistinctIds(data)
    ensures forall e :: e in AllSynced(data, [], runs, budget) ==> Discounted(e)
  {
    if runs != [] {
      var before, r := runs[..|runs| - 1], runs[|runs| - 1];
      var file := AllSynced(data, [], before, budget);
      CachedIsDiscount(data, before, budget);
      if before != [] {
        AllMadeFrom(data, [], before, budget);
        assert |file| == |Kept(data)| && forall i :: 0 <= i < |file| ==> file[i].id == Kept(data)[i].id;
      }
      var rows := Synced(data, file, r, budget);
      RowsMatch(data, PriorOf(file), r.pages, 0, budget, r.now);
      hide RowFor, Discounted, MadeFrom, Rows, Kept, PriorOf, AllSynced;
      forall i | 0 <= i < |rows|
        ensures Discounted(rows[i])
      {
        DiscountStays(data, file, before != [], r, budget, i);
      }
    }
  }

  lemma DiscountStays(data: seq<Model>, file: seq<Entry>, listed: bool, r: Run, budget: nat, i: nat)
    requires DistinctIds(data) && (forall e :: e in file ==> Discounted(e)) && i < |Kept(data)|
    requires if listed then |file| == |Kept(data)| && forall j :: 0 <= j < |file| ==> MadeFrom(file[j], Kept(data)[j])
             else file == []
    ensures |Synced(data, file, r, budget)| == |Kept(data)| && Discounted(Synced(data, file, r, budget)[i])
  {
    var m, prior := Kept(data)[i], PriorOf(file);
    RowsMatch(data, prior, r.pages, 0, budget, r.now);
    var n: nat :| Synced(data, file, r, budget)[i] == RowFor(m, prior, r.pages, n, budget, r.now);
    if listed {
      assert forall j :: 0 <= j < |file| ==> file[j].id == Kept(data)[j].id;
      PriorAt(file, i);
      assert file[i] in file && file[i].priceIn == m.priceIn;
    }
    assert m.category.Some? by { KeptHasCategory(data, i); }
    hide RowFor, Rows;
    DiscountedIff(m, prior, r.pages, n, budget, r.now);
  }

  lemma {:induction false} KeptHasCategory(data: seq<Model>, i: nat)
    requires i < |Kept(data)|
    ensures Kept(data)[i].category.Some?
  {
    if data[0].category.None? {
      KeptHasCategory(data[1..], i);
    } else if i > 0 {
      KeptHasCategory(data[1..], i - 1);
    }
  }

  /** When the input price falls below the cached price that was scraped, the file keeps the cached price. */
  lemma FallenPriceKeepsCached()
    ensures var before := Model(0, Some(Chat), Some(1_000), None, Some(10.0));
            var after := before.(priceIn := Some(4.0));
            var r := Run(map[0 := Web(None, None, Some(5.0), None, None)], 1);
            var once := Synced([before], [], r, 1);
            var twice := Synced([after], once, r, 1);
            |once| == |twice| == 1 && Discounted(once[0]) && !Discounted(twice[0])
  {
    var before := Model(0, Some(Chat), Some(1_000), None, Some(10.0));
    var after := before.(priceIn := Some(4.0));
    var r := Run(map[0 := Web(None, None, Some(5.0), None, None)], 1);
    OneRow(before, map[], r, 1);
    var once := Synced([before], [], r, 1);
    FreshRow(before, map[], r.pages, 0, 1, 1);
    PriorAt(once, 0);
    OneRow(after, PriorOf(once), r, 1);
    CarriedRow(after, PriorOf(once), r.pages, 0, 1, 1);
    hide RowFor;
  }
}
