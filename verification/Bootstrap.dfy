/** The bootstrap run (internal/bootstrap/service.go): every template on every server, one
    after the other, with or without stopping at the first failure. */
module Bootstrap {
  /** How an entry of the summary came about. */
  datatype How = RanWell | RanBadly | Simulated | Skipped

  datatype Entry = Entry(server: string, template: string, how: How)

  /** executor.Result.Success. */
  predicate Succeeded(e: Entry) {
    e.how.RanWell? || e.how.Simulated?
  }

  type Task = (string, string)

  function TaskOf(e: Entry): Task {
    (e.server, e.template)
  }

  /** The executor. Whether a task succeeds is arbitrary and may depend on all before it. */
  class Fleet {
    const works: seq<Task> -> bool
    var trace: seq<Task>

    constructor (works: seq<Task> -> bool)
      ensures this.works == works && trace == []
    {
      this.works, trace := works, [];
    }

    method Execute(server: string, template: string) returns (ok: bool)
      modifies this
      ensures trace == old(trace) + [(server, template)] && ok == works(trace)
    {
      trace := trace + [(server, template)];
      ok := works(trace);
    }
  }

  // ----- all pairs, in order -----

  function Row(server: string, templates: seq<string>): (r: seq<Task>)
    ensures |r| == |templates| && forall j :: 0 <= j < |r| ==> r[j] == (server, templates[j])
  {
    seq(|templates|, j requires 0 <= j < |templates| => (server, templates[j]))
  }

  function AllTasks(servers: seq<string>, templates: seq<string>): seq<Task> {
    if servers == [] then []
    else AllTasks(servers[..|servers| - 1], templates) + Row(servers[|servers| - 1], templates)
  }

  /** The order is lexicographic: server first, template second. */
  lemma {:induction false} TaskAt(servers: seq<string>, templates: seq<string>, i: nat, j: nat)
    requires i < |servers| && j < |templates|
    ensures |AllTasks(servers, templates)| == |servers| * |templates|
    ensures i * |templates| + j < |servers| * |templates|
    ensures AllTasks(servers, templates)[i * |templates| + j] == (servers[i], templates[j])
  {
    AllTasksSize(servers, templates);
    var front, n := servers[..|servers| - 1], |templates|;
    AllTasksSize(front, templates);
    if i == |front| {
      assert i * n + j == |front| * n + j;
    } else {
      TaskAt(front, templates, i, j);
    }
  }

  lemma {:induction false} AllTasksSize(servers: seq<string>, templates: seq<string>)
    ensures |AllTasks(servers, templates)| == |servers| * |templates|
  {
    if servers != [] {
      AllTasksSize(servers[..|servers| - 1], templates);
      assert |servers| * |templates| == (|servers| - 1) * |templates| + |templates|;
    }
  }

  lemma {:induction false} TasksPrefix(servers: seq<string>, k: nat, templates: seq<string>)
    requires k < |servers|
    ensures AllTasks(servers[..k + 1], templates) == AllTasks(servers[..k], templates) + Row(servers[k], templates)
  {
    assert servers[..k + 1][..k] == servers[..k];
  }

  // ----- what a list of entries says -----

  function Tasks(es: seq<Entry>): seq<Task> {
    if es == [] then [] else Tasks(es[..|es| - 1]) + [TaskOf(es[|es| - 1])]
  }

  predicate WasExecuted(e: Entry) {
    e.how.RanWell? || e.how.RanBadly?
  }

  function Executed(es: seq<Entry>): seq<Task> {
    if es == [] then []
    else Executed(es[..|es| - 1]) + if WasExecuted(es[|es| - 1]) then [TaskOf(es[|es| - 1])] else []
  }

  function Successes(es: seq<Entry>): nat {
    if es == [] then 0 else Successes(es[..|es| - 1]) + if Succeeded(es[|es| - 1]) then 1 else 0
  }

  predicate AnyFailed(es: seq<Entry>) {
    es != [] && (es[|es| - 1].how.RanBadly? || AnyFailed(es[..|es| - 1]))
  }

  /** Executed entries tell how their execution went. */
  predicate Truthful(works: seq<Task> -> bool, h: seq<Task>, es: seq<Entry>) {
    es == [] || (
      && Truthful(works, h, es[..|es| - 1])
      && (WasExecuted(es[|es| - 1]) ==> es[|es| - 1].how.RanWell? == works(h + Executed(es))))
  }

  /** Skipped entries are exactly those after a failure, when failures stop the run. */
  predicate Obeys(stop: bool, es: seq<Entry>) {
    es == [] || (
      && Obeys(stop, es[..|es| - 1])
      && (es[|es| - 1].how.Skipped? <==> stop && AnyFailed(es[..|es| - 1])))
  }

  /** The kind of run: a dry run only simulates, a real run never does. */
  predicate OfKind(dryRun: bool, es: seq<Entry>) {
    forall k :: 0 <= k < |es| ==> if dryRun then es[k].how.Simulated? else !es[k].how.Simulated?
  }

  ghost predicate Faithful(works: seq<Task> -> bool, h: seq<Task>, stop: bool, dryRun: bool, es: seq<Entry>, trace: seq<Task>) {
    && trace == h + Executed(es) && Truthful(works, h, es) && Obeys(stop, es) && OfKind(dryRun, es)
  }

  lemma AddedEntry(works: seq<Task> -> bool, h: seq<Task>, stop: bool, dryRun: bool, es: seq<Entry>, e: Entry,
                   before: seq<Task>, after: seq<Task>)
    requires Faithful(works, h, stop, dryRun, es, before)
    requires after == before + if WasExecuted(e) then [TaskOf(e)] else []
    requires WasExecuted(e) ==> e.how.RanWell? == works(after)
    requires e.how.Skipped? <==> stop && AnyFailed(es)
    requires e.how.Simulated? == dryRun
    ensures Faithful(works, h, stop, dryRun, es + [e], after)
    ensures AnyFailed(es + [e]) <==> AnyFailed(es) || e.how.RanBadly?
    ensures Tasks(es + [e]) == Tasks(es) + [TaskOf(e)]
    ensures Successes(es + [e]) == Successes(es) + if Succeeded(e) then 1 else 0
  {
    var all := es + [e];
    assert all[..|all| - 1] == es && all[|all| - 1] == e;
    if WasExecuted(e) {
      assert Executed(all) == Executed(es) + [TaskOf(e)];
      assert h + (Executed(es) + [TaskOf(e)]) == (h + Executed(es)) + [TaskOf(e)];
    }
  }

  // ----- the run -----

  class Summary {
    var results: seq<Entry>
    var successCount: nat
    var failureCount: nat

    ghost predicate Valid()
      reads this
    {
      successCount == Successes(results) && successCount + failureCount == |results|
    }

    constructor ()
      ensures Valid() && results == []
    {
      results, successCount, failureCount := [], 0, 0;
    }

    method Append(e: Entry)
      requires Valid()
      modifies this
      ensures Valid() && results == old(results) + [e]
    {
      assert (results + [e])[..|results + [e]| - 1] == results;
      results := results + [e];
      if e.how.RanWell? || e.how.Simulated? {
        successCount := successCount + 1;
      } else {
        failureCount := failureCount + 1;
      }
    }
  }

  /** One template on one server: skipped, simulated or executed. */
  method RunTemplate(fleet: Fleet, summary: Summary, server: string, template: string, stop: bool, dryRun: bool, serverFailed: bool,
                     ghost h: seq<Task>)
    returns (failed: bool)
    requires summary.Valid() && Faithful(fleet.works, h, stop, dryRun, summary.results, fleet.trace)
    requires stop ==> (serverFailed <==> AnyFailed(summary.results))
    requires dryRun ==> !serverFailed
    modifies fleet, summary
    ensures summary.Valid() && Faithful(fleet.works, h, stop, dryRun, summary.results, fleet.trace)
    ensures Tasks(summary.results) == old(Tasks(summary.results)) + [(server, template)]
    ensures |summary.results| == old(|summary.results|) + 1
    ensures stop ==> (failed <==> AnyFailed(summary.results))
    ensures serverFailed ==> failed
    ensures dryRun ==> !failed
  {
    ghost var es, before := summary.results, fleet.trace;
    failed := serverFailed;
    var e := Entry(server, template, Skipped);
    if !(serverFailed && stop) {
      if dryRun {
        e := Entry(server, template, Simulated);
        DryNeverFails(es);
      } else {
        var ok := fleet.Execute(server, template);
        e := Entry(server, template, if ok then RanWell else RanBadly);
        failed := serverFailed || !ok;
      }
    }
    AddedEntry(fleet.works, h, stop, dryRun, es, e, before, fleet.trace);
    summary.Append(e);
  }

  lemma {:induction false} DryNeverFails(es: seq<Entry>)
    requires OfKind(true, es)
    ensures !AnyFailed(es)
  {
    if es != [] {
      DryNeverFails(es[..|es| - 1]);
    }
  }

  /** The inner loop. */
  method RunServer(fleet: Fleet, summary: Summary, server: string, templates: seq<string>, stop: bool, dryRun: bool, ghost h: seq<Task>)
    returns (failed: bool)
    requires summary.Valid() && Faithful(fleet.works, h, stop, dryRun, summary.results, fleet.trace)
    requires stop ==> !AnyFailed(summary.results)
    modifies fleet, summary
    ensures summary.Valid() && Faithful(fleet.works, h, stop, dryRun, summary.results, fleet.trace)
    ensures Tasks(summary.results) == old(Tasks(summary.results)) + Row(server, templates)
    ensures stop ==> (failed <==> AnyFailed(summary.results))
    ensures dryRun ==> !failed
  {
    failed := false;
    ghost var start := Tasks(summary.results);
    for j := 0 to |templates|
      invariant summary.Valid() && Faithful(fleet.works, h, stop, dryRun, summary.results, fleet.trace)
      invariant Tasks(summary.results) == start + Row(server, templates)[..j]
      invariant stop ==> (failed <==> AnyFailed(summary.results))
      invariant dryRun ==> !failed
    {
      failed := RunTemplate(fleet, summary, server, templates[j], stop, dryRun, failed, h);
      assert Row(server, templates)[..j + 1] == Row(server, templates)[..j] + [(server, templates[j])];
    }
    assert Row(server, templates)[..|templates|] == Row(server, templates);
  }

  /** The remaining servers of a stopped run are recorded, not executed. */
  method SkipServer(fleet: Fleet, summary: Summary, server: string, templates: seq<string>, ghost h: seq<Task>)
    requires summary.Valid() && Faithful(fleet.works, h, true, false, summary.results, fleet.trace)
    requires AnyFailed(summary.results)
    modifies summary
    ensures summary.Valid() && Faithful(fleet.works, h, true, false, summary.results, fleet.trace)
    ensures AnyFailed(summary.results)
    ensures Tasks(summary.results) == old(Tasks(summary.results)) + Row(server, templates)
  {
    ghost var start := Tasks(summary.results);
    for j := 0 to |templates|
      invariant summary.Valid() && Faithful(fleet.works, h, true, false, summary.results, fleet.trace)
      invariant AnyFailed(summary.results)
      invariant Tasks(summary.results) == start + Row(server, templates)[..j]
    {
      var e := Entry(server, templates[j], Skipped);
      AddedEntry(fleet.works, h, true, false, summary.results, e, fleet.trace, fleet.trace);
      summary.Append(e);
      assert Row(server, templates)[..j + 1] == Row(server, templates)[..j] + [(server, templates[j])];
    }
    assert Row(server, templates)[..|templates|] == Row(server, templates);
  }

  /** Run. Every (server, template) pair is recorded once, in order; the counters add up;
      what was executed is what the entries say. */
  method Run(fleet: Fleet, servers: seq<string>, templates: seq<string>, stop: bool, dryRun: bool) returns (summary: Summary)
    modifies fleet
    ensures fresh(summary) && summary.Valid()
    ensures Faithful(fleet.works, old(fleet.trace), stop, dryRun, summary.results, fleet.trace)
    ensures Tasks(summary.results) == AllTasks(servers, templates)
  {
    summary := new Summary();
    ghost var h := fleet.trace;
    var i := 0;
    var stopped := false;
    while i < |servers| && !stopped
      invariant 0 <= i <= |servers| && fresh(summary) && summary.Valid()
      invariant Faithful(fleet.works, h, stop, dryRun, summary.results, fleet.trace)
      invariant Tasks(summary.results) == AllTasks(servers[..i], templates)
      invariant stop ==> (stopped <==> AnyFailed(summary.results))
      invariant stopped ==> stop && !dryRun
      decreases |servers| - i, !stopped
    {
      var failed := RunServer(fleet, summary, servers[i], templates, stop, dryRun, h);
      TasksPrefix(servers, i, templates);
      i := i + 1;
      stopped := failed && stop;
    }
    if i < |servers| {
      SkipServers(fleet, summary, servers, i, templates, h);
    }
    assert servers[..|servers|] == servers;
  }

  /** The rest of the outer loop once it has stopped, from server `from` on. */
  method SkipServers(fleet: Fleet, summary: Summary, servers: seq<string>, from: nat, templates: seq<string>, ghost h: seq<Task>)
    requires from <= |servers| && summary.Valid() && Faithful(fleet.works, h, true, false, summary.results, fleet.trace)
    requires AnyFailed(summary.results) && Tasks(summary.results) == AllTasks(servers[..from], templates)
    modifies summary
    ensures summary.Valid() && Faithful(fleet.works, h, true, false, summary.results, fleet.trace)
    ensures Tasks(summary.results) == AllTasks(servers, templates)
  {
    for i := from to |servers|
      invariant summary.Valid() && Faithful(fleet.works, h, true, false, summary.results, fleet.trace)
      invariant AnyFailed(summary.results) && Tasks(summary.results) == AllTasks(servers[..i], templates)
    {
      SkipServer(fleet, summary, servers[i], templates, h);
      TasksPrefix(servers, i, templates);
    }
    assert servers[..|servers|] == servers;
  }

  // ----- laws of a summary -----

  lemma {:induction false} AnyFailedIff(es: seq<Entry>)
    ensures AnyFailed(es) <==> exists k :: 0 <= k < |es| && es[k].how.RanBadly?
  {
    if es != [] {
      var front := es[..|es| - 1];
      AnyFailedIff(front);
      assert forall k :: 0 <= k < |front| ==> front[k] == es[k];
    }
  }

  lemma {:induction false} ObeysAt(stop: bool, es: seq<Entry>, j: nat)
    requires Obeys(stop, es) && j < |es|
    ensures es[j].how.Skipped? <==> stop && AnyFailed(es[..j])
    decreases |es|
  {
    if j < |es| - 1 {
      var front := es[..|es| - 1];
      ObeysAt(stop, front, j);
      assert front[..j] == es[..j] && front[j] == es[j];
    }
  }

  /** Main result: when failures stop the run, an entry is skipped, and so a failure,
      exactly when an earlier one was executed and failed; otherwise none is skipped. */
  lemma SkippedIff(stop: bool, es: seq<Entry>, j: nat)
    requires Obeys(stop, es) && j < |es|
    ensures es[j].how.Skipped? <==> stop && exists k :: 0 <= k < j && es[k].how.RanBadly?
    ensures es[j].how.Skipped? ==> !Succeeded(es[j])
  {
    ObeysAt(stop, es, j);
    AnyFailedIff(es[..j]);
    assert forall k :: 0 <= k < j ==> es[..j][k] == es[k];
  }

  lemma {:induction false} TasksSize(es: seq<Entry>)
    ensures |Tasks(es)| == |es|
  {
    if es != [] {
      TasksSize(es[..|es| - 1]);
    }
  }

  /** The number of results is the number of pairs, and both counters add up to it. */
  lemma ResultCount(servers: seq<string>, templates: seq<string>, es: seq<Entry>, successCount: nat, failureCount: nat)
    requires Tasks(es) == AllTasks(servers, templates) && successCount + failureCount == |es|
    ensures successCount + failureCount == |servers| * |templates|
  {
    TasksSize(es);
    AllTasksSize(servers, templates);
  }

  lemma {:induction false} AllExecuted(es: seq<Entry>)
    requires forall k :: 0 <= k < |es| ==> WasExecuted(es[k])
    ensures Executed(es) == Tasks(es)
  {
    if es != [] {
      AllExecuted(es[..|es| - 1]);
    }
  }

  /** A real run that does not stop executes every pair, in order; a dry run none. */
  lemma {:induction false} WhatIsExecuted(stop: bool, dryRun: bool, es: seq<Entry>)
    requires Obeys(stop, es) && OfKind(dryRun, es)
    ensures !stop && !dryRun ==> Executed(es) == Tasks(es)
    ensures dryRun ==> Executed(es) == []
    ensures Executed(es) <= Tasks(es)
  {
    if es != [] {
      var front, e := es[..|es| - 1], es[|es| - 1];
      WhatIsExecuted(stop, dryRun, front);
      if WasExecuted(e) {
        forall k | 0 <= k < |front| ensures WasExecuted(front[k]) {
          ObeysAt(stop, es, |front|);
          SkippedIff(stop, es, k);
          SkippedIff(stop, es, |front|);
          assert front[k] == es[k];
        }
        AllExecuted(front);
      }
    }
  }
}
