/**
 * downloader_coro and download_many: one task per country code, in sorted
 * order, all admitted through one Semaphore(concur_req), drained in
 * completion order into a Counter.
 *
 * The event loop is modelled by its effect on the tasks. A task first waits
 * at the gate; once a permit is free it takes it and sends its request
 * (StartDownload); later its reply arrives, it gives the permit back,
 * dispatches the save on success and finishes (FinishDownload), and the
 * drain loop counts its status at once. Which enabled task moves next is an
 * arbitrary choice, so every property below holds for every interleaving
 * and every completion order.
 */
module Downloader {
  import opened FlagsCommon
  import opened Fetch
  import opened Gate
  import opened Tally
  import opened Trace
  import opened Sorting

  /** Where a task is: before the gate, holding a permit with its request in
      flight, or finished and counted. */
  datatype Phase = Waiting | InFlight | Done

  /** How the download of each code of ccs ends. */
  function Outcomes(ccs: seq<string>, baseUrl: string, network: string -> Reply): seq<TaskOutcome> {
    seq(|ccs|, i requires 0 <= i < |ccs| => DownloadOne(ccs[i], baseUrl, network))
  }

  /** The URL each code of ccs is fetched from. */
  function Urls(ccs: seq<string>, baseUrl: string): seq<string> {
    seq(|ccs|, i requires 0 <= i < |ccs| => FlagUrl(baseUrl, ccs[i]))
  }

  lemma UrlAt(ccs: seq<string>, baseUrl: string, i: nat)
    requires i < |ccs|
    ensures |Urls(ccs, baseUrl)| == |ccs| && Urls(ccs, baseUrl)[i] == FlagUrl(baseUrl, ccs[i])
  {
  }

  lemma OutcomeAt(ccs: seq<string>, baseUrl: string, network: string -> Reply, i: nat)
    requires i < |ccs|
    ensures |Outcomes(ccs, baseUrl, network)| == |ccs|
    ensures Outcomes(ccs, baseUrl, network)[i] == DownloadOne(ccs[i], baseUrl, network)
  {
  }

  function StatusesOf(outcomes: seq<TaskOutcome>): seq<HttpStatus> {
    seq(|outcomes|, i requires 0 <= i < |outcomes| => StatusOf(outcomes[i]))
  }

  /** The status each code of ccs is counted under. */
  function Statuses(ccs: seq<string>, baseUrl: string, network: string -> Reply): seq<HttpStatus> {
    StatusesOf(Outcomes(ccs, baseUrl, network))
  }

  lemma StatusesConcat(u: seq<string>, v: seq<string>, baseUrl: string, network: string -> Reply)
    ensures Statuses(u + v, baseUrl, network) == Statuses(u, baseUrl, network) + Statuses(v, baseUrl, network)
  {
  }

  /** Reordering the codes reorders their statuses and nothing else. */
  lemma {:induction false} StatusesPermutation(a: seq<string>, b: seq<string>, baseUrl: string, network: string -> Reply)
    requires multiset(a) == multiset(b)
    ensures multiset(Statuses(a, baseUrl, network)) == multiset(Statuses(b, baseUrl, network))
    decreases |a|
  {
    if a == [] {
      assert |b| == |multiset(b)| == 0;
    } else {
      var x := a[0];
      assert x in multiset(b);
      var j :| 0 <= j < |b| && b[j] == x;
      var front, back := b[..j], b[j + 1..];
      assert b == front + [x] + back;
      assert a == [x] + a[1..];
      assert multiset(a[1..]) == multiset(front + back) by {
        assert multiset(a[1..]) == multiset(a) - multiset{x};
        assert multiset(front + back) == multiset(b) - multiset{x};
      }
      StatusesPermutation(a[1..], front + back, baseUrl, network);
      StatusesConcat([x], a[1..], baseUrl, network);
      StatusesConcat(front + [x], back, baseUrl, network);
      StatusesConcat(front, [x], baseUrl, network);
      StatusesConcat(front, back, baseUrl, network);
    }
  }

  /** The save_flag call a finished task dispatched, if any. */
  function SaveEvents(task: nat, outcome: TaskOutcome): seq<Event> {
    if outcome.Returned? && outcome.save.Some? then [Save(task, outcome.save.value)] else []
  }

  /** The events one task has produced by the time it is in phase p: take a
      permit, send the request for its URL, give the permit back, and only
      then dispatch the save. */
  function TaskEvents(task: nat, p: Phase, url: string, outcome: TaskOutcome): seq<Event> {
    match p
    case Waiting => []
    case InFlight => [Acquire(task), Request(task, url)]
    case Done => [Acquire(task), Request(task, url), Release(task)] + SaveEvents(task, outcome)
  }

  /** Every task's own events in log are those of its phase. */
  ghost predicate Traced(log: seq<Event>, phase: seq<Phase>, urls: seq<string>, outcomes: seq<TaskOutcome>)
    requires |phase| == |urls| == |outcomes|
  {
    forall j :: 0 <= j < |phase| ==> Project(log, j) == TaskEvents(j, phase[j], urls[j], outcomes[j])
  }

  lemma TracedStep(log: seq<Event>, events: seq<Event>, phase: seq<Phase>, i: nat, p: Phase,
                   urls: seq<string>, outcomes: seq<TaskOutcome>)
    requires |phase| == |urls| == |outcomes| && i < |phase|
    requires Traced(log, phase, urls, outcomes)
    requires forall k :: 0 <= k < |events| ==> events[k].task == i
    requires TaskEvents(i, phase[i], urls[i], outcomes[i]) + events == TaskEvents(i, p, urls[i], outcomes[i])
    ensures Traced(log + events, phase[i := p], urls, outcomes)
  {
    forall j | 0 <= j < |phase|
      ensures Project(log + events, j) == TaskEvents(j, phase[i := p][j], urls[j], outcomes[j])
    {
      ProjectAppend(log, events, j);
      ProjectSingleTask(events, i, j);
    }
  }

  /** Every event in log belongs to one of the n tasks of the run. */
  ghost predicate OwnEvents(log: seq<Event>, n: nat) {
    forall k :: 0 <= k < |log| ==> log[k].task < n
  }

  /** A step of task i, one of the n tasks, adds only events of task i. */
  lemma OwnEventsStep(log: seq<Event>, events: seq<Event>, i: nat, n: nat, log': seq<Event>)
    requires OwnEvents(log, n) && i < n && log' == log + events
    requires forall k :: 0 <= k < |events| ==> events[k].task == i
    ensures OwnEvents(log', n)
  {
  }

  /** The statuses of the finished tasks. */
  function DoneStatuses(phase: seq<Phase>, outcomes: seq<TaskOutcome>): multiset<HttpStatus>
    requires |phase| == |outcomes|
  {
    DoneBelow(phase, outcomes, |phase|)
  }

  /** The statuses of the finished tasks among the first k. */
  function DoneBelow(phase: seq<Phase>, outcomes: seq<TaskOutcome>, k: nat): multiset<HttpStatus>
    requires k <= |phase| == |outcomes|
  {
    if k == 0 then multiset{}
    else DoneBelow(phase, outcomes, k - 1) + (if phase[k - 1] == Done then multiset{StatusOf(outcomes[k - 1])} else multiset{})
  }

  lemma {:induction false} DoneBelowUpdate(phase: seq<Phase>, st: seq<TaskOutcome>, i: nat, p: Phase, k: nat)
    requires |phase| == |st| && i < |phase| && phase[i] != Done && k <= |phase|
    ensures DoneBelow(phase[i := p], st, k)
         == DoneBelow(phase, st, k) + (if p == Done && i < k then multiset{StatusOf(st[i])} else multiset{})
    decreases k
  {
    if k > 0 {
      DoneBelowUpdate(phase, st, i, p, k - 1);
    }
  }

  lemma DoneStatusesUpdate(phase: seq<Phase>, st: seq<TaskOutcome>, i: nat, p: Phase)
    requires |phase| == |st| && i < |phase| && phase[i] != Done
    ensures DoneStatuses(phase[i := p], st)
         == DoneStatuses(phase, st) + (if p == Done then multiset{StatusOf(st[i])} else multiset{})
  {
    DoneBelowUpdate(phase, st, i, p, |phase|);
  }

  lemma {:induction false} DoneBelowNone(phase: seq<Phase>, st: seq<TaskOutcome>, k: nat)
    requires k <= |phase| == |st|
    requires forall j :: 0 <= j < |phase| ==> phase[j] == Waiting
    ensures DoneBelow(phase, st, k) == multiset{}
    decreases k
  {
    if k > 0 {
      DoneBelowNone(phase, st, k - 1);
    }
  }

  lemma {:induction false} DoneBelowAll(phase: seq<Phase>, st: seq<TaskOutcome>, k: nat)
    requires k <= |phase| == |st|
    requires forall j :: 0 <= j < |phase| ==> phase[j] == Done
    ensures DoneBelow(phase, st, k) == multiset(StatusesOf(st)[..k])
    decreases k
  {
    if k > 0 {
      DoneBelowAll(phase, st, k - 1);
      PrefixMultiset(StatusesOf(st), k);
    }
  }

  lemma PrefixMultiset(s: seq<HttpStatus>, k: nat)
    requires 0 < k <= |s|
    ensures multiset(s[..k]) == multiset(s[..k - 1]) + multiset{s[k - 1]}
  {
    assert s[..k] == s[..k - 1] + [s[k - 1]];
  }

  /** download_one up to its suspension point: enter the `with` block (the
      caller only runs it while a permit is free) and send the request. */
  method StartDownload(gate: Semaphore, task: nat, cc: string, baseUrl: string) returns (events: seq<Event>)
    requires gate.Valid() && gate.held < gate.capacity
    modifies gate
    ensures gate.Valid() && gate.held == old(gate.held) + 1
    ensures events == [Acquire(task), Request(task, FlagUrl(baseUrl, cc))]
  {
    gate.Acquire();
    events := [Acquire(task), Request(task, FlagUrl(baseUrl, cc))];
  }

  /** download_one from the arrival of the reply: get_flag returns or raises,
      the `with` block gives the permit back on either path, and only then is
      the outcome settled and, on success, the save dispatched. */
  method FinishDownload(gate: Semaphore, task: nat, cc: string, baseUrl: string, network: string -> Reply)
    returns (outcome: TaskOutcome, events: seq<Event>)
    requires gate.Valid() && gate.held > 0
    modifies gate
    ensures gate.Valid() && gate.held == old(gate.held) - 1
    ensures outcome == DownloadOne(cc, baseUrl, network)
    ensures events == [Release(task)] + SaveEvents(task, outcome)
  {
    var fetched := GetFlag(baseUrl, cc, network);
    gate.Release();
    events := [Release(task)];
    outcome := Settle(cc, fetched);
    if outcome.Returned? && outcome.save.Some? {
      events := events + [Save(task, outcome.save.value)];
    }
  }

  lemma FoldAppend(drained: seq<HttpStatus>, status: HttpStatus)
    ensures Fold(drained + [status]) == Record(Fold(drained), status)
  {
    assert (drained + [status])[..|drained|] == drained;
  }

  /** No deadlock: while some task is unfinished, some task can move. */
  lemma SomeTaskEnabled(phase: seq<Phase>, held: nat, capacity: nat)
    requires capacity >= 1 && held <= capacity && held == multiset(phase)[InFlight]
    requires exists j :: 0 <= j < |phase| && phase[j] != Done
    ensures exists i :: 0 <= i < |phase| && (phase[i] == InFlight || (phase[i] == Waiting && held < capacity))
  {
    var j :| 0 <= j < |phase| && phase[j] != Done;
    if phase[j] == Waiting && held == capacity {
      assert InFlight in multiset(phase);
      var k :| 0 <= k < |phase| && phase[k] == InFlight;
    }
  }

  /** What holds of a run between two steps of the event loop: the gate
      counts the tasks in flight and has never been over capacity, every
      event belongs to a task of the run and every task's events match its phase, and the counter is the fold of the
      statuses drained so far, which are those of the finished tasks. */
  ghost predicate RunState(held: nat, phase: seq<Phase>, log: seq<Event>, drained: seq<HttpStatus>, counter: Counter,
                           urls: seq<string>, outcomes: seq<TaskOutcome>, capacity: nat)
  {
    && |phase| == |urls| == |outcomes|
    && held == multiset(phase)[InFlight]
    && GateSafe(log, capacity) && Held(log) == held
    && OwnEvents(log, |phase|)
    && Traced(log, phase, urls, outcomes)
    && multiset(drained) == DoneStatuses(phase, outcomes)
    && counter == Fold(drained)
  }

  lemma RunStateInit(phase: seq<Phase>, urls: seq<string>, outcomes: seq<TaskOutcome>, capacity: nat)
    requires |phase| == |urls| == |outcomes|
    requires forall k :: 0 <= k < |phase| ==> phase[k] == Waiting
    ensures RunState(0, phase, [], [], map[], urls, outcomes, capacity)
  {
    assert InFlight !in multiset(phase);
    DoneBelowNone(phase, outcomes, |phase|);
  }

  /** Taking a permit for a waiting task keeps the gate within capacity and
      counts the task as in flight. */
  lemma StartGate(held: nat, phase: seq<Phase>, log: seq<Event>, url: string, capacity: nat, i: nat,
                  phase': seq<Phase>, log': seq<Event>)
    requires i < |phase| && phase[i] == Waiting && held < capacity
    requires held == multiset(phase)[InFlight] && GateSafe(log, capacity) && Held(log) == held
    requires phase' == phase[i := InFlight] && log' == log + [Acquire(i), Request(i, url)]
    ensures held + 1 == multiset(phase')[InFlight]
    ensures GateSafe(log', capacity) && Held(log') == held + 1
  {
    GateStep(log, Acquire(i), [Request(i, url)], capacity);
    assert [Acquire(i)] + [Request(i, url)] == [Acquire(i), Request(i, url)];
    assert multiset(phase') == multiset(phase) - multiset{Waiting} + multiset{InFlight};
  }

  lemma StartTraced(log: seq<Event>, phase: seq<Phase>, urls: seq<string>, outcomes: seq<TaskOutcome>, i: nat,
                    phase': seq<Phase>, log': seq<Event>)
    requires |phase| == |urls| == |outcomes| && i < |phase| && phase[i] == Waiting
    requires Traced(log, phase, urls, outcomes)
    requires phase' == phase[i := InFlight] && log' == log + [Acquire(i), Request(i, urls[i])]
    ensures |phase'| == |urls| && Traced(log', phase', urls, outcomes)
  {
    TracedStep(log, [Acquire(i), Request(i, urls[i])], phase, i, InFlight, urls, outcomes);
  }

  lemma StartDone(phase: seq<Phase>, outcomes: seq<TaskOutcome>, i: nat, phase': seq<Phase>)
    requires |phase| == |outcomes| && i < |phase| && phase[i] == Waiting && phase' == phase[i := InFlight]
    ensures |phase'| == |outcomes| && DoneStatuses(phase', outcomes) == DoneStatuses(phase, outcomes)
  {
    DoneStatusesUpdate(phase, outcomes, i, InFlight);
  }

  /** A waiting task takes a free permit and sends its request. */
  lemma StartStep(held: nat, phase: seq<Phase>, log: seq<Event>, drained: seq<HttpStatus>, counter: Counter,
                  urls: seq<string>, outcomes: seq<TaskOutcome>, capacity: nat, i: nat,
                  held': nat, phase': seq<Phase>, log': seq<Event>)
    requires RunState(held, phase, log, drained, counter, urls, outcomes, capacity)
    requires i < |phase| && phase[i] == Waiting && held < capacity
    requires held' == held + 1 && phase' == phase[i := InFlight] && log' == log + [Acquire(i), Request(i, urls[i])]
    ensures RunState(held', phase', log', drained, counter, urls, outcomes, capacity)
  {
    StartGate(held, phase, log, urls[i], capacity, i, phase', log');
    StartTraced(log, phase, urls, outcomes, i, phase', log');
    OwnEventsStep(log, [Acquire(i), Request(i, urls[i])], i, |phase|, log');
    StartDone(phase, outcomes, i, phase');
  }

  /** Giving the permit back after the reply keeps the gate within capacity
      and no longer counts the task as in flight. */
  lemma FinishGate(held: nat, phase: seq<Phase>, log: seq<Event>, outcome: TaskOutcome, capacity: nat, i: nat,
                   phase': seq<Phase>, log': seq<Event>)
    requires i < |phase| && phase[i] == InFlight
    requires held == multiset(phase)[InFlight] && GateSafe(log, capacity) && Held(log) == held && held <= capacity
    requires phase' == phase[i := Done] && log' == log + ([Release(i)] + SaveEvents(i, outcome))
    ensures held >= 1 && held - 1 == multiset(phase')[InFlight]
    ensures GateSafe(log', capacity) && Held(log') == held - 1
  {
    assert InFlight in multiset(phase);
    GateStep(log, Release(i), SaveEvents(i, outcome), capacity);
    assert multiset(phase') == multiset(phase) - multiset{InFlight} + multiset{Done};
  }

  lemma FinishTraced(log: seq<Event>, phase: seq<Phase>, urls: seq<string>, outcomes: seq<TaskOutcome>, i: nat,
                     phase': seq<Phase>, log': seq<Event>)
    requires |phase| == |urls| == |outcomes| && i < |phase| && phase[i] == InFlight
    requires Traced(log, phase, urls, outcomes)
    requires phase' == phase[i := Done] && log' == log + ([Release(i)] + SaveEvents(i, outcomes[i]))
    ensures |phase'| == |urls| && Traced(log', phase', urls, outcomes)
  {
    TracedStep(log, [Release(i)] + SaveEvents(i, outcomes[i]), phase, i, Done, urls, outcomes);
  }

  lemma FinishOwn(log: seq<Event>, outcome: TaskOutcome, i: nat, n: nat, log': seq<Event>)
    requires OwnEvents(log, n) && i < n && log' == log + ([Release(i)] + SaveEvents(i, outcome))
    ensures OwnEvents(log', n)
  {
    OwnEventsStep(log, [Release(i)] + SaveEvents(i, outcome), i, n, log');
  }

  lemma FinishCounts(phase: seq<Phase>, drained: seq<HttpStatus>, counter: Counter, outcomes: seq<TaskOutcome>, i: nat,
                     phase': seq<Phase>, drained': seq<HttpStatus>, counter': Counter)
    requires |phase| == |outcomes| && i < |phase| && phase[i] == InFlight
    requires multiset(drained) == DoneStatuses(phase, outcomes) && counter == Fold(drained)
    requires phase' == phase[i := Done]
    requires drained' == drained + [StatusOf(outcomes[i])] && counter' == Record(counter, StatusOf(outcomes[i]))
    ensures |phase'| == |outcomes| && multiset(drained') == DoneStatuses(phase', outcomes)
    ensures counter' == Fold(drained')
  {
    DoneStatusesUpdate(phase, outcomes, i, Done);
    FoldAppend(drained, StatusOf(outcomes[i]));
    assert multiset(drained') == multiset(drained) + multiset{StatusOf(outcomes[i])};
  }

  /** A task in flight gets its reply, gives its permit back, dispatches its
      save if any, and is counted by the drain loop. */
  lemma FinishStep(held: nat, phase: seq<Phase>, log: seq<Event>, drained: seq<HttpStatus>, counter: Counter,
                   urls: seq<string>, outcomes: seq<TaskOutcome>, capacity: nat, i: nat,
                   held': int, phase': seq<Phase>, log': seq<Event>, drained': seq<HttpStatus>, counter': Counter)
    requires RunState(held, phase, log, drained, counter, urls, outcomes, capacity)
    requires i < |phase| && phase[i] == InFlight
    requires held' == held - 1 && phase' == phase[i := Done] && log' == log + ([Release(i)] + SaveEvents(i, outcomes[i]))
    requires drained' == drained + [StatusOf(outcomes[i])] && counter' == Record(counter, StatusOf(outcomes[i]))
    ensures held' >= 0 && RunState(held', phase', log', drained', counter', urls, outcomes, capacity)
  {
    FinishGate(held, phase, log, outcomes[i], capacity, i, phase', log');
    FinishTraced(log, phase, urls, outcomes, i, phase', log');
    FinishOwn(log, outcomes[i], i, |phase|, log');
    FinishCounts(phase, drained, counter, outcomes, i, phase', drained', counter');
  }

  /** The work left: two steps for a waiting task, one for a task in flight. */
  function Pending(phase: seq<Phase>): nat {
    2 * multiset(phase)[Waiting] + multiset(phase)[InFlight]
  }

  /** Every step moves one task forward, so the work left shrinks. */
  lemma Advance(phase: seq<Phase>, i: nat, p: Phase)
    requires i < |phase|
    requires (phase[i] == Waiting && p == InFlight) || (phase[i] == InFlight && p == Done)
    ensures Pending(phase[i := p]) < Pending(phase)
  {
    assert multiset(phase[i := p]) == multiset(phase) - multiset{phase[i]} + multiset{p};
  }

  /** Once every task has finished, each task's events are the whole bracket. */
  lemma FinalTrace(log: seq<Event>, phase: seq<Phase>, todo: seq<string>, baseUrl: string, network: string -> Reply)
    requires |phase| == |todo|
    requires Traced(log, phase, Urls(todo, baseUrl), Outcomes(todo, baseUrl, network))
    requires forall k :: 0 <= k < |phase| ==> phase[k] == Done
    ensures forall i :: 0 <= i < |todo| ==>
      Project(log, i) == TaskEvents(i, Done, FlagUrl(baseUrl, todo[i]), DownloadOne(todo[i], baseUrl, network))
  {
    var urls, outcomes := Urls(todo, baseUrl), Outcomes(todo, baseUrl, network);
    forall i | 0 <= i < |todo|
      ensures Project(log, i) == TaskEvents(i, Done, FlagUrl(baseUrl, todo[i]), DownloadOne(todo[i], baseUrl, network))
    {
      assert Project(log, i) == TaskEvents(i, phase[i], urls[i], outcomes[i]);
    }
  }

  /** Once every task has finished, the drained statuses are those of all
      codes, and the counter is their tally. */
  lemma FinalCounts(phase: seq<Phase>, drained: seq<HttpStatus>, counter: Counter,
                    todo: seq<string>, ccList: seq<string>, baseUrl: string, network: string -> Reply)
    requires |phase| == |todo| && multiset(todo) == multiset(ccList)
    requires multiset(drained) == DoneStatuses(phase, Outcomes(todo, baseUrl, network))
    requires counter == Fold(drained)
    requires forall k :: 0 <= k < |phase| ==> phase[k] == Done
    ensures multiset(drained) == multiset(Statuses(ccList, baseUrl, network))
    ensures counter == CounterOf(multiset(Statuses(ccList, baseUrl, network)))
    ensures Total(counter) == |ccList|
  {
    DoneBelowAll(phase, Outcomes(todo, baseUrl, network), |phase|);
    assert StatusesOf(Outcomes(todo, baseUrl, network))[..|phase|] == StatusesOf(Outcomes(todo, baseUrl, network));
    StatusesPermutation(todo, ccList, baseUrl, network);
    FoldIsCounterOf(drained);
    TotalFold(drained);
    assert |drained| == |multiset(drained)|;
  }

  /** One turn of the event loop that starts task i: it takes a permit and
      sends its request. The run keeps its invariant and has less work left. */
  method StartTask(gate: Semaphore, phase: seq<Phase>, ghost log: seq<Event>, ghost drained: seq<HttpStatus>,
                   counter: Counter, ghost urls: seq<string>, ghost outcomes: seq<TaskOutcome>, todo: seq<string>,
                   baseUrl: string, i: nat)
    returns (phase': seq<Phase>, ghost log': seq<Event>)
    requires gate.Valid() && i < |phase| == |todo| && phase[i] == Waiting && gate.held < gate.capacity
    requires urls == Urls(todo, baseUrl)
    requires RunState(gate.held, phase, log, drained, counter, urls, outcomes, gate.capacity)
    modifies gate
    ensures gate.Valid() && |phase'| == |phase| && Pending(phase') < Pending(phase)
    ensures RunState(gate.held, phase', log', drained, counter, urls, outcomes, gate.capacity)
    ensures gate.held == old(gate.held) + 1
    ensures phase' == phase[i := InFlight] && log' == log + [Acquire(i), Request(i, urls[i])]
  {
    ghost var held := gate.held;
    var events := StartDownload(gate, i, todo[i], baseUrl);
    log' := log + events;
    UrlAt(todo, baseUrl, i);
    phase' := phase[i := InFlight];
    Advance(phase, i, InFlight);
    StartStep(held, phase, log, drained, counter, urls, outcomes, gate.capacity, i, gate.held, phase', log');
  }

  /** One turn of the event loop that finishes task i: its reply arrives, the
      permit goes back, its save is dispatched and the drain loop counts it. */
  method FinishTask(gate: Semaphore, phase: seq<Phase>, ghost log: seq<Event>, ghost drained: seq<HttpStatus>,
                    counter: Counter, ghost urls: seq<string>, ghost outcomes: seq<TaskOutcome>, todo: seq<string>,
                    baseUrl: string, network: string -> Reply, i: nat)
    returns (phase': seq<Phase>, ghost log': seq<Event>, ghost drained': seq<HttpStatus>, counter': Counter)
    requires gate.Valid() && i < |phase| == |todo| && phase[i] == InFlight
    requires outcomes == Outcomes(todo, baseUrl, network)
    requires RunState(gate.held, phase, log, drained, counter, urls, outcomes, gate.capacity)
    modifies gate
    ensures gate.Valid() && |phase'| == |phase| && Pending(phase') < Pending(phase)
    ensures RunState(gate.held, phase', log', drained', counter', urls, outcomes, gate.capacity)
    ensures gate.held == old(gate.held) - 1
    ensures phase' == phase[i := Done] && log' == log + ([Release(i)] + SaveEvents(i, outcomes[i]))
    ensures drained' == drained + [StatusOf(outcomes[i])] && counter' == Record(counter, StatusOf(outcomes[i]))
  {
    ghost var held := gate.held;
    assert held >= 1 by {
      assert InFlight in multiset(phase);
    }
    var outcome, events := FinishDownload(gate, i, todo[i], baseUrl, network);
    OutcomeAt(todo, baseUrl, network, i);
    log' := log + events;
    phase' := phase[i := Done];
    var status := StatusOf(outcome);
    drained' := drained + [status];
    counter' := Record(counter, status);
    Advance(phase, i, Done);
    FinishStep(held, phase, log, drained, counter, urls, outcomes, gate.capacity, i,
               gate.held, phase', log', drained', counter');
  }

  /** The `for` loop over `as_completed`: the event loop moves tasks one
      step at a time, in an arbitrary order the gate allows, and each task
      that finishes is counted at once, until every task is done. */
  method RunTasks(gate: Semaphore, todo: seq<string>, baseUrl: string, network: string -> Reply,
                  ghost urls: seq<string>, ghost outcomes: seq<TaskOutcome>)
    returns (phase: seq<Phase>, counter: Counter, ghost drained: seq<HttpStatus>, ghost log: seq<Event>)
    requires gate.Valid() && gate.held == 0 && (gate.capacity >= 1 || todo == [])
    requires urls == Urls(todo, baseUrl) && outcomes == Outcomes(todo, baseUrl, network)
    modifies gate
    ensures |phase| == |todo| && forall k :: 0 <= k < |phase| ==> phase[k] == Done
    ensures RunState(gate.held, phase, log, drained, counter, urls, outcomes, gate.capacity)
  {
    var n := |todo|;
    phase := seq(n, _ => Waiting);
    counter, drained, log := map[], [], [];
    RunStateInit(phase, urls, outcomes, gate.capacity);
    while exists j :: 0 <= j < n && phase[j] != Done
      invariant gate.Valid() && |phase| == n
      invariant gate.capacity >= 1 || n == 0
      invariant RunState(gate.held, phase, log, drained, counter, urls, outcomes, gate.capacity)
      decreases Pending(phase)
    {
      SomeTaskEnabled(phase, gate.held, gate.capacity);
      var i :| 0 <= i < n && (phase[i] == InFlight || (phase[i] == Waiting && gate.held < gate.capacity));
      if phase[i] == Waiting {
        phase, log := StartTask(gate, phase, log, drained, counter, urls, outcomes, todo, baseUrl, i);
      } else {
        phase, log, drained, counter :=
          FinishTask(gate, phase, log, drained, counter, urls, outcomes, todo, baseUrl, network, i);
      }
    }
  }

  /** downloader_coro(cc_list, base_url, verbose, concur_req). The counter
      it returns is the tally of the codes' statuses; the ghost results
      observe the run: `drained` lists those statuses in completion order and
      `log` is what the run did. A non-empty run needs at least one permit. */
  method DownloaderCoro(ccList: seq<string>, baseUrl: string, network: string -> Reply, concurReq: nat)
    returns (counter: Counter, ghost drained: seq<HttpStatus>, ghost log: seq<Event>)
    requires concurReq >= 1 || ccList == []
    ensures counter == CounterOf(multiset(Statuses(ccList, baseUrl, network)))
    ensures Total(counter) == |ccList|
    ensures counter == Fold(drained)
    ensures multiset(drained) == multiset(Statuses(ccList, baseUrl, network))
    ensures GateSafe(log, concurReq) && Held(log) == 0
    ensures forall k :: 0 <= k < |log| ==> log[k].task < |ccList|
    ensures forall i :: 0 <= i < |ccList| ==>
      Project(log, i) == TaskEvents(i, Done, FlagUrl(baseUrl, SortedCodes(ccList)[i]),
                                    DownloadOne(SortedCodes(ccList)[i], baseUrl, network))
  {
    var todo := SortedCodes(ccList);
    var gate := new Semaphore(concurReq);
    ghost var urls, outcomes := Urls(todo, baseUrl), Outcomes(todo, baseUrl, network);
    var phase;
    phase, counter, drained, log := RunTasks(gate, todo, baseUrl, network, urls, outcomes);
    assert InFlight !in multiset(phase);
    FinalTrace(log, phase, todo, baseUrl, network);
    FinalCounts(phase, drained, counter, todo, ccList, baseUrl, network);
  }

  /** download_many(cc_list, base_url, verbose, concur_req): runs the
      coroutine to completion and returns its counter. */
  method DownloadMany(ccList: seq<string>, baseUrl: string, network: string -> Reply, concurReq: nat)
    returns (counts: Counter)
    requires concurReq >= 1 || ccList == []
    ensures counts == CounterOf(multiset(Statuses(ccList, baseUrl, network)))
    ensures Total(counts) == |ccList|
  {
    ghost var drained, log;
    counts, drained, log := DownloaderCoro(ccList, baseUrl, network, concurReq);
  }

  /** The statuses the codes would be counted under with download_one as written. */
  function StatusesAsWritten(ccs: seq<string>, baseUrl: string, network: string -> Reply): seq<HttpStatus> {
    seq(|ccs|, i requires 0 <= i < |ccs| => StatusOf(DownloadOneAsWritten(ccs[i], baseUrl, network)))
  }

  lemma {:induction false} MultisetOfConstant(s: seq<HttpStatus>, x: HttpStatus)
    requires forall k :: 0 <= k < |s| ==> s[k] == x
    ensures multiset(s)[x] == |s|
    ensures forall y :: y != x ==> multiset(s)[y] == 0
    decreases |s|
  {
    if s != [] {
      MultisetOfConstant(s[1..], x);
      assert s == [x] + s[1..];
    }
  }

  /** With download_one as written, every country code of a run is counted
      as an error, whatever the server answers. */
  lemma AsWrittenCountsOnlyErrors(ccList: seq<string>, baseUrl: string, network: string -> Reply)
    ensures CounterOf(multiset(StatusesAsWritten(ccList, baseUrl, network)))
         == if ccList == [] then map[] else map[Error := |ccList|]
  {
    var s := StatusesAsWritten(ccList, baseUrl, network);
    MultisetOfConstant(s, Error);
    var c := CounterOf(multiset(s));
    if ccList == [] {
      assert c.Keys == {};
    } else {
      assert Error in multiset(s);
      assert c.Keys == {Error};
    }
  }
}
