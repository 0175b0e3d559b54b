module HookQueue {
  /**
   The lifecycle hook sink: `emit`, `#send`, `#runHooks` and `close` as a step system over its
   two promise chains, the one of deliveries downstream and the one of accepted events.
   */

  import opened Options

  type Kind = int
  datatype Hook = Hook(id: int, kinds: set<Kind>, timeout: nat)

  /** An event is of a lifecycle kind, or of none when it has no hook payload. */
  datatype SourceEvent = SourceEvent(kind: Option<Kind>)

  /** `source` is the position in the queue of the event that a result is about. */
  datatype Item = Source(event: SourceEvent) | Result(source: nat, hook: Hook, completed: bool, overflow: bool)

  /** An event that has matching hooks, and these in configuration order. */
  datatype Job = Job(source: nat, hooks: seq<Hook>)

  /** Where `#runHooks` is with the first unfinished job: before a hook, in it, awaiting the delivery of its result, or stopped by a failed delivery. */
  datatype Runner = AtHook(h: nat) | InHook(h: nat) | Sending(h: nat, item: nat) | Stopped(h: nat)

  datatype Closing = Open | AwaitHooks(jobs: nat) | AwaitDeliveries(items: nat) | Resolved

  const MAX_QUEUED_EVENTS: nat := 64
  const MAX_HOOKS: nat := 8
  const MIN_TIMEOUT: nat := 50
  const MAX_TIMEOUT: nat := 5000
  const MAX_EVENT_TIMEOUT: nat := 5000

  /**
   `queue` holds what `#send` was called with, in order, and `delivered` how the deliveries so
   far went.  `counts` says how many results each finished job has sent; it, `accepted` before
   the unfinished jobs, and `refused` are bookkeeping.
   */
  datatype State = State(
    queue: seq<Item>,
    delivered: seq<bool>,
    resumed: set<nat>,
    accepted: seq<Job>,
    refused: seq<Job>,
    counts: seq<nat>,
    pending: int,
    runner: Runner,
    closed: bool,
    aborted: bool,
    closing: Closing)

  const INITIAL := State([], [], {}, [], [], [], 0, AtHook(0), false, false, Open)

  datatype Action =
    | Emit(event: SourceEvent)
    | Deliver(ok: bool)
    | Resume(item: nat)
    | StartHook
    | EndHook(completed: bool)
    | ResultSent
    | FinishJob
    | Close
    | Abort
    | HooksFinished
    | DeliveriesFinished

  /** `configuration.hooks.filter`. */
  function Matching(hooks: seq<Hook>, kind: Kind): seq<Hook> {
    if hooks == [] then []
    else (if kind in hooks[0].kinds then [hooks[0]] else []) + Matching(hooks[1..], kind)
  }

  /** The milliseconds that the hooks of one kind may take, as the configuration parser adds them up. */
  function Reserved(hooks: seq<Hook>, kind: Kind): nat {
    if hooks == [] then 0
    else Reserved(hooks[..|hooks| - 1], kind) + (if kind in hooks[|hooks| - 1].kinds then hooks[|hooks| - 1].timeout else 0)
  }

  /** What `parseConfiguration` demands of the hooks together and of each one's time limit. */
  ghost predicate ConfigurationOk(hooks: seq<Hook>) {
    && |hooks| <= MAX_HOOKS && (forall j, k :: 0 <= j < k < |hooks| ==> hooks[j].id != hooks[k].id)
    && (forall k :: 0 <= k < |hooks| ==> MIN_TIMEOUT <= hooks[k].timeout <= MAX_TIMEOUT)
    && (forall kind: Kind :: Reserved(hooks, kind) <= MAX_EVENT_TIMEOUT)
  }

  /** The time that a list of hooks, run one after the other, may take. */
  function TotalTimeout(hooks: seq<Hook>): nat {
    if hooks == [] then 0 else hooks[0].timeout + TotalTimeout(hooks[1..])
  }

  function HooksFor(hooks: seq<Hook>, event: SourceEvent): seq<Hook> {
    if event.kind.None? then [] else Matching(hooks, event.kind.value)
  }

  function Overflow(job: Job): seq<Item> {
    seq(|job.hooks|, i requires 0 <= i < |job.hooks| => Result(job.source, job.hooks[i], false, true))
  }

  /** The rest of `emit`, after its own delivery has succeeded. */
  function AfterDelivery(s: State, n: nat, hooks: seq<Hook>): State {
    if s.closed || hooks == [] then s
    else if s.pending >= MAX_QUEUED_EVENTS then s.(queue := s.queue + Overflow(Job(n, hooks)), refused := s.refused + [Job(n, hooks)])
    else s.(pending := s.pending + 1, accepted := s.accepted + [Job(n, hooks)])
  }

  predicate HasJob(s: State) { |s.counts| < |s.accepted| }

  function Head(s: State): Job
    requires HasJob(s)
  {
    s.accepted[|s.counts|]
  }

  function StepRunner(s: State, a: Action): Option<State> {
    if !HasJob(s) then None else
    match (s.runner, a)
    case (AtHook(h), StartHook) => if s.aborted || h >= |Head(s).hooks| then None else Some(s.(runner := InHook(h)))
    case (InHook(h), EndHook(completed)) =>
      if h >= |Head(s).hooks| then None
      else Some(s.(queue := s.queue + [Result(Head(s).source, Head(s).hooks[h], completed, false)], runner := Sending(h, |s.queue|)))
    case (Sending(h, i), ResultSent) =>
      if i >= |s.delivered| then None
      else Some(s.(runner := if s.delivered[i] then AtHook(h + 1) else Stopped(h + 1)))
    case (AtHook(h), FinishJob) => if s.aborted || h >= |Head(s).hooks| then Some(Finished(s, h)) else None
    case (Stopped(h), FinishJob) => Some(Finished(s, h))
    case _ => None
  }

  function Finished(s: State, sent: nat): State {
    s.(counts := s.counts + [sent], pending := s.pending - 1, runner := AtHook(0))
  }

  /** The sources before position `n` whose delivery has succeeded have resumed their `emit`. */
  predicate EarlierResumed(s: State, n: nat) {
    forall m :: 0 <= m < n && m < |s.delivered| && m < |s.queue| && s.queue[m].Source? && s.delivered[m] ==> m in s.resumed
  }

  /**
   An `emit` resumes when its own delivery has succeeded.  Each delivery is chained on the one
   before, and the `emit` that awaits a delivery was registered with it, so that they resume in
   the order of the queue.
   */
  function Step(hooks: seq<Hook>, s: State, a: Action): Option<State> {
    match a
    case Emit(event) => Some(s.(queue := s.queue + [Source(event)]))
    case Deliver(ok) => if |s.delivered| < |s.queue| then Some(s.(delivered := s.delivered + [ok])) else None
    case Resume(n) =>
      if n >= |s.delivered| || n >= |s.queue| || n in s.resumed || !s.queue[n].Source? || !s.delivered[n] || !EarlierResumed(s, n) then None
      else Some(AfterDelivery(s.(resumed := s.resumed + {n}), n, HooksFor(hooks, s.queue[n].event)))
    case Close => if s.closing.Open? then Some(s.(closed := true, closing := AwaitHooks(|s.accepted|))) else None
    case Abort => if s.closed then Some(s.(aborted := true)) else None
    case HooksFinished =>
      if s.closing.AwaitHooks? && s.closing.jobs <= |s.counts| then Some(s.(closing := AwaitDeliveries(|s.queue|))) else None
    case DeliveriesFinished =>
      if s.closing.AwaitDeliveries? && s.closing.items <= |s.delivered| then Some(s.(closing := Resolved)) else None
    case _ => StepRunner(s, a)
  }

  function Run(hooks: seq<Hook>, s: State, actions: seq<Action>): Option<State>
    decreases |actions|
  {
    if actions == [] then Some(s) else
    var next :- Step(hooks, s, actions[0]);
    Run(hooks, next, actions[1..])
  }

  // ---- what has been reported

  type Report = (nat, Hook)

  /** The results in the queue, of the runner or of refused events, as pairs of event and hook. */
  function Reports(queue: seq<Item>, overflow: bool): seq<Report> {
    if queue == [] then [] else
    var last := queue[|queue| - 1];
    Reports(queue[..|queue| - 1], overflow)
    + (if last.Result? && last.overflow == overflow then [(last.source, last.hook)] else [])
  }

  function ReportsOf(job: Job, count: nat): seq<Report>
    requires count <= |job.hooks|
  {
    seq(count, i requires 0 <= i < count => (job.source, job.hooks[i]))
  }

  predicate CountsOk(jobs: seq<Job>, counts: seq<nat>) {
    |counts| <= |jobs| && forall k :: 0 <= k < |counts| ==> counts[k] <= |jobs[k].hooks|
  }

  /** The results of the first jobs, each with its count of hooks: in job order, then configuration order. */
  function Expected(jobs: seq<Job>, counts: seq<nat>): seq<Report>
    requires CountsOk(jobs, counts)
    decreases |counts|
  {
    if counts == [] then [] else
    var n := |counts| - 1;
    Expected(jobs, counts[..n]) + ReportsOf(jobs[n], counts[n])
  }

  /** How many results the runner has sent for its job. */
  function Sent(r: Runner): nat { if r.Sending? then r.h + 1 else r.h }

  function AllHooks(jobs: seq<Job>): seq<nat> { seq(|jobs|, i requires 0 <= i < |jobs| => |jobs[i].hooks|) }

  // ---- the invariant

  predicate CountersOk(s: State) {
    && |s.delivered| <= |s.queue| && CountsOk(s.accepted, s.counts)
    && s.pending == |s.accepted| - |s.counts| && s.pending <= MAX_QUEUED_EVENTS
  }

  predicate RunnerOk(s: State) {
    if !HasJob(s) then s.runner == AtHook(0)
    else
      && Sent(s.runner) <= |Head(s).hooks|
      && (s.runner.InHook? ==> s.runner.h < |Head(s).hooks|)
      && (s.runner.Sending? ==> s.runner.item < |s.queue|)
  }

  /** The results of the runner, for finished jobs and the one at hand, and those of refused events. */
  predicate ReportsOk(s: State) {
    && CountsOk(s.accepted, s.counts) && (HasJob(s) ==> Sent(s.runner) <= |Head(s).hooks|)
    && Reports(s.queue, false)
      == Expected(s.accepted, s.counts) + (if HasJob(s) then ReportsOf(Head(s), Sent(s.runner)) else [])
    && Reports(s.queue, true) == Expected(s.refused, AllHooks(s.refused))
  }

  /** A job is about a queued event, with all its matching hooks. */
  predicate JobOk(hooks: seq<Hook>, s: State, job: Job) {
    && job.source < |s.queue| && s.queue[job.source].Source? && job.source in s.resumed
    && job.hooks == HooksFor(hooks, s.queue[job.source].event)
  }

  predicate JobsOk(hooks: seq<Hook>, s: State, jobs: seq<Job>) {
    && (forall k :: 0 <= k < |jobs| ==> JobOk(hooks, s, jobs[k]))
    && (forall j, k :: 0 <= j < k < |jobs| ==> jobs[j].source < jobs[k].source)
  }

  /** The events that have resumed are the first ones among those delivered. */
  predicate ResumedOk(s: State) { forall n :: n in s.resumed ==> n < |s.delivered| && EarlierResumed(s, n) }

  predicate HasSource(jobs: seq<Job>, n: nat) { exists k :: 0 <= k < |jobs| && jobs[k].source == n }

  /** An event with matching hooks has been accepted or refused. */
  predicate Taken(hooks: seq<Hook>, s: State, n: nat) {
    && n < |s.queue| && s.queue[n].Source?
    && (HooksFor(hooks, s.queue[n].event) == [] || HasSource(s.accepted, n) || HasSource(s.refused, n))
  }

  /** Before the close every event that resumes is taken, and none is refused before the bound was reached. */
  predicate TakenOk(hooks: seq<Hook>, s: State) {
    && (!s.closed ==> forall n :: n in s.resumed ==> Taken(hooks, s, n))
    && (s.refused != [] ==> |s.accepted| >= MAX_QUEUED_EVENTS)
  }

  predicate ResultOk(queue: seq<Item>, i: nat)
    requires i < |queue|
  {
    queue[i].Result? ==> queue[i].source < i && queue[queue[i].source].Source?
  }

  /** Downstream has accepted everything so far, and there was no abort. */
  predicate Smooth(s: State) { !s.aborted && forall i :: 0 <= i < |s.delivered| ==> s.delivered[i] }

  predicate SmoothOk(s: State) {
    Smooth(s) && CountsOk(s.accepted, s.counts) ==>
      !s.runner.Stopped? && forall k :: 0 <= k < |s.counts| ==> s.counts[k] == |s.accepted[k].hooks|
  }

  predicate ClosingOk(s: State) {
    && (s.closed <==> !s.closing.Open?) && (s.aborted ==> s.closed)
    && (s.closing.AwaitHooks? ==> s.closing.jobs == |s.accepted|)
    && (s.closing.AwaitDeliveries? || s.closing.Resolved? ==> |s.counts| == |s.accepted|)
    && (s.closing.AwaitDeliveries? ==> OwnResultsBefore(s.queue, s.closing.items))
    && (s.closing.Resolved? ==> OwnResultsBefore(s.queue, |s.delivered|))
  }

  predicate OwnResultsBefore(queue: seq<Item>, n: nat) {
    forall i :: 0 <= i < |queue| && queue[i].Result? && !queue[i].overflow ==> i < n
  }

  predicate Inv(hooks: seq<Hook>, s: State) {
    && CountersOk(s) && ResumedOk(s) && RunnerOk(s) && ReportsOk(s) && SmoothOk(s) && ClosingOk(s)
    && JobsOk(hooks, s, s.accepted) && JobsOk(hooks, s, s.refused) && TakenOk(hooks, s)
    && (forall i :: 0 <= i < |s.queue| ==> ResultOk(s.queue, i))
  }

  // ---- every step keeps it

  lemma {:induction false} ReportsConcat(a: seq<Item>, b: seq<Item>, overflow: bool)
    ensures Reports(a + b, overflow) == Reports(a, overflow) + Reports(b, overflow)
    decreases |b|
  {
    if b == [] {
      assert a + b == a;
    } else {
      var n := |b| - 1;
      assert (a + b)[..|a + b| - 1] == a + b[..n];
      ReportsConcat(a, b[..n], overflow);
    }
  }

  lemma {:induction false} OverflowReports(job: Job, n: nat)
    requires n <= |job.hooks|
    ensures Reports(Overflow(job)[..n], true) == ReportsOf(job, n) && Reports(Overflow(job)[..n], false) == []
  {
    if n > 0 {
      assert Overflow(job)[..n][..n - 1] == Overflow(job)[..n - 1];
      OverflowReports(job, n - 1);
    }
  }

  /** Jobs added later do not change what is expected of the earlier ones. */
  lemma {:induction false} ExpectedOfFirst(jobs: seq<Job>, more: seq<Job>, counts: seq<nat>)
    requires CountsOk(jobs, counts)
    ensures CountsOk(jobs + more, counts) && Expected(jobs + more, counts) == Expected(jobs, counts)
    decreases |counts|
  {
    if counts != [] {
      ExpectedOfFirst(jobs, more, counts[..|counts| - 1]);
    }
  }

  /** What is said of jobs and of earlier results stays true when the queue grows. */
  lemma QueueGrows(hooks: seq<Hook>, s: State, t: State, more: seq<Item>)
    requires t.queue == s.queue + more && s.resumed <= t.resumed
    ensures forall jobs :: JobsOk(hooks, s, jobs) ==> JobsOk(hooks, t, jobs)
    ensures (forall i :: 0 <= i < |s.queue| ==> ResultOk(s.queue, i)) ==> forall i :: 0 <= i < |s.queue| ==> ResultOk(t.queue, i)
    ensures (forall k :: 0 <= k < |more| ==> more[k].Source? || more[k].overflow) ==>
      forall n :: OwnResultsBefore(s.queue, n) ==> OwnResultsBefore(t.queue, n)
  {
    hide HooksFor;
    forall jobs | JobsOk(hooks, s, jobs) ensures JobsOk(hooks, t, jobs) {
      forall k | 0 <= k < |jobs| ensures JobOk(hooks, t, jobs[k]) {
        assert JobOk(hooks, s, jobs[k]);
      }
    }
    if forall i :: 0 <= i < |s.queue| ==> ResultOk(s.queue, i) {
      forall i | 0 <= i < |s.queue| ensures ResultOk(t.queue, i) {
        assert ResultOk(s.queue, i);
      }
    }
  }

  lemma EmitKeepsInv(hooks: seq<Hook>, s: State, event: SourceEvent)
    requires Inv(hooks, s)
    ensures Inv(hooks, Step(hooks, s, Emit(event)).value)
  {
    hide Reports, Expected, HooksFor, JobsOk, OwnResultsBefore;
    var t := Step(hooks, s, Emit(event)).value;
    ResumedStays(s, t);
    AllTakenStay(hooks, s, t);
    QueueGrows(hooks, s, t, [Source(event)]);
    ReportsConcat(s.queue, [Source(event)], false);
    ReportsConcat(s.queue, [Source(event)], true);
    OneReport(Source(event), false);
    OneReport(Source(event), true);
    assert Reports(s.queue, false) + [] == Reports(s.queue, false);
    assert Reports(s.queue, true) + [] == Reports(s.queue, true);
  }

  lemma OneReport(item: Item, overflow: bool)
    ensures Reports([item], overflow) == if item.Result? && item.overflow == overflow then [(item.source, item.hook)] else []
  {
    assert [item][..0] == [];
    assert Reports([], overflow) == [];
  }

  lemma DeliverKeepsInv(hooks: seq<Hook>, s: State, ok: bool)
    requires Inv(hooks, s) && Step(hooks, s, Deliver(ok)).Some?
    ensures Inv(hooks, Step(hooks, s, Deliver(ok)).value)
  {
    hide Reports, Expected, HooksFor;
    var t := Step(hooks, s, Deliver(ok)).value;
    ResumedStays(s, t);
    AllTakenStay(hooks, s, t);
    assert Smooth(t) ==> Smooth(s) by {
      if Smooth(t) {
        forall i | 0 <= i < |s.delivered| ensures s.delivered[i] { assert t.delivered[i]; }
      }
    }
  }

  /** The rest of `emit` when the event is refused for lack of room. */
  lemma RefuseKeepsInv(hooks: seq<Hook>, s: State, t: State, n: nat)
    requires Inv(hooks, s) && CanResume(s, n) && s.pending >= MAX_QUEUED_EVENTS
    requires var job := Job(n, HooksFor(hooks, s.queue[n].event));
      t == s.(resumed := s.resumed + {n}, queue := s.queue + Overflow(job), refused := s.refused + [job])
    ensures Inv(hooks, t)
  {
    hide Reports, Expected, HooksFor, OwnResultsBefore, Overflow;
    var job := Job(n, HooksFor(hooks, s.queue[n].event));
    QueueGrows(hooks, s, t, Overflow(job));
    OverflowItems(job);
    ReportsConcat(s.queue, Overflow(job), false);
    ReportsConcat(s.queue, Overflow(job), true);
    OverflowReports(job, |job.hooks|);
    assert Overflow(job)[..|job.hooks|] == Overflow(job);
    assert Reports(s.queue, false) + [] == Reports(s.queue, false);
    ExpectedMore(s.refused, job);
    JobAdded(hooks, s, t, s.refused, job);
    ResumedMore(s, t, n);
    assert t.refused[|s.refused|].source == n && HasSource(t.refused, n);
    OneMoreTaken(hooks, s, t, n);
    forall i | 0 <= i < |t.queue| ensures ResultOk(t.queue, i) {
      if i < |s.queue| {
        assert ResultOk(s.queue, i);
      }
    }
  }

  lemma OverflowItems(job: Job)
    ensures |Overflow(job)| == |job.hooks|
    ensures forall k :: 0 <= k < |Overflow(job)| ==> Overflow(job)[k].Result? && Overflow(job)[k].overflow && Overflow(job)[k].source == job.source
  {
  }

  lemma ExpectedMore(jobs: seq<Job>, job: Job)
    ensures CountsOk(jobs, AllHooks(jobs)) && CountsOk(jobs + [job], AllHooks(jobs + [job]))
    ensures Expected(jobs + [job], AllHooks(jobs + [job])) == Expected(jobs, AllHooks(jobs)) + ReportsOf(job, |job.hooks|)
  {
    ExpectedOfFirst(jobs, [job], AllHooks(jobs));
    assert AllHooks(jobs + [job])[..|jobs|] == AllHooks(jobs);
  }

  /** The event at position `n` is the next to resume. */
  predicate CanResume(s: State, n: nat) {
    && ResumedOk(s) && n < |s.queue| && n < |s.delivered| && n !in s.resumed && s.queue[n].Source? && s.delivered[n]
    && EarlierResumed(s, n)
  }

  lemma HasSourceStays(jobs: seq<Job>, more: seq<Job>, n: nat)
    requires jobs <= more && HasSource(jobs, n)
    ensures HasSource(more, n)
  {
    var k :| 0 <= k < |jobs| && jobs[k].source == n;
    assert more[k].source == n;
  }

  lemma TakenStays(hooks: seq<Hook>, s: State, t: State, n: nat)
    requires Taken(hooks, s, n) && s.queue <= t.queue && s.accepted <= t.accepted && s.refused <= t.refused
    ensures Taken(hooks, t, n)
  {
    hide HasSource, HooksFor;
    if HasSource(s.accepted, n) {
      HasSourceStays(s.accepted, t.accepted, n);
    } else if HasSource(s.refused, n) {
      HasSourceStays(s.refused, t.refused, n);
    }
  }

  /** What is taken stays so when nothing resumes. */
  lemma AllTakenStay(hooks: seq<Hook>, s: State, t: State)
    requires TakenOk(hooks, s) && t.resumed == s.resumed && s.queue <= t.queue && t.accepted == s.accepted && t.refused == s.refused
    requires s.closed ==> t.closed
    ensures TakenOk(hooks, t)
  {
    hide Taken;
    if !t.closed {
      forall n | n in t.resumed ensures Taken(hooks, t, n) {
        TakenStays(hooks, s, t, n);
      }
    }
  }

  /** What is taken stays so when the event `n` resumes and is taken. */
  lemma OneMoreTaken(hooks: seq<Hook>, s: State, t: State, n: nat)
    requires TakenOk(hooks, s) && t.resumed == s.resumed + {n} && s.queue <= t.queue && s.accepted <= t.accepted && s.refused <= t.refused
    requires t.closed == s.closed && (t.closed || Taken(hooks, t, n))
    requires t.refused != s.refused ==> |t.accepted| >= MAX_QUEUED_EVENTS
    ensures TakenOk(hooks, t)
  {
    hide Taken;
    if !t.closed {
      forall m | m in t.resumed ensures Taken(hooks, t, m) {
        if m != n {
          TakenStays(hooks, s, t, m);
        }
      }
    }
  }

  lemma ResumedMore(s: State, t: State, n: nat)
    requires CanResume(s, n) && t.resumed == s.resumed + {n} && t.delivered == s.delivered && s.queue <= t.queue
    requires |s.delivered| <= |s.queue|
    ensures ResumedOk(t)
  {
    forall m | m in t.resumed ensures EarlierResumed(t, m) {
      assert EarlierResumed(s, m);
    }
  }

  lemma ResumedStays(s: State, t: State)
    requires ResumedOk(s) && t.resumed == s.resumed && s.delivered <= t.delivered && s.queue <= t.queue
    requires |s.delivered| <= |s.queue|
    ensures ResumedOk(t)
  {
    forall m | m in t.resumed ensures EarlierResumed(t, m) {
      assert EarlierResumed(s, m);
    }
  }

  lemma JobAdded(hooks: seq<Hook>, s: State, t: State, jobs: seq<Job>, job: Job)
    requires JobsOk(hooks, s, jobs) && JobsOk(hooks, t, jobs) && JobOk(hooks, t, job) && CanResume(s, job.source)
    ensures JobsOk(hooks, t, jobs + [job])
  {
    hide HooksFor;
    forall k | 0 <= k < |jobs| ensures jobs[k].source < job.source {
      assert JobOk(hooks, s, jobs[k]) && EarlierResumed(s, jobs[k].source);
    }
  }

  /** The rest of `emit` when the event is accepted. */
  lemma AcceptKeepsInv(hooks: seq<Hook>, s: State, t: State, n: nat)
    requires Inv(hooks, s) && CanResume(s, n) && !s.closed && s.pending < MAX_QUEUED_EVENTS
    requires var job := Job(n, HooksFor(hooks, s.queue[n].event));
      t == s.(resumed := s.resumed + {n}, pending := s.pending + 1, accepted := s.accepted + [job])
    ensures Inv(hooks, t)
  {
    hide Reports, Expected, HooksFor, OwnResultsBefore;
    var job := Job(n, HooksFor(hooks, s.queue[n].event));
    QueueGrows(hooks, s, t, []);
    ExpectedOfFirst(s.accepted, [job], s.counts);
    JobAdded(hooks, s, t, s.accepted, job);
    ResumedMore(s, t, n);
    assert t.accepted[|s.accepted|].source == n && HasSource(t.accepted, n);
    OneMoreTaken(hooks, s, t, n);
    assert Expected(s.accepted, s.counts) + [] == Expected(s.accepted, s.counts);
    if !HasJob(s) {
      assert ReportsOf(Head(t), 0) == [];
    }
  }

  lemma ResumeKeepsInv(hooks: seq<Hook>, s: State, n: nat)
    requires Inv(hooks, s) && Step(hooks, s, Resume(n)).Some?
    ensures Inv(hooks, Step(hooks, s, Resume(n)).value)
  {
    hide Reports, Expected, HooksFor, OwnResultsBefore, Overflow;
    var t := Step(hooks, s, Resume(n)).value;
    if s.closed || HooksFor(hooks, s.queue[n].event) == [] {
      QueueGrows(hooks, s, t, []);
      ResumedMore(s, t, n);
      OneMoreTaken(hooks, s, t, n);
    } else if s.pending >= MAX_QUEUED_EVENTS {
      RefuseKeepsInv(hooks, s, t, n);
    } else {
      AcceptKeepsInv(hooks, s, t, n);
    }
  }

  /** A hook has ended: its result joins the queue, next in configuration order. */
  lemma EndHookKeepsInv(hooks: seq<Hook>, s: State, completed: bool)
    requires Inv(hooks, s) && StepRunner(s, EndHook(completed)).Some?
    ensures Inv(hooks, StepRunner(s, EndHook(completed)).value)
  {
    hide Reports, Expected, HooksFor;
    var t := StepRunner(s, EndHook(completed)).value;
    ResumedStays(s, t);
    AllTakenStay(hooks, s, t);
    var h := s.runner.h;
    var item := Result(Head(s).source, Head(s).hooks[h], completed, false);
    assert JobOk(hooks, s, Head(s));
    QueueGrows(hooks, s, t, [item]);
    ReportsConcat(s.queue, [item], false);
    ReportsConcat(s.queue, [item], true);
    OneReport(item, false);
    OneReport(item, true);
    assert Reports(s.queue, true) + [] == Reports(s.queue, true);
    assert ReportsOf(Head(s), h + 1) == ReportsOf(Head(s), h) + [(Head(s).source, Head(s).hooks[h])];
    forall i | 0 <= i < |t.queue| ensures ResultOk(t.queue, i) {
      if i < |s.queue| {
        assert ResultOk(s.queue, i);
      }
    }
  }

  lemma FinishReports(s: State)
    requires (s.runner.AtHook? || s.runner.Stopped?) && HasJob(s) && CountsOk(s.accepted, s.counts) && s.runner.h <= |Head(s).hooks|
    ensures var t := Finished(s, s.runner.h);
      && CountsOk(t.accepted, t.counts)
      && Expected(s.accepted, s.counts) + ReportsOf(Head(s), s.runner.h) == Expected(t.accepted, t.counts)
      && (HasJob(t) ==> ReportsOf(Head(t), 0) == [])
  {
    var t := Finished(s, s.runner.h);
    assert t.counts[..|s.counts|] == s.counts;
  }

  /** The runner is through with a job. */
  lemma FinishKeepsInv(hooks: seq<Hook>, s: State)
    requires Inv(hooks, s) && StepRunner(s, FinishJob).Some?
    ensures Inv(hooks, StepRunner(s, FinishJob).value)
  {
    hide Reports, Expected, ReportsOf, HooksFor, OwnResultsBefore, AllHooks;
    var t := StepRunner(s, FinishJob).value;
    ResumedStays(s, t);
    AllTakenStay(hooks, s, t);
    FinishReports(s);
    assert Expected(t.accepted, t.counts) + [] == Expected(t.accepted, t.counts);
  }

  lemma RunnerKeepsInv(hooks: seq<Hook>, s: State, a: Action)
    requires Inv(hooks, s) && StepRunner(s, a).Some? && (a.StartHook? || a.ResultSent?)
    ensures Inv(hooks, StepRunner(s, a).value)
  {
    hide Reports, Expected, HooksFor, OwnResultsBefore, EarlierResumed;
    ResumedStays(s, StepRunner(s, a).value);
    AllTakenStay(hooks, s, StepRunner(s, a).value);
  }

  lemma CloseKeepsInv(hooks: seq<Hook>, s: State, a: Action)
    requires Inv(hooks, s) && Step(hooks, s, a).Some?
    requires a.Close? || a.Abort? || a.HooksFinished? || a.DeliveriesFinished?
    ensures Inv(hooks, Step(hooks, s, a).value)
  {
    hide Reports, Expected, HooksFor, EarlierResumed;
    ResumedStays(s, Step(hooks, s, a).value);
    AllTakenStay(hooks, s, Step(hooks, s, a).value);
  }

  lemma StepKeepsInv(hooks: seq<Hook>, s: State, a: Action)
    requires Inv(hooks, s) && Step(hooks, s, a).Some?
    ensures Inv(hooks, Step(hooks, s, a).value)
  {
    hide Inv, StepRunner;
    match a
    case Emit(event) => EmitKeepsInv(hooks, s, event);
    case Deliver(ok) => DeliverKeepsInv(hooks, s, ok);
    case Resume(n) => ResumeKeepsInv(hooks, s, n);
    case StartHook => RunnerKeepsInv(hooks, s, a);
    case EndHook(completed) => EndHookKeepsInv(hooks, s, completed);
    case ResultSent => RunnerKeepsInv(hooks, s, a);
    case FinishJob => FinishKeepsInv(hooks, s);
    case _ => CloseKeepsInv(hooks, s, a);
  }

  lemma {:induction false} RunKeepsInv(hooks: seq<Hook>, s: State, actions: seq<Action>)
    requires Inv(hooks, s) && Run(hooks, s, actions).Some?
    ensures Inv(hooks, Run(hooks, s, actions).value)
    decreases |actions|
  {
    hide Inv, Step;
    if actions != [] {
      StepKeepsInv(hooks, s, actions[0]);
      RunKeepsInv(hooks, Step(hooks, s, actions[0]).value, actions[1..]);
    }
  }

  lemma Reached(hooks: seq<Hook>, actions: seq<Action>, s: State)
    requires Run(hooks, INITIAL, actions) == Some(s)
    ensures Inv(hooks, s)
  {
    hide Run, StepRunner;
    assert Inv(hooks, INITIAL);
    RunKeepsInv(hooks, INITIAL, actions);
  }

  // ---- the queue

  /** The pending count is the number of accepted events that are not finished, and never exceeds the bound. */
  lemma PendingIsBounded(hooks: seq<Hook>, actions: seq<Action>, s: State)
    requires Run(hooks, INITIAL, actions) == Some(s)
    ensures |s.counts| <= |s.accepted| && s.pending == |s.accepted| - |s.counts| <= MAX_QUEUED_EVENTS
  {
    hide Run;
    Reached(hooks, actions, s);
  }

  /** A result that the runner has sent, not one of a refused event. */
  predicate OwnResult(item: Item) { item.Result? && !item.overflow }

  predicate Ascends(reports: seq<Report>) { forall i, j :: 0 <= i < j < |reports| ==> reports[i].0 <= reports[j].0 }

  /** The results of jobs in ascending order ascend, and are about these jobs. */
  lemma {:induction false} ExpectedAscends(jobs: seq<Job>, counts: seq<nat>)
    requires CountsOk(jobs, counts) && forall j, k :: 0 <= j < k < |jobs| ==> jobs[j].source < jobs[k].source
    ensures Ascends(Expected(jobs, counts))
    ensures forall i :: 0 <= i < |Expected(jobs, counts)| ==>
      exists k :: 0 <= k < |counts| && jobs[k].source == Expected(jobs, counts)[i].0
    decreases |counts|
  {
    if counts != [] {
      var n := |counts| - 1;
      ExpectedAscends(jobs, counts[..n]);
      var front, all := Expected(jobs, counts[..n]), Expected(jobs, counts);
      forall i | 0 <= i < |all| ensures exists k :: 0 <= k < |counts| && jobs[k].source == all[i].0 {
        if i < |front| {
          var k :| 0 <= k < n && jobs[k].source == front[i].0;
          assert jobs[k].source == all[i].0;
        } else {
          assert jobs[n].source == all[i].0;
        }
      }
    }
  }

  lemma ExpectedMoreAscends(jobs: seq<Job>, counts: seq<nat>, sent: nat)
    requires CountsOk(jobs, counts) && |counts| < |jobs| && sent <= |jobs[|counts|].hooks|
    requires forall j, k :: 0 <= j < k < |jobs| ==> jobs[j].source < jobs[k].source
    ensures Ascends(Expected(jobs, counts) + ReportsOf(jobs[|counts|], sent))
  {
    hide Expected;
    ExpectedAscends(jobs, counts);
  }

  lemma {:induction false} ReportIsThere(queue: seq<Item>, i: nat)
    requires i < |queue| && OwnResult(queue[i])
    ensures (queue[i].source, queue[i].hook) in Reports(queue, false)
    decreases |queue|
  {
    if i < |queue| - 1 {
      ReportIsThere(queue[..|queue| - 1], i);
    }
  }

  lemma {:induction false} QueueAscends(queue: seq<Item>)
    requires Ascends(Reports(queue, false))
    ensures forall i, j :: 0 <= i < j < |queue| && OwnResult(queue[i]) && OwnResult(queue[j]) ==> queue[i].source <= queue[j].source
    decreases |queue|
  {
    if queue != [] {
      var n := |queue| - 1;
      var front := queue[..n];
      assert Ascends(Reports(front, false)) by {
        assert Reports(front, false) <= Reports(queue, false);
      }
      QueueAscends(front);
      forall i | 0 <= i < n && OwnResult(queue[i]) && OwnResult(queue[n]) ensures queue[i].source <= queue[n].source {
        ReportIsThere(front, i);
        var k :| 0 <= k < |Reports(front, false)| && Reports(front, false)[k] == (queue[i].source, queue[i].hook);
        var last := |Reports(front, false)|;
        assert Reports(queue, false) == Reports(front, false) + [(queue[n].source, queue[n].hook)];
        assert Reports(queue, false)[k].0 == queue[i].source && Reports(queue, false)[last].0 == queue[n].source;
      }
    }
  }

  /**
   In every run, aborted or not, the runner's results are those of the accepted events, in event
   order and within an event in configuration order, none twice and none from outside.
   */
  lemma ResultsAreInOrder(hooks: seq<Hook>, actions: seq<Action>, s: State)
    requires Run(hooks, INITIAL, actions) == Some(s)
    ensures CountsOk(s.accepted, s.counts) && (HasJob(s) ==> Sent(s.runner) <= |Head(s).hooks|)
    ensures Reports(s.queue, false)
      == Expected(s.accepted, s.counts) + (if HasJob(s) then ReportsOf(Head(s), Sent(s.runner)) else [])
    ensures forall k :: 0 <= k < |s.accepted| ==> JobOk(hooks, s, s.accepted[k])
    ensures forall j, k :: 0 <= j < k < |s.accepted| ==> s.accepted[j].source < s.accepted[k].source
    ensures forall i, j :: 0 <= i < j < |s.queue| && OwnResult(s.queue[i]) && OwnResult(s.queue[j]) ==> s.queue[i].source <= s.queue[j].source
  {
    hide Run, Reports, Expected, HooksFor;
    Reached(hooks, actions, s);
    ExpectedAscends(s.accepted, s.counts);
    if HasJob(s) {
      ExpectedMoreAscends(s.accepted, s.counts, Sent(s.runner));
    }
    assert Expected(s.accepted, s.counts) + [] == Expected(s.accepted, s.counts);
    QueueAscends(s.queue);
  }

  /** While downstream accepts and nothing is aborted, every finished event has one result for each matching hook. */
  lemma EveryHookReports(hooks: seq<Hook>, actions: seq<Action>, s: State)
    requires Run(hooks, INITIAL, actions) == Some(s) && Smooth(s)
    ensures forall k :: 0 <= k < |s.accepted| ==> JobOk(hooks, s, s.accepted[k])
    ensures forall j, k :: 0 <= j < k < |s.accepted| ==> s.accepted[j].source < s.accepted[k].source
    ensures |s.counts| <= |s.accepted| && forall k :: 0 <= k < |s.counts| ==> s.counts[k] == |s.accepted[k].hooks|
    ensures |s.counts| == |s.accepted| ==>
      CountsOk(s.accepted, AllHooks(s.accepted)) && Reports(s.queue, false) == Expected(s.accepted, AllHooks(s.accepted))
  {
    hide Run, Reports, Expected, HooksFor;
    Reached(hooks, actions, s);
    if |s.counts| == |s.accepted| {
      assert s.counts == AllHooks(s.accepted);
      assert Expected(s.accepted, s.counts) + [] == Expected(s.accepted, s.counts);
    }
  }

  /**
   Before the close, every event whose delivery has succeeded and whose `emit` has resumed is
   accepted or refused if any hook matches it; nothing is refused before 64 events were accepted.
   */
  lemma EveryEventIsTaken(hooks: seq<Hook>, actions: seq<Action>, s: State)
    requires Run(hooks, INITIAL, actions) == Some(s)
    ensures !s.closed ==> forall n :: n in s.resumed ==>
      n < |s.queue| && s.queue[n].Source?
      && (HooksFor(hooks, s.queue[n].event) == [] || HasSource(s.accepted, n) || HasSource(s.refused, n))
    ensures s.refused != [] ==> |s.accepted| >= MAX_QUEUED_EVENTS
  {
    hide Run, Reports, Expected, HooksFor, HasSource;
    Reached(hooks, actions, s);
    assert !s.closed ==> forall n :: n in s.resumed ==> Taken(hooks, s, n);
  }

  /** An event refused for lack of room still has one failed result for each matching hook. */
  lemma RefusedEventsReport(hooks: seq<Hook>, actions: seq<Action>, s: State)
    requires Run(hooks, INITIAL, actions) == Some(s)
    ensures CountsOk(s.refused, AllHooks(s.refused)) && Reports(s.queue, true) == Expected(s.refused, AllHooks(s.refused))
    ensures forall k :: 0 <= k < |s.refused| ==> JobOk(hooks, s, s.refused[k])
    ensures forall j, k :: 0 <= j < k < |s.refused| ==> s.refused[j].source < s.refused[k].source
  {
    hide Run, Reports, Expected, HooksFor;
    Reached(hooks, actions, s);
  }

  lemma {:induction false} TotalConcat(a: seq<Hook>, b: seq<Hook>)
    ensures TotalTimeout(a + b) == TotalTimeout(a) + TotalTimeout(b)
  {
    if a == [] {
      assert a + b == b;
    } else {
      assert (a + b)[1..] == a[1..] + b;
      TotalConcat(a[1..], b);
    }
  }

  lemma {:induction false} MatchingConcat(a: seq<Hook>, b: seq<Hook>, kind: Kind)
    ensures Matching(a + b, kind) == Matching(a, kind) + Matching(b, kind)
  {
    if a == [] {
      assert a + b == b;
    } else {
      assert (a + b)[1..] == a[1..] + b;
      MatchingConcat(a[1..], b, kind);
    }
  }

  /** What the parser reserves for a kind is what its matching hooks take when run one after the other. */
  lemma {:induction false} ReservedIsTotal(hooks: seq<Hook>, kind: Kind)
    ensures Reserved(hooks, kind) == TotalTimeout(Matching(hooks, kind))
  {
    if hooks != [] {
      var front, last := hooks[..|hooks| - 1], hooks[|hooks| - 1];
      ReservedIsTotal(front, kind);
      assert hooks == front + [last];
      MatchingConcat(front, [last], kind);
      assert Matching([last][1..], kind) == [];
      assert Matching([last], kind) == if kind in last.kinds then [last] else [];
      TotalConcat(Matching(front, kind), Matching([last], kind));
    }
  }

  /** Under an accepted configuration, the hooks of any accepted event together stay within the budget for one event. */
  lemma EventsStayInBudget(hooks: seq<Hook>, actions: seq<Action>, s: State, k: nat)
    requires ConfigurationOk(hooks) && Run(hooks, INITIAL, actions) == Some(s) && k < |s.accepted|
    ensures TotalTimeout(s.accepted[k].hooks) <= MAX_EVENT_TIMEOUT
  {
    hide Run, Reports, Expected, Matching;
    Reached(hooks, actions, s);
    assert JobOk(hooks, s, s.accepted[k]);
    var event := s.queue[s.accepted[k].source].event;
    if event.kind.Some? {
      ReservedIsTotal(hooks, event.kind.value);
    }
  }

  /** Every result comes after the event it is about. */
  lemma ResultsFollowTheirEvent(hooks: seq<Hook>, actions: seq<Action>, s: State, i: nat)
    requires Run(hooks, INITIAL, actions) == Some(s) && i < |s.queue| && s.queue[i].Result?
    ensures s.queue[i].source < i && s.queue[s.queue[i].source].Source?
  {
    hide Run;
    Reached(hooks, actions, s);
    assert ResultOk(s.queue, i);
  }

  /** `close` resolves only when every accepted event is finished and every one of its results has been delivered. */
  lemma CloseWaitsForAll(hooks: seq<Hook>, actions: seq<Action>, s: State)
    requires Run(hooks, INITIAL, actions) == Some(s) && s.closing.Resolved?
    ensures |s.counts| == |s.accepted| && s.pending == 0 && s.closed
    ensures forall i :: 0 <= i < |s.queue| && s.queue[i].Result? && !s.queue[i].overflow ==> i < |s.delivered|
  {
    hide Run, Reports, Expected, HooksFor;
    Reached(hooks, actions, s);
  }
}
