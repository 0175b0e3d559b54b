module McpQueue {
  /**
   The per-key queue of the MCP server catalog, `#serialize`, as a step system.  A call takes the
   newest tail of its key as its predecessor and becomes the tail; it waits for the predecessor's
   tail promise or for its own abort; when it is through it releases its turn and, if it is still
   the tail, deletes the entry.
   */

  import opened Options

  type Key = int
  type Call = nat

  /** `Leaving` stands between the end of the body, or the abort, and the `finally` block. */
  datatype Status = Waiting | Running | Leaving(ran: bool) | Finished(ran: bool)

  datatype Turn = Turn(key: Key, previous: Option<Call>, status: Status)

  /** Calls are numbered in order of arrival; `starts` lists them in the order in which their bodies began. */
  datatype State = State(calls: seq<Turn>, tails: map<Key, Call>, starts: seq<Call>)

  const INITIAL := State([], map[], [])

  datatype Event =
    | Arrive(key: Key)
    | Start(call: Call)
    | Complete(call: Call)
    | Abort(call: Call)
    | Settle(call: Call)

  /** The tail promise of a call is resolved: its turn is released, and so is every turn before it in the chain. */
  predicate TailResolved(calls: seq<Turn>, c: Call)
    decreases c
  {
    && c < |calls| && calls[c].status.Finished?
    && (calls[c].previous.Some? ==> calls[c].previous.value < c && TailResolved(calls, calls[c].previous.value))
  }

  predicate PredecessorDone(calls: seq<Turn>, c: Call)
    requires c < |calls|
  {
    calls[c].previous.Some? ==> TailResolved(calls, calls[c].previous.value)
  }

  function WithStatus(s: State, c: Call, status: Status): State
    requires c < |s.calls|
  {
    s.(calls := s.calls[c := s.calls[c].(status := status)])
  }

  function Step(s: State, e: Event): Option<State> {
    match e
    case Arrive(key) =>
      Some(s.(calls := s.calls + [Turn(key, if key in s.tails then Some(s.tails[key]) else None, Waiting)],
              tails := s.tails[key := |s.calls|]))
    case Start(c) =>
      if c >= |s.calls| || !s.calls[c].status.Waiting? || !PredecessorDone(s.calls, c) then None
      else Some(WithStatus(s, c, Running).(starts := s.starts + [c]))
    case Complete(c) =>
      if c >= |s.calls| || !s.calls[c].status.Running? then None else Some(WithStatus(s, c, Leaving(true)))
    case Abort(c) =>
      if c >= |s.calls| || !s.calls[c].status.Waiting? then None else Some(WithStatus(s, c, Leaving(false)))
    case Settle(c) =>
      if c >= |s.calls| || !s.calls[c].status.Leaving? then None
      else
        var key := s.calls[c].key;
        Some(WithStatus(s, c, Finished(s.calls[c].status.ran))
             .(tails := if key in s.tails && s.tails[key] == c then s.tails - {key} else s.tails))
  }

  function Run(s: State, events: seq<Event>): Option<State>
    decreases |events|
  {
    if events == [] then Some(s) else
    var next :- Step(s, events[0]);
    Run(next, events[1..])
  }

  /** A call that is waiting, or whose body is running. */
  predicate Pending(calls: seq<Turn>, b: Call)
    requires b < |calls|
  {
    calls[b].status.Waiting? || calls[b].status.Running?
  }

  /** The tail of a key settles while an earlier call of the key is still waiting or running. */
  predicate Premature(s: State, e: Event) {
    && e.Settle? && e.call < |s.calls| && s.calls[e.call].status.Leaving?
    && s.calls[e.call].key in s.tails && s.tails[s.calls[e.call].key] == e.call
    && exists b :: 0 <= b < e.call && s.calls[b].key == s.calls[e.call].key && Pending(s.calls, b)
  }

  /** No newest call is aborted behind one that is still waiting or running; waiters in the middle may abort freely. */
  predicate Patient(s: State, events: seq<Event>)
    decreases |events|
  {
    events == [] || (!Premature(s, events[0]) && (Step(s, events[0]).Some? ==> Patient(Step(s, events[0]).value, events[1..])))
  }

  // ---- the invariant

  /** The call waits no more, and its body does not run, or no more. */
  predicate Over(calls: seq<Turn>, b: Call)
    requires b < |calls|
  {
    calls[b].status.Leaving? || calls[b].status.Finished?
  }

  /** The predecessor is the call of the same key that arrived just before, or all of those are over. */
  predicate LinkOk(calls: seq<Turn>, c: Call)
    requires c < |calls|
  {
    match calls[c].previous
    case Some(p) => p < c && calls[p].key == calls[c].key && forall b :: p < b < c ==> calls[b].key != calls[c].key
    case None => forall b :: 0 <= b < c && calls[b].key == calls[c].key ==> Over(calls, b)
  }

  /** The tail of a key is its newest call; without a tail all its calls are over. */
  predicate TailOk(s: State, key: Key) {
    if key in s.tails then
      && s.tails[key] < |s.calls| && s.calls[s.tails[key]].key == key
      && forall b :: s.tails[key] < b < |s.calls| ==> s.calls[b].key != key
    else forall b :: 0 <= b < |s.calls| && s.calls[b].key == key ==> Over(s.calls, b)
  }

  /** A call whose body has begun found its predecessor done, and is listed among the starts exactly then. */
  predicate BegunOk(s: State, c: Call)
    requires c < |s.calls|
  {
    && (c in s.starts <==> Begun(s.calls[c].status))
    && (c in s.starts ==> PredecessorDone(s.calls, c))
  }

  predicate Begun(status: Status) { status.Running? || (status.Leaving? && status.ran) || (status.Finished? && status.ran) }

  predicate StartsOk(s: State) {
    && (forall i :: 0 <= i < |s.starts| ==> s.starts[i] < |s.calls|)
    && (forall i, j :: 0 <= i < j < |s.starts| && s.calls[s.starts[i]].key == s.calls[s.starts[j]].key ==> s.starts[i] < s.starts[j])
  }

  ghost predicate Inv(s: State) {
    && (forall c :: 0 <= c < |s.calls| ==> LinkOk(s.calls, c) && BegunOk(s, c))
    && (forall key :: TailOk(s, key))
    && StartsOk(s)
  }

  /** Once a call's predecessor is done, every earlier call of its key is over. */
  lemma {:induction false} EarlierAreOver(calls: seq<Turn>, c: Call, b: Call)
    requires c < |calls| && b < c && calls[b].key == calls[c].key && PredecessorDone(calls, c)
    requires forall k :: 0 <= k < |calls| ==> LinkOk(calls, k)
    ensures Over(calls, b)
    decreases c
  {
    assert LinkOk(calls, c);
    if calls[c].previous.Some? {
      var p := calls[c].previous.value;
      if b < p {
        EarlierAreOver(calls, p, b);
      }
    }
  }

  // ---- every step keeps the invariant

  /** Calls keep their key and predecessor, and what is over, or finished, stays so. */
  predicate Advances(calls: seq<Turn>, later: seq<Turn>) {
    && |calls| <= |later|
    && forall b :: 0 <= b < |calls| ==>
      && later[b].key == calls[b].key && later[b].previous == calls[b].previous
      && (Over(calls, b) ==> Over(later, b)) && (calls[b].status.Finished? ==> later[b].status.Finished?)
  }

  lemma {:induction false} ResolvedStays(calls: seq<Turn>, later: seq<Turn>, c: Call)
    requires Advances(calls, later) && TailResolved(calls, c)
    ensures TailResolved(later, c)
    decreases c
  {
    assert calls[c].status.Finished?;
    if calls[c].previous.Some? {
      ResolvedStays(calls, later, calls[c].previous.value);
    }
  }

  lemma PredecessorStays(calls: seq<Turn>, later: seq<Turn>, c: Call)
    requires Advances(calls, later) && c < |calls| && PredecessorDone(calls, c)
    ensures PredecessorDone(later, c)
  {
    hide TailResolved;
    assert later[c].previous == calls[c].previous;
    if calls[c].previous.Some? {
      ResolvedStays(calls, later, calls[c].previous.value);
    }
  }

  lemma LinkStays(calls: seq<Turn>, later: seq<Turn>, c: Call)
    requires Advances(calls, later) && c < |calls| && LinkOk(calls, c)
    ensures LinkOk(later, c)
  {
  }

  lemma ArriveKeepsInv(s: State, key: Key)
    requires Inv(s)
    ensures Inv(Step(s, Arrive(key)).value)
  {
    hide TailResolved;
    var t := Step(s, Arrive(key)).value;
    var n := |s.calls|;
    assert TailOk(s, key);
    forall c | 0 <= c < |t.calls| ensures LinkOk(t.calls, c) && BegunOk(t, c) {
      if c < n {
        LinkStays(s.calls, t.calls, c);
        if c in s.starts {
          PredecessorStays(s.calls, t.calls, c);
        }
      } else {
        assert n !in t.starts;
      }
    }
    forall k ensures TailOk(t, k) {
      assert TailOk(s, k);
    }
  }

  /** A step of one call that moves its status on. */
  lemma StatusKeepsLinks(s: State, t: State, c: Call, status: Status)
    requires Inv(s) && c < |s.calls| && t.calls == WithStatus(s, c, status).calls
    requires Pending(s.calls, c) || (s.calls[c].status.Leaving? && status.Finished?)
    ensures Advances(s.calls, t.calls)
    ensures forall b :: 0 <= b < |t.calls| ==> LinkOk(t.calls, b)
    ensures forall b :: 0 <= b < |t.calls| && b in s.starts ==> PredecessorDone(t.calls, b)
  {
    hide TailResolved;
    forall b | 0 <= b < |t.calls| ensures LinkOk(t.calls, b) {
      LinkStays(s.calls, t.calls, b);
    }
    forall b | 0 <= b < |t.calls| && b in s.starts ensures PredecessorDone(t.calls, b) {
      assert BegunOk(s, b);
      PredecessorStays(s.calls, t.calls, b);
    }
  }

  lemma StartKeepsInv(s: State, c: Call)
    requires Inv(s) && Step(s, Start(c)).Some?
    ensures Inv(Step(s, Start(c)).value)
  {
    hide TailResolved, LinkOk;
    var t := Step(s, Start(c)).value;
    StatusKeepsLinks(s, t, c, Running);
    assert BegunOk(s, c);
    PredecessorStays(s.calls, t.calls, c);
    forall b | 0 <= b < |t.calls| ensures BegunOk(t, b) {
      assert BegunOk(s, b);
    }
    forall i | 0 <= i < |s.starts| && s.calls[s.starts[i]].key == s.calls[c].key ensures s.starts[i] < c {
      StartsInOrder(s, s.starts[i], c);
    }
    StartsExtend(s, t, c);
    forall k ensures TailOk(t, k) {
      assert TailOk(s, k);
    }
  }

  /** A call that is still waiting arrived after every call of its key that has begun. */
  lemma StartsInOrder(s: State, b: Call, c: Call)
    requires Inv(s) && b in s.starts && c < |s.calls| && s.calls[c].status.Waiting?
    requires b < |s.calls| && s.calls[b].key == s.calls[c].key
    ensures b < c
  {
    hide TailResolved, LinkOk;
    assert BegunOk(s, b) && BegunOk(s, c);
    if c < b {
      EarlierAreOver(s.calls, b, c);
    }
  }

  lemma StartsExtend(s: State, t: State, c: Call)
    requires StartsOk(s) && c < |s.calls| && t == WithStatus(s, c, Running).(starts := s.starts + [c])
    requires forall i :: 0 <= i < |s.starts| && s.calls[s.starts[i]].key == s.calls[c].key ==> s.starts[i] < c
    ensures StartsOk(t)
  {
  }

  lemma LeaveKeepsInv(s: State, e: Event)
    requires Inv(s) && (e.Complete? || e.Abort?) && Step(s, e).Some?
    ensures Inv(Step(s, e).value)
  {
    hide TailResolved, LinkOk;
    var t := Step(s, e).value;
    StatusKeepsLinks(s, t, e.call, t.calls[e.call].status);
    forall b | 0 <= b < |t.calls| ensures BegunOk(t, b) {
      assert BegunOk(s, b);
    }
    forall k ensures TailOk(t, k) {
      assert TailOk(s, k);
    }
  }

  lemma SettleKeepsInv(s: State, c: Call)
    requires Inv(s) && Step(s, Settle(c)).Some? && !Premature(s, Settle(c))
    ensures Inv(Step(s, Settle(c)).value)
  {
    hide TailResolved, LinkOk;
    var t := Step(s, Settle(c)).value;
    StatusKeepsLinks(s, t, c, t.calls[c].status);
    forall b | 0 <= b < |t.calls| ensures BegunOk(t, b) {
      assert BegunOk(s, b);
    }
    forall k ensures TailOk(t, k) {
      assert TailOk(s, k);
      if k == s.calls[c].key && k in s.tails && s.tails[k] == c {
        SettledTail(s, c);
      }
    }
  }

  /** When the tail of a key settles in time, all the key's other calls are over. */
  lemma SettledTail(s: State, c: Call)
    requires Inv(s) && c < |s.calls| && s.calls[c].status.Leaving? && !Premature(s, Settle(c))
    requires s.calls[c].key in s.tails && s.tails[s.calls[c].key] == c
    ensures forall b :: 0 <= b < |s.calls| && s.calls[b].key == s.calls[c].key ==> Over(s.calls, b)
  {
    hide TailResolved, LinkOk;
    assert TailOk(s, s.calls[c].key);
    forall b | 0 <= b < |s.calls| && s.calls[b].key == s.calls[c].key ensures Over(s.calls, b) {
      assert b < c ==> !Pending(s.calls, b);
    }
  }

  lemma StepKeepsInv(s: State, e: Event)
    requires Inv(s) && Step(s, e).Some? && !Premature(s, e)
    ensures Inv(Step(s, e).value)
  {
    hide Inv;
    match e
    case Arrive(key) => ArriveKeepsInv(s, key);
    case Start(c) => StartKeepsInv(s, c);
    case Complete(_) => LeaveKeepsInv(s, e);
    case Abort(_) => LeaveKeepsInv(s, e);
    case Settle(c) => SettleKeepsInv(s, c);
  }

  /** The steps that keep the invariant are exactly those that are not premature settles. */
  lemma StepExact(s: State, e: Event)
    requires Inv(s) && Step(s, e).Some?
    ensures Inv(Step(s, e).value) <==> !Premature(s, e)
  {
    hide Inv;
    if Premature(s, e) {
      PrematureBreaksInv(s, e);
    } else {
      StepKeepsInv(s, e);
    }
  }

  lemma PrematureBreaksInv(s: State, e: Event)
    requires Premature(s, e) && Step(s, e).Some?
    ensures !Inv(Step(s, e).value)
  {
    hide TailResolved, LinkOk;
    var t := Step(s, e).value;
    var b :| 0 <= b < e.call && s.calls[b].key == s.calls[e.call].key && Pending(s.calls, b);
    assert !Over(t.calls, b);
    assert !TailOk(t, s.calls[e.call].key);
  }

  lemma {:induction false} RunKeepsInv(s: State, events: seq<Event>)
    requires Inv(s) && Run(s, events).Some? && Patient(s, events)
    ensures Inv(Run(s, events).value)
    decreases |events|
  {
    hide Inv, Step;
    if events != [] {
      StepKeepsInv(s, events[0]);
      RunKeepsInv(Step(s, events[0]).value, events[1..]);
    }
  }

  // ---- the queue

  /** At most one body of a key runs at a time. */
  lemma OneBodyAtATime(events: seq<Event>, s: State, b: Call, c: Call)
    requires Run(INITIAL, events) == Some(s) && Patient(INITIAL, events)
    requires b < |s.calls| && s.calls[b].status.Running? && c < |s.calls| && s.calls[c].status.Running?
    requires s.calls[b].key == s.calls[c].key
    ensures b == c
  {
    hide TailResolved, LinkOk, Run, Patient;
    RunKeepsInv(INITIAL, events);
    assert BegunOk(s, b) && BegunOk(s, c);
    if b < c {
      EarlierAreOver(s.calls, c, b);
    } else if c < b {
      EarlierAreOver(s.calls, b, c);
    }
  }

  /** The bodies of a key begin in the order in which their calls arrived, and each begins once. */
  lemma BodiesStartInArrivalOrder(events: seq<Event>, s: State, i: nat, j: nat)
    requires Run(INITIAL, events) == Some(s) && Patient(INITIAL, events)
    requires i < j < |s.starts|
    ensures s.starts[i] < |s.calls| && s.starts[j] < |s.calls|
    ensures s.calls[s.starts[i]].key == s.calls[s.starts[j]].key ==> s.starts[i] < s.starts[j]
  {
    RunKeepsInv(INITIAL, events);
  }

  // ---- why the condition is needed, and that it is exact

  predicate RunningOf(s: State, key: Key, b: Call) { b < |s.calls| && s.calls[b].key == key && s.calls[b].status.Running? }

  /** Two bodies of the key are running. */
  predicate TwoRunning(s: State, key: Key) {
    exists b, c :: 0 <= b < c < |s.calls| && RunningOf(s, key, b) && RunningOf(s, key, c)
  }

  predicate LeadsToTwo(s: State, key: Key, events: seq<Event>) {
    Run(s, events).Some? && Patient(s, events) && TwoRunning(Run(s, events).value, key)
  }

  /** Without any further premature settle, two bodies of one key can come to run at once. */
  ghost predicate Endangered(s: State) { exists key, events :: LeadsToTwo(s, key, events) }

  lemma Now(s: State, key: Key, b: Call, c: Call)
    requires RunningOf(s, key, b) && RunningOf(s, key, c) && b < c
    ensures LeadsToTwo(s, key, [])
  {
  }

  lemma OneMore(s: State, key: Key, e: Event, events: seq<Event>)
    requires Step(s, e).Some? && !Premature(s, e) && LeadsToTwo(Step(s, e).value, key, events)
    ensures LeadsToTwo(s, key, [e] + events)
  {
    hide Step, Premature;
    assert ([e] + events)[1..] == events;
  }

  /** If all calls of a key up to `c` are finished, the tail promise of `c` is resolved. */
  lemma {:induction false} AllFinished(calls: seq<Turn>, c: Call)
    requires c < |calls| && forall k :: 0 <= k <= c ==> LinkOk(calls, k)
    requires forall k :: 0 <= k <= c && calls[k].key == calls[c].key ==> calls[k].status.Finished?
    ensures TailResolved(calls, c)
    decreases c
  {
    assert LinkOk(calls, c);
    if calls[c].previous.Some? {
      AllFinished(calls, calls[c].previous.value);
    }
  }

  /** The first waiting call of a key can start beside a body that runs out of turn, once those before it have settled. */
  lemma {:induction false} FirstCanStart(s: State, b: Call, n: Call, i: nat) returns (events: seq<Event>)
    requires i <= b < n < |s.calls| && RunningOf(s, s.calls[b].key, n) && s.calls[b].status.Waiting?
    requires forall k :: 0 <= k <= b ==> LinkOk(s.calls, k)
    requires s.calls[b].key in s.tails && s.tails[s.calls[b].key] == n
    requires forall k :: 0 <= k < b && s.calls[k].key == s.calls[b].key ==> Over(s.calls, k) && (k < i ==> s.calls[k].status.Finished?)
    ensures LeadsToTwo(s, s.calls[b].key, events)
    decreases b - i
  {
    hide TailResolved, LinkOk, LeadsToTwo;
    var key := s.calls[b].key;
    if i == b {
      BeforeIsDone(s.calls, b);
      var t := Step(s, Start(b)).value;
      Now(t, key, b, n);
      OneMore(s, key, Start(b), []);
      events := [Start(b)] + [];
    } else if s.calls[i].key == key && s.calls[i].status.Leaving? {
      var t := Step(s, Settle(i)).value;
      assert Advances(s.calls, t.calls);
      forall k | 0 <= k <= b ensures LinkOk(t.calls, k) {
        LinkStays(s.calls, t.calls, k);
      }
      var rest := FirstCanStart(t, b, n, i + 1);
      OneMore(s, key, Settle(i), rest);
      events := [Settle(i)] + rest;
    } else {
      events := FirstCanStart(s, b, n, i + 1);
    }
  }

  lemma BeforeIsDone(calls: seq<Turn>, b: Call)
    requires b < |calls| && forall k :: 0 <= k <= b ==> LinkOk(calls, k)
    requires forall k :: 0 <= k < b && calls[k].key == calls[b].key ==> calls[k].status.Finished?
    ensures PredecessorDone(calls, b)
  {
    hide TailResolved;
    assert LinkOk(calls, b);
    if calls[b].previous.Some? {
      AllFinished(calls, calls[b].previous.value);
    }
  }

  /** The first of the pending calls of a key. */
  lemma {:induction false} FirstPending(calls: seq<Turn>, b: Call) returns (first: Call)
    requires b < |calls| && Pending(calls, b)
    ensures first <= b && calls[first].key == calls[b].key && Pending(calls, first)
    ensures forall k :: 0 <= k < first && calls[k].key == calls[b].key ==> Over(calls, k)
    decreases b
  {
    if k :| 0 <= k < b && calls[k].key == calls[b].key && Pending(calls, k) {
      first := FirstPending(calls, k);
    } else {
      first := b;
      forall k | 0 <= k < b && calls[k].key == calls[b].key ensures Over(calls, k) {
        assert !Pending(calls, k);
      }
    }
  }

  /**
   Whenever the tail of a key settles with an earlier call of the key still waiting or running,
   a new call can start at once, and the earlier one then runs beside it.
   */
  lemma PrematureSettleAdmitsTwo(s: State, c: Call) returns (events: seq<Event>)
    requires Inv(s) && Premature(s, Settle(c))
    ensures LeadsToTwo(Step(s, Settle(c)).value, s.calls[c].key, events)
  {
    hide TailResolved, LinkOk, LeadsToTwo, BegunOk, StartsOk, TailOk;
    var key, n := s.calls[c].key, |s.calls|;
    var any :| 0 <= any < c && s.calls[any].key == key && Pending(s.calls, any);
    var b := FirstPending(s.calls, any);
    var s1 := Step(s, Settle(c)).value;
    var s2 := Step(s1, Arrive(key)).value;
    var s3 := Step(s2, Start(n)).value;
    assert Advances(s.calls, s3.calls);
    var rest;
    if s.calls[b].status.Running? {
      Now(s3, key, b, n);
      rest := [];
    } else {
      forall k | 0 <= k <= b ensures LinkOk(s3.calls, k) {
        LinkStays(s.calls, s3.calls, k);
      }
      rest := FirstCanStart(s3, b, n, 0);
    }
    OneMore(s2, key, Start(n), rest);
    OneMore(s1, key, Arrive(key), [Start(n)] + rest);
    events := [Arrive(key)] + ([Start(n)] + rest);
  }

  lemma RunningIsOne(s: State, key: Key)
    requires Inv(s)
    ensures !TwoRunning(s, key)
  {
    hide TailResolved, LinkOk, TailOk, StartsOk;
    if TwoRunning(s, key) {
      var b, c :| 0 <= b < c < |s.calls| && RunningOf(s, key, b) && RunningOf(s, key, c);
      assert BegunOk(s, c);
      EarlierAreOver(s.calls, c, b);
    }
  }

  /** From a state of the invariant nothing leads to two running bodies but a premature settle. */
  lemma InvIsSafe(s: State)
    requires Inv(s)
    ensures !Endangered(s)
  {
    hide Inv, Run, Patient, TwoRunning;
    if Endangered(s) {
      var key, events :| LeadsToTwo(s, key, events);
      RunKeepsInv(s, events);
      RunningIsOne(Run(s, events).value, key);
    }
  }

  /** The condition is exact: a step endangers the queue if and only if it is a premature settle. */
  lemma DangerExact(s: State, e: Event)
    requires Inv(s) && Step(s, e).Some?
    ensures Endangered(Step(s, e).value) <==> Premature(s, e)
  {
    hide Inv, Step, LeadsToTwo;
    if Premature(s, e) {
      var events := PrematureSettleAdmitsTwo(s, e.call);
    } else {
      StepKeepsInv(s, e);
      InvIsSafe(Step(s, e).value);
    }
  }

  /** No state on the way is endangered. */
  ghost predicate NeverEndangered(s: State, events: seq<Event>)
    decreases |events|
  {
    !Endangered(s) && (events != [] && Step(s, events[0]).Some? ==> NeverEndangered(Step(s, events[0]).value, events[1..]))
  }

  lemma {:induction false} PatientFrom(s: State, events: seq<Event>)
    requires Inv(s) && Run(s, events).Some?
    ensures Patient(s, events) <==> NeverEndangered(s, events)
    decreases |events|
  {
    hide Inv, Step, Premature, Endangered;
    InvIsSafe(s);
    if events != [] {
      DangerExact(s, events[0]);
      if Premature(s, events[0]) {
        assert !NeverEndangered(Step(s, events[0]).value, events[1..]);
      } else {
        StepKeepsInv(s, events[0]);
        PatientFrom(Step(s, events[0]).value, events[1..]);
      }
    }
  }

  /** For every run: no premature settle occurs in it if and only if the queue is at no point endangered. */
  lemma PatientExact(events: seq<Event>)
    requires Run(INITIAL, events).Some?
    ensures Patient(INITIAL, events) <==> NeverEndangered(INITIAL, events)
  {
    hide Run, Patient, NeverEndangered;
    PatientFrom(INITIAL, events);
  }

  lemma {:induction false} RunThen(s: State, first: seq<Event>, second: seq<Event>)
    requires Run(s, first).Some?
    ensures Run(s, first + second) == Run(Run(s, first).value, second)
    decreases |first|
  {
    hide Step;
    if first == [] {
      assert first + second == second;
    } else {
      assert (first + second)[1..] == first[1..] + second;
      RunThen(Step(s, first[0]).value, first[1..], second);
    }
  }

  /** Such a state is reached: one body runs, a second call waits behind it and is aborted. */
  lemma AbortedTailWitness() returns (events: seq<Event>, s: State)
    ensures Run(INITIAL, events) == Some(s) && Patient(INITIAL, events)
    ensures |s.calls| == 2 && s.calls[1].key == 0 && Premature(s, Settle(1))
  {
    var s1 := Step(INITIAL, Arrive(0)).value;
    var s2 := Step(s1, Start(0)).value;
    var s3 := Step(s2, Arrive(0)).value;
    s := Step(s3, Abort(1)).value;
    events := [Arrive(0), Start(0), Arrive(0), Abort(1)];
    assert RunningOf(s, 0, 0) && Pending(s.calls, 0) && Premature(s, Settle(1));
    assert events[1..] == [Start(0), Arrive(0), Abort(1)];
    assert events[1..][1..] == [Arrive(0), Abort(1)];
    assert events[1..][1..][1..] == [Abort(1)];
    assert events[1..][1..][1..][1..] == [];
    assert Run(s, []) == Some(s) && Patient(s, []);
    assert Run(s3, [Abort(1)]) == Some(s) && Patient(s3, [Abort(1)]);
    assert Run(s2, [Arrive(0), Abort(1)]) == Some(s) && Patient(s2, [Arrive(0), Abort(1)]);
    assert Run(s1, [Start(0), Arrive(0), Abort(1)]) == Some(s) && Patient(s1, [Start(0), Arrive(0), Abort(1)]);
  }

  /** A run of the code in which two bodies of one key are running: it is not a patient one. */
  lemma ImpatientWitness() returns (events: seq<Event>, s: State)
    ensures Run(INITIAL, events) == Some(s) && !Patient(INITIAL, events) && TwoRunning(s, 0)
  {
    hide Run, Patient, Step, Premature, TwoRunning;
    var first, middle := AbortedTailWitness();
    assert Inv(middle) by { RunKeepsInv(INITIAL, first); }
    var rest := PrematureSettleAdmitsTwo(middle, 1);
    assert Step(middle, Settle(1)).Some? by { CanSettle(middle, 1); }
    var next := Step(middle, Settle(1)).value;
    s := Run(next, rest).value;
    RunSettle(middle, 1);
    RunThen(middle, [Settle(1)], rest);
    RunThen(INITIAL, first, [Settle(1)] + rest);
    events := first + ([Settle(1)] + rest);
    if Patient(INITIAL, events) {
      RunKeepsInv(INITIAL, events);
      RunningIsOne(s, 0);
    }
  }

  lemma CanSettle(s: State, c: Call)
    requires Premature(s, Settle(c))
    ensures Step(s, Settle(c)).Some?
  {
  }

  lemma RunSettle(s: State, c: Call)
    requires Step(s, Settle(c)).Some?
    ensures Run(s, [Settle(c)]) == Step(s, Settle(c))
  {
    hide Step;
    assert Run(Step(s, Settle(c)).value, []) == Step(s, Settle(c));
  }
}
