module LockDanger {
  /**
   Why a break must not take away a lock that is held: exactly such an unlink endangers mutual
   exclusion.  Whatever the owner is doing at that moment, two attempts can come to be inside
   without any further unlink of that kind; and without one they cannot.
   */

  import opened Options
  import opened LockFile
  import opened LockProtocol

  predicate InsideNow(s: State, a: Attempt) { a in s.attempts && s.attempts[a].alive && s.attempts[a].pc.Inside? }

  /** Two live attempts are inside their transactions. */
  ghost predicate TwoInside(s: State) { exists a, b :: InsideNow(s, a) && InsideNow(s, b) && a != b }

  ghost predicate LeadsToTwo(format: Format, s: State, events: seq<Event>) {
    Run(format, s, events).Some? && SafeBreaks(format, s, events) && TwoInside(Run(format, s, events).value)
  }

  /** Without any further unlink of a lock that is held, two attempts can come to be inside. */
  ghost predicate Endangered(format: Format, s: State) { exists events :: LeadsToTwo(format, s, events) }

  lemma Found(format: Format, s: State, events: seq<Event>, t: State, a: Attempt, b: Attempt)
    requires Run(format, s, events) == Some(t) && forall k :: 0 <= k < |events| ==> !BreaksLock(events[k])
    requires InsideNow(t, a) && InsideNow(t, b) && a != b
    ensures LeadsToTwo(format, s, events)
  {
    hide Run, SafeBreaks;
    NoBreaks(format, s, events);
  }

  // ---- the breaker enters, and the former owner goes on

  /** A live attempt on its way in, or inside, comes to be inside, whatever the lock entry says. */
  lemma CanGoOn(format: Format, s: State, b: Attempt) returns (events: seq<Event>, t: State)
    requires b in s.attempts && s.attempts[b].alive
    requires s.attempts[b].pc.Linked? || s.attempts[b].pc.Syncing? || s.attempts[b].pc.Inside?
    ensures Run(format, s, events) == Some(t) && forall k :: 0 <= k < |events| ==> !BreaksLock(events[k])
    ensures InsideNow(t, b) && forall a :: a != b && InsideNow(s, a) ==> InsideNow(t, a)
  {
    hide ClaimOk, LockOk, InspectOk, Run;
    if s.attempts[b].pc.Inside? {
      events, t := [], s;
      RunNothing(format, s);
    } else if s.attempts[b].pc.Syncing? {
      t := Step(format, s, Do(b, SyncDirectory)).value;
      events := [Do(b, SyncDirectory)];
      RunOne(format, s, Do(b, SyncDirectory));
    } else {
      var u := Step(format, s, Do(b, UnlinkClaim)).value;
      t := Step(format, u, Do(b, SyncDirectory)).value;
      RunOne(format, s, Do(b, UnlinkClaim));
      RunSnoc(format, s, [Do(b, UnlinkClaim)], u, Do(b, SyncDirectory));
      events := [Do(b, UnlinkClaim)] + [Do(b, SyncDirectory)];
    }
  }

  lemma RunNothing(format: Format, s: State)
    ensures Run(format, s, []) == Some(s)
  {
  }

  /** An attempt that has made its stat and comes to its unlink removes whatever the lock entry now is. */
  lemma CanUnlock(format: Format, s: State, b: Attempt) returns (e: Event, t: State)
    requires b in s.attempts && s.attempts[b].alive && (s.attempts[b].pc.UndoUnlink? || s.attempts[b].pc.ReleaseUnlink?)
    ensures Step(format, s, e) == Some(t) && !BreaksLock(e)
    ensures t.lock == None && t.files == s.files && t.claims == s.claims && t.attempts.Keys == s.attempts.Keys
    ensures forall a :: a != b && InsideNow(s, a) ==> InsideNow(t, a)
  {
    hide ClaimOk, LockOk, InspectOk;
    e := Do(b, if s.attempts[b].pc.UndoUnlink? then Undo else UnlinkOwn);
    t := Step(format, s, e).value;
  }

  lemma Fresh(taken: set<nat>) returns (n: nat)
    ensures n !in taken
  {
    n := 0;
    var rest := taken;
    while rest != {}
      invariant rest <= taken && forall k :: k in taken && k !in rest ==> k < n
      decreases rest
    {
      var k :| k in rest;
      if n <= k {
        n := k + 1;
      }
      rest := rest - {k};
    }
  }

  /** With no lock in place, a new attempt can come to be inside beside any that is. */
  lemma NewcomerEnters(format: Format, s: State, m: Metadata) returns (events: seq<Event>, t: State, c: Attempt)
    requires ReadsBack(format) && format.valid(m) && s.lock == None && forall a :: a in s.claims ==> a in s.attempts
    ensures Run(format, s, events) == Some(t) && forall k :: 0 <= k < |events| ==> !BreaksLock(events[k])
    ensures c !in s.attempts && InsideNow(t, c) && forall a :: InsideNow(s, a) ==> InsideNow(t, a)
  {
    hide Run, Step, ReadsBack;
    c := Fresh(s.attempts.Keys);
    var i := Fresh(s.files.Keys);
    var e1, s1 := CanClaim(format, s, c, m, i);
    var e2;
    e2, t := CanEnter(format, s1, c);
    RunThen(format, s, e1, e2);
    events := e1 + e2;
  }

  /** The breaker is inside, and the former owner is about to unlink the lock. */
  lemma OwnerUnlocks(format: Format, s: State, a: Attempt, b: Attempt) returns (events: seq<Event>)
    requires ReadsBack(format) && InsideNow(s, a) && a != b && b in s.attempts && s.attempts[b].alive
    requires s.attempts[b].pc.UndoUnlink? || s.attempts[b].pc.ReleaseUnlink?
    requires format.valid(s.attempts[a].metadata) && forall c :: c in s.claims ==> c in s.attempts
    ensures LeadsToTwo(format, s, events)
  {
    hide Run, Step, ReadsBack, LeadsToTwo;
    var e, s1 := CanUnlock(format, s, b);
    var rest, t, c := NewcomerEnters(format, s1, s.attempts[a].metadata);
    RunOne(format, s, e);
    RunThen(format, s, [e], rest);
    events := [e] + rest;
    Found(format, s, events, t, a, c);
  }

  lemma OwnerGoesOn(format: Format, s: State, a: Attempt, b: Attempt) returns (events: seq<Event>)
    requires InsideNow(s, a) && a != b && b in s.attempts && s.attempts[b].alive
    requires s.attempts[b].pc.Linked? || s.attempts[b].pc.Syncing? || s.attempts[b].pc.Inside?
    ensures LeadsToTwo(format, s, events)
  {
    hide Run, Step, LeadsToTwo;
    var t;
    events, t := CanGoOn(format, s, b);
    Found(format, s, events, t, a, b);
  }

  lemma Prefixed(format: Format, s: State, first: seq<Event>, t: State, second: seq<Event>)
    requires Run(format, s, first) == Some(t) && forall k :: 0 <= k < |first| ==> !BreaksLock(first[k])
    requires LeadsToTwo(format, t, second)
    ensures LeadsToTwo(format, s, first + second)
  {
    hide Run, Step, TwoInside;
    RunThen(format, s, first, second);
    SafeThen(format, s, first, second);
  }

  lemma {:induction false} SafeThen(format: Format, s: State, first: seq<Event>, second: seq<Event>)
    requires Run(format, s, first).Some? && (forall k :: 0 <= k < |first| ==> !BreaksLock(first[k]))
    requires SafeBreaks(format, Run(format, s, first).value, second)
    ensures SafeBreaks(format, s, first + second)
    decreases |first|
  {
    hide Step;
    if first == [] {
      assert first + second == second;
    } else {
      assert (first + second)[1..] == first[1..] + second && !BreaksLock(first[0]);
      SafeThen(format, Step(format, s, first[0]).value, first[1..], second);
    }
  }

  /** The state after a break has taken away the lock that the attempt `b` holds. */
  lemma AfterHeldUnlink(format: Format, s: State, a: Attempt) returns (b: Attempt)
    requires Inv(format, s) && Step(format, s, Do(a, UnlinkStale)).Some? && HeldUnlink(s, Do(a, UnlinkStale))
    ensures var t := Step(format, s, Do(a, UnlinkStale)).value;
      && a != b && a in t.attempts && t.attempts[a].alive && t.attempts[a].pc.Trying? && t.lock == None
      && b in t.attempts && t.attempts[b].alive && Holding(t.attempts[b].pc)
      && format.valid(t.attempts[a].metadata) && (forall c :: c in t.claims ==> c in t.attempts)
  {
    hide LockOk, InspectOk;
    b := s.files[s.lock.value].owner;
    assert ClaimOk(format, s, a);
  }

  /** Whenever a break takes away a lock that is held, two attempts can come to be inside. */
  lemma HeldUnlinkAdmitsTwo(format: Format, s: State, a: Attempt) returns (events: seq<Event>)
    requires ReadsBack(format) && Inv(format, s) && Step(format, s, Do(a, UnlinkStale)).Some? && HeldUnlink(s, Do(a, UnlinkStale))
    ensures LeadsToTwo(format, Step(format, s, Do(a, UnlinkStale)).value, events)
  {
    hide Inv, Run, Step, HeldUnlink, LeadsToTwo, ReadsBack;
    var b := AfterHeldUnlink(format, s, a);
    var s1 := Step(format, s, Do(a, UnlinkStale)).value;
    var enter, s2 := CanEnter(format, s1, a);
    var rest;
    if s2.attempts[b].pc.UndoUnlink? || s2.attempts[b].pc.ReleaseUnlink? {
      rest := OwnerUnlocks(format, s2, a, b);
    } else {
      rest := OwnerGoesOn(format, s2, a, b);
    }
    Prefixed(format, s1, enter, s2, rest);
    events := enter + rest;
  }

  // ---- and nothing else does

  lemma InsideIsOne(format: Format, s: State)
    requires Inv(format, s)
    ensures !TwoInside(s)
  {
    hide ClaimOk, InspectOk;
    if TwoInside(s) {
      var a, b :| InsideNow(s, a) && InsideNow(s, b) && a != b;
      assert ClaimOk(format, s, a) && ClaimOk(format, s, b);
      SameClaim(format, s, a, b);
    }
  }

  lemma SameClaim(format: Format, s: State, a: Attempt, b: Attempt)
    requires OwnFacts(format, s, a) && OwnFacts(format, s, b) && InsideNow(s, a) && InsideNow(s, b)
    ensures a == b
  {
  }

  lemma InvIsSafe(format: Format, s: State)
    requires ReadsBack(format) && Inv(format, s)
    ensures !Endangered(format, s)
  {
    hide Inv, Run, SafeBreaks, TwoInside;
    if Endangered(format, s) {
      var events :| LeadsToTwo(format, s, events);
      RunKeepsInv(format, s, events);
      InsideIsOne(format, Run(format, s, events).value);
    }
  }

  /** The condition is exact: a step endangers mutual exclusion if and only if it takes away a lock that is held. */
  lemma DangerExact(format: Format, s: State, e: Event)
    requires ReadsBack(format) && Inv(format, s) && Step(format, s, e).Some?
    ensures Endangered(format, Step(format, s, e).value) <==> HeldUnlink(s, e)
  {
    hide Inv, Step, LeadsToTwo, Held;
    if HeldUnlink(s, e) {
      var events := HeldUnlinkAdmitsTwo(format, s, e.attempt);
    } else {
      StepKeepsInv(format, s, e);
      InvIsSafe(format, Step(format, s, e).value);
    }
  }

  /** No state on the way is endangered. */
  ghost predicate NeverEndangered(format: Format, s: State, events: seq<Event>)
    decreases |events|
  {
    && !Endangered(format, s)
    && (events != [] && Step(format, s, events[0]).Some? ==> NeverEndangered(format, Step(format, s, events[0]).value, events[1..]))
  }

  lemma {:induction false} SafeFrom(format: Format, s: State, events: seq<Event>)
    requires ReadsBack(format) && Inv(format, s) && Run(format, s, events).Some?
    ensures SafeBreaks(format, s, events) <==> NeverEndangered(format, s, events)
    decreases |events|
  {
    hide Inv, Step, HeldUnlink, Endangered, ReadsBack;
    InvIsSafe(format, s);
    if events != [] {
      DangerExact(format, s, events[0]);
      if HeldUnlink(s, events[0]) {
        assert !NeverEndangered(format, Step(format, s, events[0]).value, events[1..]);
      } else {
        StepKeepsInv(format, s, events[0]);
        SafeFrom(format, Step(format, s, events[0]).value, events[1..]);
      }
    }
  }

  /** For every run: no break takes away a lock that is held if and only if mutual exclusion is at no point endangered. */
  lemma SafeBreaksExact(format: Format, events: seq<Event>)
    requires ReadsBack(format) && Run(format, INITIAL, events).Some?
    ensures SafeBreaks(format, INITIAL, events) <==> NeverEndangered(format, INITIAL, events)
  {
    hide Run, SafeBreaks, NeverEndangered;
    SafeFrom(format, INITIAL, events);
  }
}
