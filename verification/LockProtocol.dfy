module LockProtocol {
  /**
   The registry lock of connection-registry-io.ts as a step system.

   Any number of attempts (one per `transaction` call) run in any number of
   processes.  Every file-system call of `#acquireLock`, `inspectLock`,
   `unlinkIfSame` and the release closure is one step, steps of different
   attempts interleave freely, and a process may crash between any two of them.
   An event carries every choice that the file system, the clock and the scheduler
   make, so that a run is a sequence of events and `Step` is a function.

   Standing assumptions of the step system: an inode number is never handed out
   twice, `link` and `unlink` are atomic, the token in a claim name is unique, and
   `processIsAlive` never reports a live process as dead.  How the metadata in a
   lock file is written and read is a parameter, `format`; what the results ask
   of it, `ReadsBack`, is proved of the actual format in `LockFile`.
   */

  import opened Options
  import opened LockFile

  type Attempt = nat
  type Inode = nat

  datatype File = File(owner: Attempt, content: Content)

  /** Where an attempt stands; `claim` is the inode of its private claim file. */
  datatype Pc =
    | Opening
    | Writing(claim: Inode)
    | Trying(claim: Inode)
    | InspectStat(claim: Inode)
    | InspectOpen(claim: Inode, seen: Inode)
    | InspectFstat(claim: Inode, seen: Inode, handle: Inode)
    | InspectRead(claim: Inode, handle: Inode)
    | Judging(claim: Inode, handle: Inode, metadata: Option<Metadata>)
    | BreakStat(claim: Inode, stale: Inode)
    | BreakUnlink(claim: Inode, stale: Inode)
    | Linked(claim: Inode)
    | Syncing(claim: Inode)
    | UndoStat(claim: Inode)
    | UndoUnlink(claim: Inode)
    | Cleanup(claim: Inode, lockStuck: bool)
    | Inside(claim: Inode)
    | ReleaseStat(claim: Inode)
    | ReleaseUnlink(claim: Inode)
    | Refused
    | Failed(identified: bool, claimStuck: bool, lockStuck: bool)
    | Released(lockStuck: bool)

  datatype Process = Process(metadata: Metadata, alive: bool, pc: Pc)

  /** `claims` and `lock` are the directory; `files` the inodes behind it. */
  datatype State = State(
    attempts: map<Attempt, Process>,
    files: map<Inode, File>,
    claims: map<Attempt, Inode>,
    lock: Option<Inode>)

  const INITIAL := State(map[], map[], map[], None)

  datatype Action =
    | OpenClaim(inode: Inode)
    | WriteClaim(count: nat)
    | TakeIdentity
    | Link
    | StatLock
    | OpenLock
    | FstatLock
    | ReadLock(readable: bool)
    | JudgeStale
    | JudgeRetry
    | StatStale
    | UnlinkStale
    | UnlinkClaim
    | SyncDirectory
    | Undo
    | RemoveClaim
    | LeaveBody
    | StatOwn
    | UnlinkOwn
    | Fail

  datatype Event =
    | Spawn(attempt: Attempt, metadata: Metadata)
    | Crash(pid: int)
    | Do(attempt: Attempt, action: Action)

  function Goto(s: State, a: Attempt, pc: Pc): State
    requires a in s.attempts
  {
    s.(attempts := s.attempts[a := s.attempts[a].(pc := pc)])
  }

  /** `processIsAlive`: some attempt of that process has not crashed. */
  ghost predicate ProcessIsAlive(s: State, pid: int) {
    exists a :: a in s.attempts && s.attempts[a].alive && s.attempts[a].metadata.pid == pid
  }

  /** `opened.nlink === 0`: neither the lock path nor a claim path names the inode. */
  predicate Unnamed(s: State, i: Inode)
    requires i in s.files
  {
    && s.lock != Some(i)
    && (s.files[i].owner in s.claims ==> s.claims[s.files[i].owner] != i)
  }

  /** The steps that create the claim file and write the lock metadata into it. */
  function StepClaim(format: Format, s: State, a: Attempt, action: Action): Option<State>
    requires a in s.attempts
  {
    var p := s.attempts[a];
    match (p.pc, action)
    case (Opening, OpenClaim(i)) =>
      if i in s.files || a in s.claims then None
      else Some(Goto(s, a, Writing(i)).(files := s.files[i := File(a, [])], claims := s.claims[a := i]))
    case (Opening, Fail) => Some(Goto(s, a, Refused))
    case (Writing(i), WriteClaim(n)) =>
      if i !in s.files then None else
      var written := |s.files[i].content|;
      if n == 0 || |format.render(p.metadata)| < written + n then None
      else Some(s.(files := s.files[i := s.files[i].(content := format.render(p.metadata)[..written + n])]))
    case (Writing(i), TakeIdentity) =>
      if i !in s.files || |s.files[i].content| < |format.render(p.metadata)| then None
      else Some(Goto(s, a, Trying(i)))
    case (Writing(i), Fail) => Some(Goto(s, a, Failed(false, false, false)))
    case _ => None
  }

  /** The acquisition loop up to and including the hard link. */
  ghost function StepInspect(format: Format, s: State, a: Attempt, action: Action): Option<State>
    requires a in s.attempts
  {
    match (s.attempts[a].pc, action)
    case (Trying(i), Link) =>
      if s.lock == None then Some(Goto(s, a, Linked(i)).(lock := Some(i)))
      else Some(Goto(s, a, InspectStat(i)))
    case (InspectStat(i), StatLock) =>
      Some(Goto(s, a, if s.lock == None then Trying(i) else InspectOpen(i, s.lock.value)))
    case (InspectOpen(i, seen), OpenLock) =>
      Some(Goto(s, a, if s.lock == None then Trying(i) else InspectFstat(i, seen, s.lock.value)))
    case (InspectFstat(i, seen, h), FstatLock) =>
      if h !in s.files then None
      else Some(Goto(s, a, if Unnamed(s, h) || seen != h then Trying(i) else InspectRead(i, h)))
    case (InspectRead(i, h), ReadLock(readable)) =>
      if h !in s.files then None
      else Some(Goto(s, a, Judging(i, h, if readable then format.parse(s.files[h].content) else None)))
    case (Judging(i, h, m), JudgeStale) =>
      if m.Some? && !ProcessIsAlive(s, m.value.pid) then Some(Goto(s, a, BreakStat(i, h))) else None
    case (Judging(i, h, m), JudgeRetry) => Some(Goto(s, a, Trying(i)))
    case (BreakStat(i, stale), StatStale) =>
      Some(Goto(s, a,
        if s.lock == None then Trying(i)
        else if s.lock == Some(stale) then BreakUnlink(i, stale)
        else Cleanup(i, false)))
    case (BreakUnlink(i, stale), UnlinkStale) => Some(Goto(s, a, Trying(i)).(lock := None))
    case (_, Fail) =>
      if BeforeLink(s.attempts[a].pc) then Some(Goto(s, a, Cleanup(s.attempts[a].pc.claim, false))) else None
    case _ => None
  }

  /** From the successful link to the body, and the way back when that fails. */
  function StepSettle(s: State, a: Attempt, action: Action): Option<State>
    requires a in s.attempts
  {
    match (s.attempts[a].pc, action)
    case (Linked(i), UnlinkClaim) => Some(Goto(s, a, Syncing(i)).(claims := s.claims - {a}))
    case (Linked(i), Fail) => Some(Goto(s, a, UndoStat(i)))
    case (Syncing(i), SyncDirectory) => Some(Goto(s, a, Inside(i)))
    case (Syncing(i), Fail) => Some(Goto(s, a, UndoStat(i)))
    case (UndoStat(i), Undo) => Some(Goto(s, a, if s.lock == Some(i) then UndoUnlink(i) else Cleanup(i, false)))
    case (UndoStat(i), Fail) => Some(Goto(s, a, Cleanup(i, true)))
    case (UndoUnlink(i), Undo) => Some(Goto(s, a, Cleanup(i, false)).(lock := None))
    case (UndoUnlink(i), Fail) => Some(Goto(s, a, Cleanup(i, true)))
    case (Cleanup(i, stuck), RemoveClaim) =>
      Some(Goto(s, a, Failed(true, false, stuck)).(claims := s.claims - {a}))
    case (Cleanup(i, stuck), Fail) => Some(Goto(s, a, Failed(true, a in s.claims, stuck)))
    case _ => None
  }

  /** The release closure: a stat and, if it names the own inode, an unlink. */
  function StepRelease(s: State, a: Attempt, action: Action): Option<State>
    requires a in s.attempts
  {
    match (s.attempts[a].pc, action)
    case (Inside(i), LeaveBody) => Some(Goto(s, a, ReleaseStat(i)))
    case (ReleaseStat(i), StatOwn) =>
      Some(Goto(s, a, if s.lock == Some(i) then ReleaseUnlink(i) else Released(false)))
    case (ReleaseStat(i), Fail) => Some(Goto(s, a, Released(true)))
    case (ReleaseUnlink(i), UnlinkOwn) => Some(Goto(s, a, Released(false)).(lock := None))
    case (ReleaseUnlink(i), Fail) => Some(Goto(s, a, Released(true)))
    case _ => None
  }

  ghost function Act(format: Format, s: State, a: Attempt, action: Action): Option<State>
    requires a in s.attempts
  {
    var pc := s.attempts[a].pc;
    if pc.Opening? || pc.Writing? then StepClaim(format, s, a, action)
    else if BeforeLink(pc) then StepInspect(format, s, a, action)
    else if pc.Linked? || pc.Syncing? || pc.UndoStat? || pc.UndoUnlink? || pc.Cleanup? then StepSettle(s, a, action)
    else StepRelease(s, a, action)
  }

  /** The successor state, or None when the event cannot happen in this state. */
  ghost function Step(format: Format, s: State, e: Event): Option<State> {
    match e
    case Spawn(a, m) =>
      if a in s.attempts || !format.valid(m) then None
      else Some(s.(attempts := s.attempts[a := Process(m, true, Opening)]))
    case Crash(pid) =>
      Some(s.(attempts := map a | a in s.attempts ::
        if s.attempts[a].metadata.pid == pid then s.attempts[a].(alive := false) else s.attempts[a]))
    case Do(a, action) =>
      if a in s.attempts && s.attempts[a].alive then Act(format, s, a, action) else None
  }

  ghost function Run(format: Format, s: State, events: seq<Event>): Option<State>
    decreases |events|
  {
    if events == [] then Some(s) else
    var next :- Step(format, s, events[0]);
    Run(format, next, events[1..])
  }

  predicate UnlinksStale(s: State, e: Event) {
    && e.Do? && e.action.UnlinkStale?
    && e.attempt in s.attempts && s.attempts[e.attempt].pc.BreakUnlink?
  }

  /** The owner of the file is a live attempt that counts on the lock entry: it is on its way in, inside, or about to unlink it. */
  predicate Held(s: State, i: Inode) {
    i in s.files && s.files[i].owner in s.attempts
    && s.attempts[s.files[i].owner].alive && Holding(s.attempts[s.files[i].owner].pc)
  }

  /** The unlink of a stale break takes away a lock that is held. */
  predicate HeldUnlink(s: State, e: Event) { UnlinksStale(s, e) && s.lock.Some? && Held(s, s.lock.value) }

  /** Throughout the run, no break of a stale lock takes away a lock that is held. */
  ghost predicate SafeBreaks(format: Format, s: State, events: seq<Event>)
    decreases |events|
  {
    events == [] || (
      && !HeldUnlink(s, events[0])
      && (Step(format, s, events[0]).Some? ==> SafeBreaks(format, Step(format, s, events[0]).value, events[1..])))
  }

  /** The unlink of a stale break comes when the lock path no longer names what its stat saw. */
  predicate LateUnlink(s: State, e: Event) {
    UnlinksStale(s, e) && s.lock != None && s.lock != Some(s.attempts[e.attempt].pc.stale)
  }

  /** The stat and the unlink of `unlinkIfSame` act as one step throughout the run. */
  ghost predicate AtomicBreaks(format: Format, s: State, events: seq<Event>)
    decreases |events|
  {
    events == [] || (
      && !LateUnlink(s, events[0])
      && (Step(format, s, events[0]).Some? ==> AtomicBreaks(format, Step(format, s, events[0]).value, events[1..])))
  }

  /** In the acquisition loop, before the link has succeeded. */
  predicate BeforeLink(pc: Pc) {
    pc.Trying? || pc.InspectStat? || pc.InspectOpen? || pc.InspectFstat? || pc.InspectRead? ||
    pc.Judging? || pc.BreakStat? || pc.BreakUnlink?
  }

  /** Between a successful link and the removal of the lock entry; not where a stat will look again before anything is unlinked. */
  predicate Holding(pc: Pc) { pc.Linked? || pc.Syncing? || pc.UndoUnlink? || pc.Inside? || pc.ReleaseUnlink? }

  predicate HasClaimInode(pc: Pc) {
    !pc.Opening? && !pc.Refused? && !pc.Failed? && !pc.Released?
  }

  /** The inode holds the complete, well-formed metadata of the attempt that created it. */
  predicate Complete(format: Format, s: State, i: Inode) {
    && i in s.files && s.files[i].owner in s.attempts && format.valid(s.attempts[s.files[i].owner].metadata)
    && s.files[i].content == format.render(s.attempts[s.files[i].owner].metadata)
  }

  predicate OwnsLock(s: State, a: Attempt) {
    s.lock.Some? && s.lock.value in s.files && s.files[s.lock.value].owner == a
  }

  predicate DeadOwner(format: Format, s: State, i: Inode) {
    Complete(format, s, i) && !s.attempts[s.files[i].owner].alive
  }

  /** What holds of an attempt's own claim file and directory entries. */
  ghost predicate ClaimOk(format: Format, s: State, a: Attempt)
    requires a in s.attempts
  {
    var p := s.attempts[a];
    && format.valid(p.metadata)
    && (HasClaimInode(p.pc) ==>
        && p.pc.claim in s.files && s.files[p.pc.claim].owner == a
        && (a in s.claims ==> s.claims[a] == p.pc.claim)
        && (p.pc.Writing? ==> s.files[p.pc.claim].content <= format.render(p.metadata))
        && (!p.pc.Writing? ==> s.files[p.pc.claim].content == format.render(p.metadata)))
    && (p.pc.Writing? || BeforeLink(p.pc) || p.pc.Linked? ==> a in s.claims)
    && (p.pc.Opening? || p.pc.Refused? ==> a !in s.claims)
    && (p.pc.Syncing? || p.pc.Inside? || p.pc.ReleaseStat? || p.pc.ReleaseUnlink? || p.pc.Released? ==> a !in s.claims)
    && (p.pc.Failed? ==> (a in s.claims <==> !p.pc.identified || p.pc.claimStuck))
  }

  /** What holds of the lock entry as far as one attempt is concerned. */
  ghost predicate LockOk(s: State, a: Attempt)
    requires a in s.attempts
  {
    var p := s.attempts[a];
    && (p.alive && Holding(p.pc) ==> s.lock == Some(p.pc.claim))
    && (HasClaimInode(p.pc) && OwnsLock(s, a) ==> s.lock == Some(p.pc.claim))
    && (p.pc.Opening? || p.pc.Writing? || BeforeLink(p.pc) || p.pc.Refused? ==> !OwnsLock(s, a))
    && (p.pc.Cleanup? ==> OwnsLock(s, a) ==> p.pc.lockStuck)
    && (p.pc.Failed? ==> OwnsLock(s, a) ==> p.pc.lockStuck)
    && (p.pc.Released? ==> OwnsLock(s, a) ==> p.pc.lockStuck)
  }

  /** What an attempt that inspects somebody else's lock has learnt. */
  ghost predicate InspectOk(format: Format, s: State, a: Attempt)
    requires a in s.attempts
  {
    match s.attempts[a].pc
    case InspectFstat(_, _, h) => Complete(format, s, h)
    case InspectRead(_, h) => Complete(format, s, h)
    case Judging(_, h, m) => Complete(format, s, h) && (m.Some? ==> m.value == s.attempts[s.files[h].owner].metadata)
    case BreakStat(_, h) => DeadOwner(format, s, h)
    case BreakUnlink(_, h) => DeadOwner(format, s, h)
    case _ => true
  }

  /** The part of the invariant that concerns one attempt and the lock entry. */
  ghost predicate OwnFacts(format: Format, s: State, a: Attempt) {
    && a in s.attempts && ClaimOk(format, s, a) && LockOk(s, a) && InspectOk(format, s, a)
    && (s.lock.Some? ==> Complete(format, s, s.lock.value))
  }

  ghost predicate Inv(format: Format, s: State) {
    && (s.lock.Some? ==> Complete(format, s, s.lock.value))
    && (forall i :: i in s.files ==> s.files[i].owner in s.attempts)
    && (forall a :: a in s.claims ==> a in s.attempts)
    && (forall a :: a in s.attempts ==> ClaimOk(format, s, a) && LockOk(s, a) && InspectOk(format, s, a))
  }

  // ---- every step keeps the invariant

  lemma SpawnKeepsOne(format: Format, s: State, t: State, a: Attempt, m: Metadata, b: Attempt)
    requires Step(format, s, Spawn(a, m)) == Some(t) && OwnFacts(format, s, b)
    ensures OwnFacts(format, t, b)
  {
  }

  lemma SpawnKeepsInv(format: Format, s: State, a: Attempt, m: Metadata)
    requires Inv(format, s) && Step(format, s, Spawn(a, m)).Some?
    ensures Inv(format, Step(format, s, Spawn(a, m)).value)
  {
    var t := Step(format, s, Spawn(a, m)).value;
    forall b | b in t.attempts
      ensures ClaimOk(format, t, b) && LockOk(t, b) && InspectOk(format, t, b)
    {
      if b != a {
        SpawnKeepsOne(format, s, t, a, m, b);
      }
    }
  }

  lemma CrashKeepsOne(format: Format, s: State, t: State, pid: int, b: Attempt)
    requires Step(format, s, Crash(pid)) == Some(t) && OwnFacts(format, s, b)
    ensures OwnFacts(format, t, b)
  {
  }

  lemma CrashKeepsInv(format: Format, s: State, pid: int)
    requires Inv(format, s)
    ensures Inv(format, Step(format, s, Crash(pid)).value)
  {
    var t := Step(format, s, Crash(pid)).value;
    forall b | b in t.attempts
      ensures ClaimOk(format, t, b) && LockOk(t, b) && InspectOk(format, t, b)
    {
      CrashKeepsOne(format, s, t, pid, b);
    }
  }

  /**
   A step of attempt `a` that leaves every other attempt's files and directory
   entries alone; the lock entry may go only if `a` owned it or nobody holds it.
   */
  ghost predicate Local(format: Format, s: State, t: State, a: Attempt) {
    && a in s.attempts && t.attempts.Keys == s.attempts.Keys
    && t.attempts[a].metadata == s.attempts[a].metadata && t.attempts[a].alive == s.attempts[a].alive
    && (forall b :: b in s.attempts && b != a ==> t.attempts[b] == s.attempts[b])
    && (forall b :: b != a ==> (b in s.claims <==> b in t.claims) && (b in s.claims ==> t.claims[b] == s.claims[b]))
    && (forall i :: i in s.files ==>
        && i in t.files && t.files[i].owner == s.files[i].owner
        && (t.files[i] == s.files[i] || (s.files[i].owner == a && !Complete(format, s, i))))
    && (forall i :: i in t.files && i !in s.files ==> t.files[i].owner == a)
    && (t.lock == s.lock
        || (t.lock == None && (OwnsLock(s, a) || !Held(s, s.lock.value)))
        || (s.lock == None && OwnsLock(t, a)))
  }

  lemma CompleteStays(format: Format, s: State, t: State, a: Attempt, i: Inode)
    requires Local(format, s, t, a) && Complete(format, s, i)
    ensures Complete(format, t, i) && t.files[i] == s.files[i]
    ensures DeadOwner(format, s, i) ==> DeadOwner(format, t, i)
    ensures i in s.files && s.files[i].owner in s.attempts && s.files[i].owner in t.attempts
    ensures t.attempts[s.files[i].owner].metadata == s.attempts[s.files[i].owner].metadata
  {
  }

  lemma LocalKeepsClaim(format: Format, s: State, t: State, a: Attempt, b: Attempt)
    requires Local(format, s, t, a) && b in s.attempts && b != a && ClaimOk(format, s, b)
    ensures ClaimOk(format, t, b)
  {
    hide BeforeLink;
  }

  lemma LocalKeepsLock(format: Format, s: State, t: State, a: Attempt, b: Attempt)
    requires Local(format, s, t, a) && b in s.attempts && b != a && OwnFacts(format, s, b)
    ensures LockOk(t, b)
  {
    hide BeforeLink, InspectOk;
    assert OwnsLock(t, b) <==> OwnsLock(s, b) && t.lock == s.lock;
  }

  lemma LocalKeepsInspection(format: Format, s: State, t: State, a: Attempt, b: Attempt)
    requires Local(format, s, t, a) && b in s.attempts && b != a && InspectOk(format, s, b)
    ensures InspectOk(format, t, b)
  {
    match s.attempts[b].pc
    case InspectFstat(_, _, h) => CompleteStays(format, s, t, a, h);
    case InspectRead(_, h) => CompleteStays(format, s, t, a, h);
    case Judging(_, h, _) => CompleteStays(format, s, t, a, h);
    case BreakStat(_, h) => CompleteStays(format, s, t, a, h);
    case BreakUnlink(_, h) => CompleteStays(format, s, t, a, h);
    case _ =>
  }

  lemma LocalKeepsInv(format: Format, s: State, t: State, a: Attempt)
    requires Inv(format, s) && Local(format, s, t, a)
    requires OwnFacts(format, t, a)
    ensures Inv(format, t)
  {
    forall b | b in t.attempts
      ensures ClaimOk(format, t, b) && LockOk(t, b) && InspectOk(format, t, b)
    {
      if b != a {
        assert OwnFacts(format, s, b);
        LocalKeepsClaim(format, s, t, a, b);
        LocalKeepsLock(format, s, t, a, b);
        LocalKeepsInspection(format, s, t, a, b);
      }
    }
    if s.lock.Some? {
      CompleteStays(format, s, t, a, s.lock.value);
    }
  }

  lemma OpenStep(format: Format, s: State, t: State, a: Attempt, i: Inode)
    requires OwnFacts(format, s, a) && s.attempts[a].pc.Opening? && StepClaim(format, s, a, OpenClaim(i)) == Some(t)
    ensures Local(format, s, t, a) && OwnFacts(format, t, a)
  {
  }

  lemma WriteStep(format: Format, s: State, t: State, a: Attempt, n: nat)
    requires OwnFacts(format, s, a) && s.attempts[a].pc.Writing? && StepClaim(format, s, a, WriteClaim(n)) == Some(t)
    ensures Local(format, s, t, a) && OwnFacts(format, t, a)
  {
  }

  lemma LeaveClaimStep(format: Format, s: State, t: State, a: Attempt, action: Action)
    requires OwnFacts(format, s, a) && (s.attempts[a].pc.Opening? || s.attempts[a].pc.Writing?)
    requires StepClaim(format, s, a, action) == Some(t) && (action.TakeIdentity? || action.Fail?)
    ensures Local(format, s, t, a) && OwnFacts(format, t, a)
  {
    hide Local, Complete;
    MoveIsLocal(format, s, a, t.attempts[a].pc);
  }

  lemma ClaimStep(format: Format, s: State, t: State, a: Attempt, action: Action)
    requires OwnFacts(format, s, a) && (s.attempts[a].pc.Opening? || s.attempts[a].pc.Writing?)
    requires StepClaim(format, s, a, action) == Some(t)
    ensures Local(format, s, t, a) && OwnFacts(format, t, a)
  {
    hide Local, ClaimOk, LockOk, InspectOk, Complete;
    match action
    case OpenClaim(i) => OpenStep(format, s, t, a, i);
    case WriteClaim(n) => WriteStep(format, s, t, a, n);
    case _ => LeaveClaimStep(format, s, t, a, action);
  }

  /** Moving an attempt changes no file and no directory entry. */
  lemma MoveIsLocal(format: Format, s: State, a: Attempt, pc: Pc)
    requires OwnFacts(format, s, a)
    ensures Local(format, s, Goto(s, a, pc), a)
    ensures forall i :: Complete(format, s, i) ==> Complete(format, Goto(s, a, pc), i)
  {
    hide ClaimOk, LockOk, InspectOk;
  }

  /** A move within the acquisition loop, or out of it into the clean-up, changes nothing but the attempt. */
  lemma MoveStep(format: Format, s: State, a: Attempt, pc: Pc)
    requires OwnFacts(format, s, a) && BeforeLink(s.attempts[a].pc)
    requires BeforeLink(pc) || pc == Cleanup(s.attempts[a].pc.claim, false)
    requires pc.claim == s.attempts[a].pc.claim
    ensures Local(format, s, Goto(s, a, pc), a)
    ensures ClaimOk(format, Goto(s, a, pc), a) && LockOk(Goto(s, a, pc), a)
    ensures forall i :: Complete(format, s, i) ==> Complete(format, Goto(s, a, pc), i)
  {
    hide Local, InspectOk, Complete;
    MoveIsLocal(format, s, a, pc);
  }

  lemma LinkStep(format: Format, s: State, t: State, a: Attempt)
    requires OwnFacts(format, s, a) && s.attempts[a].pc.Trying? && s.lock == None
    requires StepInspect(format, s, a, Link) == Some(t)
    ensures Local(format, s, t, a) && OwnFacts(format, t, a)
  {
  }

  lemma DeadUnlinkStep(format: Format, s: State, t: State, a: Attempt)
    requires OwnFacts(format, s, a) && s.attempts[a].pc.BreakUnlink? && (s.lock == None || !Held(s, s.lock.value))
    requires StepInspect(format, s, a, UnlinkStale) == Some(t)
    ensures Local(format, s, t, a) && OwnFacts(format, t, a)
  {
  }

  lemma InspectStep(format: Format, s: State, t: State, a: Attempt, action: Action)
    requires ReadsBack(format)
    requires a in s.attempts && s.attempts[a].alive && OwnFacts(format, s, a) && StepInspect(format, s, a, action) == Some(t)
    requires BeforeLink(s.attempts[a].pc) && !HeldUnlink(s, Do(a, action))
    ensures Local(format, s, t, a) && OwnFacts(format, t, a)
  {
    var pc := s.attempts[a].pc;
    if action.Link? && s.lock == None {
      LinkStep(format, s, t, a);
    } else if action.UnlinkStale? {
      DeadUnlinkStep(format, s, t, a);
    } else {
      assert t == Goto(s, a, t.attempts[a].pc);
      if pc.InspectRead? {
        assert format.parse(format.render(s.attempts[s.files[pc.handle].owner].metadata)).Some?;
      }
      MoveStep(format, s, a, t.attempts[a].pc);
    }
  }

  /** Past the link, a step moves the attempt and may drop its own claim entry or its own lock entry. */
  lemma DropStep(format: Format, s: State, t: State, a: Attempt, pc: Pc)
    requires OwnFacts(format, s, a) && t.attempts == Goto(s, a, pc).attempts && t.files == s.files
    requires t.claims == s.claims || t.claims == s.claims - {a}
    requires t.lock == s.lock || (t.lock == None && OwnsLock(s, a))
    ensures Local(format, s, t, a)
    ensures t.lock.Some? ==> Complete(format, t, t.lock.value)
    ensures OwnsLock(t, a) <==> t.lock == s.lock && OwnsLock(s, a)
  {
  }

  /** What `DropStep` says of the lock entry, for the attempt's own facts. */
  ghost predicate Dropped(format: Format, s: State, t: State, a: Attempt) {
    && (t.lock.Some? ==> Complete(format, t, t.lock.value)) && t.files == s.files
    && (OwnsLock(t, a) <==> t.lock == s.lock && OwnsLock(s, a))
  }

  lemma SettleClaim(format: Format, s: State, t: State, a: Attempt, action: Action)
    requires OwnFacts(format, s, a) && StepSettle(s, a, action) == Some(t)
    requires s.attempts[a].pc.Cleanup? || s.attempts[a].pc.UndoStat? || Holding(s.attempts[a].pc)
    ensures ClaimOk(format, t, a)
  {
    hide Complete, OwnsLock, LockOk, InspectOk;
  }

  lemma SettleLock(format: Format, s: State, t: State, a: Attempt, action: Action)
    requires OwnFacts(format, s, a) && StepSettle(s, a, action) == Some(t) && Dropped(format, s, t, a)
    requires s.attempts[a].pc.Cleanup? || s.attempts[a].pc.UndoStat? || (s.attempts[a].alive && Holding(s.attempts[a].pc) && OwnsLock(s, a))
    ensures LockOk(t, a) && InspectOk(format, t, a)
  {
    hide Complete, OwnsLock, ClaimOk;
  }

  lemma SettleOwn(format: Format, s: State, t: State, a: Attempt, action: Action)
    requires OwnFacts(format, s, a) && StepSettle(s, a, action) == Some(t) && Dropped(format, s, t, a)
    requires s.attempts[a].pc.Cleanup? || s.attempts[a].pc.UndoStat? || (s.attempts[a].alive && Holding(s.attempts[a].pc) && OwnsLock(s, a))
    ensures OwnFacts(format, t, a)
  {
    hide Complete, OwnsLock, LockOk, ClaimOk, InspectOk;
    SettleClaim(format, s, t, a, action);
    SettleLock(format, s, t, a, action);
  }

  lemma ReleaseOwn(format: Format, s: State, t: State, a: Attempt, action: Action)
    requires OwnFacts(format, s, a) && StepRelease(s, a, action) == Some(t) && Dropped(format, s, t, a)
    requires s.attempts[a].alive && (Holding(s.attempts[a].pc) ==> OwnsLock(s, a))
    ensures OwnFacts(format, t, a)
  {
    hide Complete, OwnsLock;
  }

  lemma HoldingOwns(format: Format, s: State, a: Attempt)
    requires OwnFacts(format, s, a) && s.attempts[a].alive && Holding(s.attempts[a].pc)
    ensures OwnsLock(s, a) && s.lock == Some(s.attempts[a].pc.claim)
  {
  }

  lemma CleanupStep(format: Format, s: State, t: State, a: Attempt, action: Action)
    requires OwnFacts(format, s, a) && (s.attempts[a].pc.Cleanup? || s.attempts[a].pc.UndoStat?) && StepSettle(s, a, action) == Some(t)
    ensures Local(format, s, t, a) && OwnFacts(format, t, a)
  {
    hide Local, ClaimOk, LockOk, InspectOk, Complete, OwnsLock;
    DropStep(format, s, t, a, t.attempts[a].pc);
    SettleOwn(format, s, t, a, action);
  }

  lemma SettleStep(format: Format, s: State, t: State, a: Attempt, action: Action)
    requires a in s.attempts && s.attempts[a].alive && OwnFacts(format, s, a) && StepSettle(s, a, action) == Some(t)
    requires Holding(s.attempts[a].pc)
    ensures Local(format, s, t, a) && OwnFacts(format, t, a)
  {
    hide Local, ClaimOk, LockOk, InspectOk, Complete, OwnsLock;
    HoldingOwns(format, s, a);
    DropStep(format, s, t, a, t.attempts[a].pc);
    SettleOwn(format, s, t, a, action);
  }

  lemma ReleaseStep(format: Format, s: State, t: State, a: Attempt, action: Action)
    requires a in s.attempts && s.attempts[a].alive && OwnFacts(format, s, a) && StepRelease(s, a, action) == Some(t)
    ensures Local(format, s, t, a) && OwnFacts(format, t, a)
  {
    hide Local, ClaimOk, LockOk, InspectOk, Complete, OwnsLock;
    if Holding(s.attempts[a].pc) {
      HoldingOwns(format, s, a);
    }
    DropStep(format, s, t, a, t.attempts[a].pc);
    ReleaseOwn(format, s, t, a, action);
  }

  /** A step of one attempt is local to it, and keeps the facts about it. */
  lemma StepIsLocal(format: Format, s: State, t: State, a: Attempt, action: Action)
    requires ReadsBack(format) && Inv(format, s) && Step(format, s, Do(a, action)) == Some(t) && !HeldUnlink(s, Do(a, action))
    ensures Local(format, s, t, a) && OwnFacts(format, t, a)
  {
    hide Local, ClaimOk, LockOk, InspectOk, HeldUnlink, StepClaim, StepInspect, StepSettle, StepRelease;
    var pc := s.attempts[a].pc;
    assert OwnFacts(format, s, a);
    if pc.Opening? || pc.Writing? {
      ClaimStep(format, s, t, a, action);
    } else if BeforeLink(pc) {
      InspectStep(format, s, t, a, action);
    } else if pc.Cleanup? || pc.UndoStat? {
      CleanupStep(format, s, t, a, action);
    } else if pc.Linked? || pc.Syncing? || pc.UndoUnlink? {
      SettleStep(format, s, t, a, action);
    } else {
      ReleaseStep(format, s, t, a, action);
    }
  }

  lemma StepKeepsInv(format: Format, s: State, e: Event)
    requires ReadsBack(format)
    requires Inv(format, s) && Step(format, s, e).Some? && !HeldUnlink(s, e)
    ensures Inv(format, Step(format, s, e).value)
  {
    hide Local, ClaimOk, LockOk, InspectOk, HeldUnlink, Step;
    match e
    case Spawn(a, m) => SpawnKeepsInv(format, s, a, m);
    case Crash(pid) => CrashKeepsInv(format, s, pid);
    case Do(a, action) =>
      var t := Step(format, s, e).value;
      StepIsLocal(format, s, t, a, action);
      LocalKeepsInv(format, s, t, a);
  }

  lemma {:induction false} RunKeepsInv(format: Format, s: State, events: seq<Event>)
    requires ReadsBack(format)
    requires Inv(format, s) && Run(format, s, events).Some? && SafeBreaks(format, s, events)
    ensures Inv(format, Run(format, s, events).value)
    decreases |events|
  {
    if events != [] {
      StepKeepsInv(format, s, events[0]);
      RunKeepsInv(format, Step(format, s, events[0]).value, events[1..]);
    }
  }

  // ---- what every run guarantees

  lemma RunOwnFacts(format: Format, events: seq<Event>, s: State, a: Attempt)
    requires ReadsBack(format)
    requires Run(format, INITIAL, events) == Some(s) && SafeBreaks(format, INITIAL, events) && a in s.attempts
    ensures OwnFacts(format, s, a)
  {
    RunKeepsInv(format, INITIAL, events);
  }

  /** At most one live attempt is inside a transaction, in every interleaving. */
  lemma MutualExclusion(format: Format, events: seq<Event>, s: State, a: Attempt, b: Attempt)
    requires ReadsBack(format)
    requires Run(format, INITIAL, events) == Some(s) && SafeBreaks(format, INITIAL, events)
    requires a in s.attempts && s.attempts[a].alive && s.attempts[a].pc.Inside?
    requires b in s.attempts && s.attempts[b].alive && s.attempts[b].pc.Inside?
    ensures a == b
  {
    RunOwnFacts(format, events, s, a);
    RunOwnFacts(format, events, s, b);
  }

  /** Whatever the lock path names is a complete claim, and reading it names the attempt that linked it. */
  lemma LockPathIsComplete(format: Format, events: seq<Event>, s: State)
    requires ReadsBack(format)
    requires Run(format, INITIAL, events) == Some(s) && SafeBreaks(format, INITIAL, events)
    requires s.lock.Some?
    ensures Complete(format, s, s.lock.value)
    ensures var owner := s.files[s.lock.value].owner;
      && format.parse(s.files[s.lock.value].content) == Some(s.attempts[owner].metadata)
      && !s.attempts[owner].pc.Opening? && !s.attempts[owner].pc.Writing? && !BeforeLink(s.attempts[owner].pc)
  {
    RunKeepsInv(format, INITIAL, events);
    var owner := s.files[s.lock.value].owner;
    assert OwnFacts(format, s, owner);
    assert format.parse(format.render(s.attempts[owner].metadata)) == Some(s.attempts[owner].metadata);
  }

  /** With an atomic `unlinkIfSame`, a stale break never takes away a lock that is held. */
  lemma LateOrDead(format: Format, s: State, e: Event)
    requires Inv(format, s) && !LateUnlink(s, e)
    ensures !HeldUnlink(s, e)
  {
    hide ClaimOk, LockOk;
    if UnlinksStale(s, e) {
      assert InspectOk(format, s, e.attempt);
    }
  }

  lemma {:induction false} AtomicIsSafe(format: Format, s: State, events: seq<Event>)
    requires ReadsBack(format)
    requires Inv(format, s) && Run(format, s, events).Some? && AtomicBreaks(format, s, events)
    ensures SafeBreaks(format, s, events)
    decreases |events|
  {
    hide Inv, Step, LateUnlink, HeldUnlink;
    if events != [] {
      LateOrDead(format, s, events[0]);
      StepKeepsInv(format, s, events[0]);
      AtomicIsSafe(format, Step(format, s, events[0]).value, events[1..]);
    }
  }

  /** The assumption that `unlinkIfSame` is atomic is enough for every result below. */
  lemma AtomicBreaksAreSafe(format: Format, events: seq<Event>)
    requires ReadsBack(format) && Run(format, INITIAL, events).Some? && AtomicBreaks(format, INITIAL, events)
    ensures SafeBreaks(format, INITIAL, events)
  {
    hide Run, SafeBreaks, AtomicBreaks;
    AtomicIsSafe(format, INITIAL, events);
  }

  /** With an atomic `unlinkIfSame`, a stale break only ever removes the lock of an attempt whose process has crashed. */
  lemma BreakRemovesDeadLock(format: Format, events: seq<Event>, s: State, e: Event)
    requires ReadsBack(format)
    requires Run(format, INITIAL, events) == Some(s) && AtomicBreaks(format, INITIAL, events + [e])
    requires e.Do? && e.action.UnlinkStale? && Step(format, s, e).Some? && s.lock.Some?
    ensures DeadOwner(format, s, s.lock.value)
    ensures Step(format, s, e).value.lock == None
  {
    AtomicBreaksSplit(format, INITIAL, events, [e]);
    AtomicBreaksAreSafe(format, events);
    RunOwnFacts(format, events, s, e.attempt);
    assert !LateUnlink(s, e);
  }

  lemma {:induction false} AtomicBreaksSplit(format: Format, s: State, before: seq<Event>, after: seq<Event>)
    requires Run(format, s, before).Some? && AtomicBreaks(format, s, before + after)
    ensures AtomicBreaks(format, s, before) && AtomicBreaks(format, Run(format, s, before).value, after)
    decreases |before|
  {
    if before == [] {
      assert before + after == after;
    } else {
      assert (before + after)[1..] == before[1..] + after;
      AtomicBreaksSplit(format, Step(format, s, before[0]).value, before[1..], after);
    }
  }

  /** A live attempt that left its lock behind, or has yet to look at it, still has it. */
  predicate StuckOk(s: State, b: Attempt) {
    b in s.attempts && s.attempts[b].alive ==>
      var pc := s.attempts[b].pc;
      && (pc.UndoStat? || pc.ReleaseStat? ==> s.lock == Some(pc.claim))
      && ((pc.Cleanup? || pc.Failed? || pc.Released?) && pc.lockStuck ==> OwnsLock(s, b))
  }

  lemma ClaimKeepsLock(format: Format, s: State, t: State, a: Attempt, action: Action)
    requires a in s.attempts && StepClaim(format, s, a, action) == Some(t)
    ensures t.lock == s.lock
  {
  }

  lemma InspectTakesNoLock(format: Format, s: State, t: State, a: Attempt, action: Action)
    requires a in s.attempts && StepInspect(format, s, a, action) == Some(t)
    ensures t.lock == s.lock || s.lock == None || UnlinksStale(s, Do(a, action))
  {
    hide BeforeLink;
  }

  lemma OthersTakeOwnLock(s: State, t: State, a: Attempt, action: Action)
    requires a in s.attempts && (StepSettle(s, a, action) == Some(t) || StepRelease(s, a, action) == Some(t))
    ensures t.lock == s.lock || s.attempts[a].pc.UndoUnlink? || s.attempts[a].pc.ReleaseUnlink?
  {
  }

  /** Who can take the lock entry away, when the stat and the unlink of a break are one step. */
  lemma LockChanges(format: Format, s: State, t: State, a: Attempt, action: Action)
    requires Inv(format, s) && Step(format, s, Do(a, action)) == Some(t) && !LateUnlink(s, Do(a, action))
    ensures t.lock == s.lock || s.lock == None || OwnsLock(s, a) || DeadOwner(format, s, s.lock.value)
  {
    hide ClaimOk, LockOk, InspectOk, OwnsLock, DeadOwner, StepClaim, StepInspect, StepSettle, StepRelease, BeforeLink;
    assert OwnFacts(format, s, a);
    var pc := s.attempts[a].pc;
    if UnlinksStale(s, Do(a, action)) {
      BreakFacts(format, s, a);
    } else if StepClaim(format, s, a, action) == Some(t) {
      ClaimKeepsLock(format, s, t, a, action);
    } else if StepInspect(format, s, a, action) == Some(t) {
      InspectTakesNoLock(format, s, t, a, action);
    } else {
      OthersTakeOwnLock(s, t, a, action);
      if pc.UndoUnlink? || pc.ReleaseUnlink? {
        HoldingOwns(format, s, a);
      }
    }
  }

  lemma BreakFacts(format: Format, s: State, a: Attempt)
    requires a in s.attempts && InspectOk(format, s, a) && s.attempts[a].pc.BreakUnlink?
    ensures DeadOwner(format, s, s.attempts[a].pc.stale)
  {
  }

  /** The lock entry of a live attempt stays when another attempt makes a step. */
  lemma OwnedStays(format: Format, s: State, t: State, a: Attempt, action: Action, b: Attempt)
    requires Inv(format, s) && Step(format, s, Do(a, action)) == Some(t) && !LateUnlink(s, Do(a, action)) && Local(format, s, t, a)
    requires b in s.attempts && b != a && s.attempts[b].alive && OwnsLock(s, b)
    ensures t.lock == s.lock && OwnsLock(t, b)
  {
    hide ClaimOk, LockOk, InspectOk, Inv, Step, LateUnlink;
    LockChanges(format, s, t, a, action);
  }

  lemma OtherStuck(format: Format, s: State, t: State, a: Attempt, action: Action, b: Attempt)
    requires Inv(format, s) && Step(format, s, Do(a, action)) == Some(t) && !LateUnlink(s, Do(a, action)) && Local(format, s, t, a)
    requires b in s.attempts && b != a && StuckOk(s, b)
    ensures StuckOk(t, b)
  {
    hide LockOk, InspectOk, Step, LateUnlink, BeforeLink, Complete;
    assert ClaimOk(format, s, b);
    if s.attempts[b].alive && OwnsLock(s, b) {
      OwnedStays(format, s, t, a, action, b);
    }
  }

  lemma OwnStuck(format: Format, s: State, t: State, a: Attempt, action: Action)
    requires OwnFacts(format, s, a) && Step(format, s, Do(a, action)) == Some(t) && StuckOk(s, a)
    ensures StuckOk(t, a)
  {
    hide InspectOk, StepClaim, StepInspect, StepSettle, StepRelease;
    var pc := s.attempts[a].pc;
    if pc.Opening? || pc.Writing? {
      ClaimNotStuck(format, s, t, a, action);
    } else if BeforeLink(pc) {
      InspectNotStuck(format, s, t, a, action);
    } else if pc.Linked? || pc.Syncing? || pc.UndoStat? || pc.UndoUnlink? || pc.Cleanup? {
      SettleStuck(format, s, t, a, action);
    } else {
      ReleaseStuck(format, s, t, a, action);
    }
  }

  lemma ClaimNotStuck(format: Format, s: State, t: State, a: Attempt, action: Action)
    requires a in s.attempts && StepClaim(format, s, a, action) == Some(t)
    ensures StuckOk(t, a)
  {
  }

  lemma InspectNotStuck(format: Format, s: State, t: State, a: Attempt, action: Action)
    requires a in s.attempts && BeforeLink(s.attempts[a].pc) && StepInspect(format, s, a, action) == Some(t)
    ensures StuckOk(t, a)
  {
  }

  lemma SettleStuck(format: Format, s: State, t: State, a: Attempt, action: Action)
    requires OwnFacts(format, s, a) && s.attempts[a].alive && StuckOk(s, a) && StepSettle(s, a, action) == Some(t)
    ensures StuckOk(t, a)
  {
    hide InspectOk, BeforeLink, Complete;
  }

  lemma ReleaseStuck(format: Format, s: State, t: State, a: Attempt, action: Action)
    requires OwnFacts(format, s, a) && s.attempts[a].alive && StuckOk(s, a) && StepRelease(s, a, action) == Some(t)
    ensures StuckOk(t, a)
  {
    hide InspectOk, BeforeLink, Complete;
  }

  lemma OthersStuck(format: Format, s: State, t: State, e: Event)
    requires Step(format, s, e) == Some(t) && !e.Do? && forall b :: b in s.attempts ==> StuckOk(s, b)
    ensures forall b :: b in t.attempts ==> StuckOk(t, b)
  {
    hide Act;
    forall b | b in t.attempts ensures StuckOk(t, b) {
      assert b in s.attempts ==> StuckOk(s, b);
    }
  }

  lemma StepStuck(format: Format, s: State, e: Event)
    requires ReadsBack(format) && Inv(format, s) && Step(format, s, e).Some? && !LateUnlink(s, e)
    requires forall b :: b in s.attempts ==> StuckOk(s, b)
    ensures forall b :: b in Step(format, s, e).value.attempts ==> StuckOk(Step(format, s, e).value, b)
  {
    hide ClaimOk, LockOk, InspectOk, StuckOk, LateUnlink, HeldUnlink, Local, Act;
    var t := Step(format, s, e).value;
    if e.Do? {
      LateOrDead(format, s, e);
      StepIsLocal(format, s, t, e.attempt, e.action);
      assert OwnFacts(format, s, e.attempt);
      OwnStuck(format, s, t, e.attempt, e.action);
      SameAttempts(format, s, t, e.attempt);
      forall b | b in t.attempts ensures StuckOk(t, b) {
        if b != e.attempt {
          OtherStuck(format, s, t, e.attempt, e.action, b);
        }
      }
    } else {
      OthersStuck(format, s, t, e);
    }
  }

  lemma SameAttempts(format: Format, s: State, t: State, a: Attempt)
    requires Local(format, s, t, a)
    ensures t.attempts.Keys == s.attempts.Keys
  {
  }

  lemma {:induction false} RunStuck(format: Format, s: State, events: seq<Event>)
    requires ReadsBack(format) && Inv(format, s) && Run(format, s, events).Some? && AtomicBreaks(format, s, events)
    requires forall b :: b in s.attempts ==> StuckOk(s, b)
    ensures forall b :: b in Run(format, s, events).value.attempts ==> StuckOk(Run(format, s, events).value, b)
    decreases |events|
  {
    hide Inv, Step, StuckOk, LateUnlink;
    if events != [] {
      StepStuck(format, s, events[0]);
      LateOrDead(format, s, events[0]);
      StepKeepsInv(format, s, events[0]);
      RunStuck(format, Step(format, s, events[0]).value, events[1..]);
    }
  }

  /**
   What a failed acquisition leaves behind, exactly.  The claim file stays if and
   only if the failure came before the claim's identity was taken or the unlink
   of the claim failed.  The lock entry stays only if undoing the link failed,
   and then it does stay for as long as the process lives.
   */
  lemma FailedAcquireLeftovers(format: Format, events: seq<Event>, s: State, a: Attempt)
    requires ReadsBack(format)
    requires Run(format, INITIAL, events) == Some(s) && AtomicBreaks(format, INITIAL, events)
    requires a in s.attempts && s.attempts[a].pc.Failed?
    ensures a in s.claims <==> !s.attempts[a].pc.identified || s.attempts[a].pc.claimStuck
    ensures OwnsLock(s, a) ==> s.attempts[a].pc.lockStuck
    ensures s.attempts[a].alive && s.attempts[a].pc.lockStuck ==> OwnsLock(s, a)
  {
    hide Run, AtomicBreaks, SafeBreaks, ClaimOk, LockOk, InspectOk, OwnsLock;
    AtomicBreaksAreSafe(format, events);
    RunOwnFacts(format, events, s, a);
    RunStuck(format, INITIAL, events);
    assert StuckOk(s, a);
    FailedFacts(format, s, a);
  }

  lemma FailedFacts(format: Format, s: State, a: Attempt)
    requires OwnFacts(format, s, a) && s.attempts[a].pc.Failed?
    ensures a in s.claims <==> !s.attempts[a].pc.identified || s.attempts[a].pc.claimStuck
    ensures OwnsLock(s, a) ==> s.attempts[a].pc.lockStuck
  {
  }

  /**
   The owner's release needs no assumption of its own: at its unlink the lock
   path still names the inode that its earlier stat saw.
   */
  lemma ReleaseUnlinksOwnLock(format: Format, events: seq<Event>, s: State, a: Attempt)
    requires ReadsBack(format)
    requires Run(format, INITIAL, events) == Some(s) && SafeBreaks(format, INITIAL, events)
    requires Step(format, s, Do(a, UnlinkOwn)).Some?
    ensures s.lock == Some(s.attempts[a].pc.claim) && OwnsLock(s, a)
    ensures !OwnsLock(Step(format, s, Do(a, UnlinkOwn)).value, a) && a !in Step(format, s, Do(a, UnlinkOwn)).value.claims
  {
    RunOwnFacts(format, events, s, a);
  }

  // ---- why the stat and the unlink of a stale break must act as one step

  lemma {:induction false} RunThen(format: Format, s: State, first: seq<Event>, second: seq<Event>)
    requires Run(format, s, first).Some?
    ensures Run(format, s, first + second) == Run(format, Run(format, s, first).value, second)
    decreases |first|
  {
    if first == [] {
      assert first + second == second;
    } else {
      assert (first + second)[1..] == first[1..] + second;
      RunThen(format, Step(format, s, first[0]).value, first[1..], second);
    }
  }

  lemma RunOne(format: Format, s: State, e: Event)
    ensures Run(format, s, [e]) == Step(format, s, e)
  {
    if Step(format, s, e).Some? {
      assert Run(format, Step(format, s, e).value, []) == Step(format, s, e);
    }
  }

  /** From the loop head with no lock in place an attempt can go straight into its transaction. */
  lemma CanEnter(format: Format, s: State, a: Attempt) returns (events: seq<Event>, t: State)
    requires a in s.attempts && s.attempts[a].alive && s.attempts[a].pc.Trying? && s.lock == None
    ensures Run(format, s, events) == Some(t) && forall k :: 0 <= k < |events| ==> !BreaksLock(events[k])
    ensures t == Goto(s, a, Inside(s.attempts[a].pc.claim))
                 .(lock := Some(s.attempts[a].pc.claim), claims := s.claims - {a})
  {
    hide ClaimOk, LockOk, InspectOk, OwnsLock, Run;
    var s1 := Step(format, s, Do(a, Link)).value;
    var s2 := Step(format, s1, Do(a, UnlinkClaim)).value;
    t := Step(format, s2, Do(a, SyncDirectory)).value;
    events := [Do(a, Link)] + ([Do(a, UnlinkClaim)] + [Do(a, SyncDirectory)]);
    RunOne(format, s, Do(a, Link));
    RunOne(format, s1, Do(a, UnlinkClaim));
    RunOne(format, s2, Do(a, SyncDirectory));
    RunThen(format, s1, [Do(a, UnlinkClaim)], [Do(a, SyncDirectory)]);
    RunThen(format, s, [Do(a, Link)], [Do(a, UnlinkClaim)] + [Do(a, SyncDirectory)]);
  }

  lemma UnheldUnlinkKeepsInv(format: Format, s: State, a: Attempt)
    requires Inv(format, s) && Step(format, s, Do(a, UnlinkStale)).Some? && !HeldUnlink(s, Do(a, UnlinkStale))
    ensures Inv(format, Step(format, s, Do(a, UnlinkStale)).value)
  {
    hide ClaimOk, LockOk, InspectOk;
    var t := Step(format, s, Do(a, UnlinkStale)).value;
    assert OwnFacts(format, s, a);
    DeadUnlinkStep(format, s, t, a);
    LocalKeepsInv(format, s, t, a);
  }

  lemma HeldUnlinkBreaksInv(format: Format, s: State, a: Attempt)
    requires Inv(format, s) && Step(format, s, Do(a, UnlinkStale)).Some? && HeldUnlink(s, Do(a, UnlinkStale))
    ensures !Inv(format, Step(format, s, Do(a, UnlinkStale)).value)
  {
    hide ClaimOk, InspectOk;
    var t, b := Step(format, s, Do(a, UnlinkStale)).value, s.files[s.lock.value].owner;
    assert t.lock == None && a != b && t.attempts[b] == s.attempts[b];
    assert !LockOk(t, b);
  }

  /** Among all steps, exactly the unlinks of a lock that is held break the invariant. */
  lemma StepExact(format: Format, s: State, e: Event)
    requires ReadsBack(format) && Inv(format, s) && Step(format, s, e).Some?
    ensures Inv(format, Step(format, s, e).value) <==> !HeldUnlink(s, e)
  {
    hide ClaimOk, LockOk, InspectOk;
    if HeldUnlink(s, e) {
      HeldUnlinkBreaksInv(format, s, e.attempt);
    } else {
      StepKeepsInv(format, s, e);
    }
  }

  /** A new attempt writes its claim in one piece and reaches the loop head. */
  lemma CanClaim(format: Format, s: State, a: Attempt, m: Metadata, i: Inode) returns (events: seq<Event>, t: State)
    requires ReadsBack(format)
    requires a !in s.attempts && a !in s.claims && i !in s.files && format.valid(m)
    ensures Run(format, s, events) == Some(t) && forall k :: 0 <= k < |events| ==> !BreaksLock(events[k])
    ensures t == State(s.attempts[a := Process(m, true, Trying(i))], s.files[i := File(a, format.render(m))],
                       s.claims[a := i], s.lock)
  {
    hide ClaimOk, LockOk, InspectOk, OwnsLock;
    assert format.parse(format.render(m)) == Some(m);
    var e1, e2, e3, e4 := Spawn(a, m), Do(a, OpenClaim(i)), Do(a, WriteClaim(|format.render(m)|)), Do(a, TakeIdentity);
    var s1 := Step(format, s, e1).value;
    var s2 := Step(format, s1, e2).value;
    assert format.render(m)[..|format.render(m)|] == format.render(m);
    var s3 := Step(format, s2, e3).value;
    t := Step(format, s3, e4).value;
    events := [e1] + ([e2] + ([e3] + [e4]));
    RunOne(format, s, e1); RunOne(format, s1, e2); RunOne(format, s2, e3); RunOne(format, s3, e4);
    RunThen(format, s2, [e3], [e4]);
    RunThen(format, s1, [e2], [e3] + [e4]);
    RunThen(format, s, [e1], [e2] + ([e3] + [e4]));
  }

  /**
   A failure while the claim is being written, before its identity is taken: the claim file
   stays behind, although no unlink of it has failed.
   */
  lemma LeakedClaimWitness(format: Format, m: Metadata) returns (events: seq<Event>, s: State)
    requires format.valid(m)
    ensures Run(format, INITIAL, events) == Some(s) && SafeBreaks(format, INITIAL, events)
    ensures 0 in s.attempts && s.attempts[0].alive && s.attempts[0].pc == Failed(false, false, false)
    ensures 0 in s.claims && s.lock == None
  {
    hide ClaimOk, LockOk, InspectOk, OwnsLock;
    var e1, e2, e3 := Spawn(0, m), Do(0, OpenClaim(0)), Do(0, Fail);
    var s1 := Step(format, INITIAL, e1).value;
    var s2 := Step(format, s1, e2).value;
    s := Step(format, s2, e3).value;
    events := [e1] + ([e2] + [e3]);
    RunOne(format, INITIAL, e1); RunOne(format, s1, e2); RunOne(format, s2, e3);
    RunThen(format, s1, [e2], [e3]);
    RunThen(format, INITIAL, [e1], [e2] + [e3]);
    NoBreaks(format, INITIAL, events);
  }

  /** An attempt whose link has just succeeded, with its claim still in place. */
  predicate JustLinked(s: State, a: Attempt) {
    a in s.attempts && s.attempts[a].alive && s.attempts[a].pc.Linked? && s.lock == Some(s.attempts[a].pc.claim)
  }

  lemma CanLink(format: Format, s: State, a: Attempt)
    requires a in s.attempts && s.attempts[a].alive && s.attempts[a].pc.Trying? && s.lock == None
    ensures var i := s.attempts[a].pc.claim; Step(format, s, Do(a, Link)) == Some(Goto(s, a, Linked(i)).(lock := Some(i)))
  {
  }

  lemma GotoTwice(s: State, a: Attempt, p: Pc, q: Pc)
    requires a in s.attempts
    ensures Goto(Goto(s, a, p), a, q) == Goto(s, a, q)
  {
    assert Goto(Goto(s, a, p), a, q).attempts == Goto(s, a, q).attempts;
  }

  lemma CanFail(format: Format, s: State, a: Attempt)
    requires a in s.attempts && s.attempts[a].alive && (s.attempts[a].pc.Linked? || s.attempts[a].pc.UndoStat?)
    ensures var pc := s.attempts[a].pc;
      Step(format, s, Do(a, Fail)) == Some(Goto(s, a, if pc.Linked? then UndoStat(pc.claim) else Cleanup(pc.claim, true)))
  {
    hide ClaimOk, LockOk, InspectOk, OwnsLock, Goto;
  }

  lemma CanRemove(format: Format, s: State, a: Attempt)
    requires a in s.attempts && s.attempts[a].alive && s.attempts[a].pc.Cleanup?
    ensures Step(format, s, Do(a, RemoveClaim)) == Some(Goto(s, a, Failed(true, false, s.attempts[a].pc.lockStuck)).(claims := s.claims - {a}))
  {
    hide ClaimOk, LockOk, InspectOk, OwnsLock, Goto;
  }

  /** After the link the next call fails, and so does undoing the link. */
  lemma CanGetStuck(format: Format, s: State, a: Attempt) returns (events: seq<Event>, t: State)
    requires JustLinked(s, a)
    ensures Run(format, s, events) == Some(t) && forall k :: 0 <= k < |events| ==> !BreaksLock(events[k])
    ensures t == Goto(s, a, Failed(true, false, true)).(claims := s.claims - {a})
  {
    hide ClaimOk, LockOk, InspectOk, OwnsLock, Run, Step;
    var i := s.attempts[a].pc.claim;
    t := Goto(s, a, Failed(true, false, true)).(claims := s.claims - {a});
    CanFail(format, s, a);
    CanFail(format, Goto(s, a, UndoStat(i)), a);
    GotoTwice(s, a, UndoStat(i), Cleanup(i, true));
    CanRemove(format, Goto(s, a, Cleanup(i, true)), a);
    GotoTwice(s, a, Cleanup(i, true), Failed(true, false, true));
    var fail, remove := [Do(a, Fail)], [Do(a, RemoveClaim)];
    RunOne(format, s, Do(a, Fail));
    RunSnoc(format, s, fail, Goto(s, a, UndoStat(i)), Do(a, Fail));
    RunSnoc(format, s, fail + fail, Goto(s, a, Cleanup(i, true)), Do(a, RemoveClaim));
    events := fail + fail + remove;
  }

  /** Undoing the link fails as well: the attempt has failed and removed its claim, and its lock stays, owned by a live process. */
  lemma StuckLockWitness(format: Format, m: Metadata) returns (events: seq<Event>, s: State)
    requires ReadsBack(format) && format.valid(m)
    ensures Run(format, INITIAL, events) == Some(s) && SafeBreaks(format, INITIAL, events)
    ensures 0 in s.attempts && s.attempts[0].alive && s.attempts[0].pc == Failed(true, false, true)
    ensures 0 !in s.claims && OwnsLock(s, 0)
  {
    hide ClaimOk, LockOk, InspectOk, Run, Step, SafeBreaks;
    var e1, s1 := CanClaim(format, INITIAL, 0, m, 0);
    var e2;
    var s2 := Goto(s1, 0, Linked(0)).(lock := Some(0));
    assert Step(format, s1, Do(0, Link)) == Some(s2) by { CanLink(format, s1, 0); }
    RunSnoc(format, INITIAL, e1, s1, Do(0, Link));
    e2, s := CanGetStuck(format, s2, 0);
    RunThen(format, INITIAL, e1 + [Do(0, Link)], e2);
    events := e1 + [Do(0, Link)] + e2;
    NoBreaks(format, INITIAL, events);
  }

  predicate BreaksLock(e: Event) { e.Do? && e.action.UnlinkStale? }

  lemma {:induction false} NoBreaks(format: Format, s: State, events: seq<Event>)
    requires forall k :: 0 <= k < |events| ==> !BreaksLock(events[k])
    ensures SafeBreaks(format, s, events)
    decreases |events|
  {
    hide Step;
    if events != [] {
      assert !BreaksLock(events[0]);
      if Step(format, s, events[0]).Some? {
        NoBreaks(format, Step(format, s, events[0]).value, events[1..]);
      }
    }
  }

  lemma RunSnoc(format: Format, s: State, events: seq<Event>, t: State, e: Event)
    requires Run(format, s, events) == Some(t)
    ensures Run(format, s, events + [e]) == Step(format, t, e)
  {
    RunThen(format, s, events, [e]);
    RunOne(format, t, e);
  }

  /** The lock entry names the complete claim of an attempt whose process is gone. */
  ghost predicate StaleLock(format: Format, s: State, h: Inode) {
    && s.lock == Some(h) && Complete(format, s, h)
    && !ProcessIsAlive(s, s.attempts[s.files[h].owner].metadata.pid)
  }

  lemma GotoKeepsStaleLock(format: Format, s: State, a: Attempt, pc: Pc, h: Inode)
    requires StaleLock(format, s, h) && a in s.attempts
    ensures StaleLock(format, Goto(s, a, pc), h)
  {
  }

  lemma CanOpenLock(format: Format, s: State, a: Attempt, h: Inode) returns (events: seq<Event>)
    requires a in s.attempts && s.attempts[a].alive && s.attempts[a].pc.Trying? && s.lock == Some(h)
    ensures Run(format, s, events) == Some(Goto(s, a, InspectFstat(s.attempts[a].pc.claim, h, h)))
  {
    hide ClaimOk, LockOk, InspectOk, OwnsLock;
    var i := s.attempts[a].pc.claim;
    RunOne(format, s, Do(a, Link));
    RunSnoc(format, s, [Do(a, Link)], Goto(s, a, InspectStat(i)), Do(a, StatLock));
    assert Goto(Goto(s, a, InspectStat(i)), a, InspectOpen(i, h)) == Goto(s, a, InspectOpen(i, h));
    RunSnoc(format, s, [Do(a, Link), Do(a, StatLock)], Goto(s, a, InspectOpen(i, h)), Do(a, OpenLock));
    events := [Do(a, Link), Do(a, StatLock)] + [Do(a, OpenLock)];
    assert Goto(Goto(s, a, InspectOpen(i, h)), a, InspectFstat(i, h, h)) == Goto(s, a, InspectFstat(i, h, h));
  }

  lemma CanReadLock(format: Format, s: State, a: Attempt, h: Inode) returns (events: seq<Event>)
    requires ReadsBack(format)
    requires a in s.attempts && s.attempts[a].alive && s.attempts[a].pc.InspectFstat?
    requires s.attempts[a].pc.seen == s.attempts[a].pc.handle == h && StaleLock(format, s, h)
    ensures Run(format, s, events)
      == Some(Goto(s, a, Judging(s.attempts[a].pc.claim, h, Some(s.attempts[s.files[h].owner].metadata))))
  {
    hide ClaimOk, LockOk, InspectOk, OwnsLock;
    var i, m := s.attempts[a].pc.claim, s.attempts[s.files[h].owner].metadata;
    assert format.parse(format.render(m)) == Some(m);
    RunOne(format, s, Do(a, FstatLock));
    RunSnoc(format, s, [Do(a, FstatLock)], Goto(s, a, InspectRead(i, h)), Do(a, ReadLock(true)));
    events := [Do(a, FstatLock)] + [Do(a, ReadLock(true))];
    assert Goto(Goto(s, a, InspectRead(i, h)), a, Judging(i, h, Some(m))) == Goto(s, a, Judging(i, h, Some(m)));
  }

  lemma CanJudgeLock(format: Format, s: State, a: Attempt, h: Inode) returns (events: seq<Event>)
    requires a in s.attempts && s.attempts[a].alive && s.attempts[a].pc.Judging? && StaleLock(format, s, h)
    requires s.attempts[a].pc.handle == h && s.attempts[a].pc.metadata == Some(s.attempts[s.files[h].owner].metadata)
    ensures Run(format, s, events) == Some(Goto(s, a, BreakUnlink(s.attempts[a].pc.claim, h)))
  {
    hide ClaimOk, LockOk, InspectOk, OwnsLock;
    var i := s.attempts[a].pc.claim;
    RunOne(format, s, Do(a, JudgeStale));
    RunSnoc(format, s, [Do(a, JudgeStale)], Goto(s, a, BreakStat(i, h)), Do(a, StatStale));
    events := [Do(a, JudgeStale)] + [Do(a, StatStale)];
    assert Goto(Goto(s, a, BreakStat(i, h)), a, BreakUnlink(i, h)) == Goto(s, a, BreakUnlink(i, h));
  }

  /** An attempt at the loop head finds the lock of a dead process and stops just before its unlink. */
  lemma CanReachUnlink(format: Format, s: State, a: Attempt, h: Inode) returns (events: seq<Event>, t: State)
    requires ReadsBack(format)
    requires a in s.attempts && s.attempts[a].alive && s.attempts[a].pc.Trying? && StaleLock(format, s, h)
    ensures Run(format, s, events) == Some(t)
    ensures t == Goto(s, a, BreakUnlink(s.attempts[a].pc.claim, h)) && StaleLock(format, t, h)
  {
    hide ClaimOk, LockOk, InspectOk, OwnsLock;
    var i, m := s.attempts[a].pc.claim, s.attempts[s.files[h].owner].metadata;
    var s1, s2 := Goto(s, a, InspectFstat(i, h, h)), Goto(s, a, Judging(i, h, Some(m)));
    t := Goto(s, a, BreakUnlink(i, h));
    GotoKeepsStaleLock(format, s, a, s1.attempts[a].pc, h);
    GotoKeepsStaleLock(format, s, a, s2.attempts[a].pc, h);
    GotoKeepsStaleLock(format, s, a, t.attempts[a].pc, h);
    var e1 := CanOpenLock(format, s, a, h);
    var e2 := CanReadLock(format, s1, a, h);
    assert Goto(s1, a, s2.attempts[a].pc) == s2;
    var e3 := CanJudgeLock(format, s2, a, h);
    assert Goto(s2, a, t.attempts[a].pc) == t;
    RunThen(format, s, e1, e2);
    RunThen(format, s, e1 + e2, e3);
    events := e1 + e2 + e3;
  }

  /** Attempt 0 enters and its process crashes; attempts 1 and 2 reach the loop head. */
  lemma CrashedHolder(format: Format, m0: Metadata, m1: Metadata, m2: Metadata) returns (events: seq<Event>, s: State)
    requires ReadsBack(format)
    requires format.valid(m0) && format.valid(m1) && format.valid(m2) && m0.pid != m1.pid && m0.pid != m2.pid
    ensures Run(format, INITIAL, events) == Some(s)
    ensures s.attempts == map[0 := Process(m0, false, Inside(0)), 1 := Process(m1, true, Trying(1)),
                              2 := Process(m2, true, Trying(2))]
    ensures s.claims == map[1 := 1, 2 := 2]
    ensures s.files == map[0 := File(0, format.render(m0)), 1 := File(1, format.render(m1)), 2 := File(2, format.render(m2))]
    ensures StaleLock(format, s, 0)
  {
    hide ClaimOk, LockOk, InspectOk, OwnsLock, Run, Act;
    var e1, s1 := CanClaim(format, INITIAL, 0, m0, 0);
    var e2, s2 := CanEnter(format, s1, 0);
    var s3 := Step(format, s2, Crash(m0.pid)).value;
    RunThen(format, INITIAL, e1, e2);
    RunSnoc(format, INITIAL, e1 + e2, s2, Crash(m0.pid));
    assert s3.attempts == map[0 := Process(m0, false, Inside(0))];
    var e4, s4 := CanClaim(format, s3, 1, m1, 1);
    RunThen(format, INITIAL, e1 + e2 + [Crash(m0.pid)], e4);
    var e5, s5 := CanClaim(format, s4, 2, m2, 2);
    RunThen(format, INITIAL, e1 + e2 + [Crash(m0.pid)] + e4, e5);
    events, s := e1 + e2 + [Crash(m0.pid)] + e4 + e5, s5;
  }

  /**
   The code as written, with its separate stat and unlink: two breakers inspect
   the same dead lock, the faster one removes it and enters, and the slower
   one's unlink then removes the live lock and lets it in as well.
   */
  lemma SplitBreakWitness(format: Format, m0: Metadata, m1: Metadata, m2: Metadata) returns (events: seq<Event>, s: State)
    requires ReadsBack(format)
    requires format.valid(m0) && format.valid(m1) && format.valid(m2) && m0.pid != m1.pid && m0.pid != m2.pid
    ensures Run(format, INITIAL, events) == Some(s) && !SafeBreaks(format, INITIAL, events) && !AtomicBreaks(format, INITIAL, events)
    ensures 1 in s.attempts && s.attempts[1].alive && s.attempts[1].pc.Inside?
    ensures 2 in s.attempts && s.attempts[2].alive && s.attempts[2].pc.Inside?
  {
    hide StaleLock, SafeBreaks, Run, ClaimOk, LockOk, InspectOk, OwnsLock;
    var e1, s1 := CrashedHolder(format, m0, m1, m2);
    var e2, s2 := CanReachUnlink(format, s1, 1, 0);
    var e3, s3 := CanReachUnlink(format, s2, 2, 0);
    var s4 := Step(format, s3, Do(2, UnlinkStale)).value;
    var e5, s5 := CanEnter(format, s4, 2);
    var s6 := Step(format, s5, Do(1, UnlinkStale)).value;
    var e7, s7 := CanEnter(format, s6, 1);
    RunThen(format, INITIAL, e1, e2);
    RunThen(format, INITIAL, e1 + e2, e3);
    RunSnoc(format, INITIAL, e1 + e2 + e3, s3, Do(2, UnlinkStale));
    RunThen(format, INITIAL, e1 + e2 + e3 + [Do(2, UnlinkStale)], e5);
    RunSnoc(format, INITIAL, e1 + e2 + e3 + [Do(2, UnlinkStale)] + e5, s5, Do(1, UnlinkStale));
    RunThen(format, INITIAL, e1 + e2 + e3 + [Do(2, UnlinkStale)] + e5 + [Do(1, UnlinkStale)], e7);
    events := e1 + e2 + e3 + [Do(2, UnlinkStale)] + e5 + [Do(1, UnlinkStale)] + e7;
    s := s7;
    if AtomicBreaks(format, INITIAL, events) {
      AtomicBreaksAreSafe(format, events);
    }
    if SafeBreaks(format, INITIAL, events) {
      MutualExclusion(format, events, s, 1, 2);
    }
  }
}
