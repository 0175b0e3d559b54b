/**
 The registry file store as a step system on top of the lock: every file-system call of
 `readStoredValue`, `#writeStoredValue`, `assertTargetUnchanged` and `removeLegacy`, and
 every decision of `commit` and `migrateLegacyLocal`, is one step.  Steps of different
 clients interleave freely, any of them may fail, and a process may crash between two of
 them; the steps of a transaction happen only while its attempt is inside the lock.

 What the files mean is given by `Rules`, so that the protocol is proved once for any
 format that satisfies `Lawful`.  The log of installed documents is bookkeeping for the
 theorems; no step reads it.
 */
module RegistryStore {
  import opened Options
  import opened Texts
  import opened JsonGrammar
  import opened Records
  import opened RegistryDocument
  import opened Migration
  import L = LockProtocol
  import LockFile

  type Attempt = L.Attempt
  type Inode = nat

  datatype Rules = Rules(
    read: Text -> Option<Document>,
    next: (Document, Json) -> Option<Document>,
    serialize: Document -> Option<Text>,
    readLegacy: Text -> Option<Record>,
    plan: (Document, Record) -> Plan,
    lock: LockFile.Format)

  datatype Path = Registry | Legacy

  /** `inspect` takes no lock; the other three run inside a transaction. */
  datatype Operation = Inspect | Read | Commit(expected: int) | Migrate

  /** A document and how many documents had been installed when it was current. */
  datatype Version = Version(document: Document, position: nat)

  datatype Snapshot = Snapshot(identity: Option<Inode>, version: Version)
  datatype OldRecord = OldRecord(identity: Inode, record: Record)

  /** What `writeRegistry` is asked to install, and what a migration has to remove afterwards. */
  datatype Job = Job(base: Snapshot, proposed: Json, next: Document, text: Text, former: Option<OldRecord>)

  datatype Outcome = Success(version: Version) | Conflict | Invalid | Failed

  datatype Progress =
    | Start
    | Statted(path: Path, before: Option<Snapshot>, seen: Inode)
    | Opened(path: Path, before: Option<Snapshot>, handle: Inode)
    | Fetched(path: Path, before: Option<Snapshot>, handle: Inode, text: Text)
    | Loaded(base: Snapshot)
    | LoadedBoth(base: Snapshot, former: OldRecord)
    | Preparing(job: Job)
    | Writing(job: Job, temp: Inode)
    | Written(job: Job, temp: Inode)
    | Checked(job: Job, temp: Inode)
    | Renamed(job: Job)
    | Removing(former: OldRecord, version: Version)
    | RemovalStatted(former: OldRecord, version: Version)
    | Removed(version: Version)
    | Cleaning(temp: Inode, outcome: Outcome)
    | Done(outcome: Outcome)

  /** `since` is the length of the log at the submission, `entry` the position in the log of what this client has installed. */
  datatype Client = Client(operation: Operation, progress: Progress, since: nat, entry: Option<nat>)

  datatype Install = Install(attempt: Attempt, inode: Inode, before: Document, proposed: Json, after: Document)

  datatype State = State(
    lock: L.State,
    files: map<Inode, Text>,
    registry: Option<Inode>,
    legacy: Option<Inode>,
    temps: map<Attempt, Inode>,
    clients: map<Attempt, Client>,
    log: seq<Install>)

  datatype Action =
    | Stat
    | Open
    | Fetch
    | Recheck
    | Decide(proposal: Option<Json>)
    | OpenTemp(inode: Inode)
    | WriteTemp(count: nat)
    | FinishTemp
    | CheckTarget
    | Rename
    | Confirm
    | StatOld
    | UnlinkOld
    | SyncRemoval
    | CleanTemp(gone: bool)
    | Fail

  datatype Event =
    | Submit(attempt: Attempt, metadata: LockFile.Metadata, operation: Operation)
    | Lock(event: L.Event)
    | Body(attempt: Attempt, action: Action)

  // ---- steps

  function Goto(s: State, a: Attempt, p: Progress): State
    requires a in s.clients
  {
    s.(clients := s.clients[a := s.clients[a].(progress := p)])
  }

  function Target(s: State, path: Path): Option<Inode> { if path.Registry? then s.registry else s.legacy }

  /** `readStoredValue`: stat, open and fstat, read, stat again, parse. */
  function StepRead(rules: Rules, s: State, a: Attempt, action: Action): Option<State>
    requires a in s.clients
  {
    match (s.clients[a].progress, action)
    case (Start, Stat) =>
      Some(Goto(s, a, if s.registry.None? then Loaded(Snapshot(None, Version(EMPTY, |s.log|)))
                      else Statted(Registry, None, s.registry.value)))
    case (Loaded(base), Stat) =>
      if !s.clients[a].operation.Migrate? then None
      else Some(Goto(s, a, if s.legacy.None? then Done(Success(base.version)) else Statted(Legacy, Some(base), s.legacy.value)))
    case (Statted(path, before, seen), Open) =>
      Some(Goto(s, a, if Target(s, path) == Some(seen) then Opened(path, before, seen) else Done(Failed)))
    case (Opened(path, before, h), Fetch) =>
      if h !in s.files then None else Some(Goto(s, a, Fetched(path, before, h, s.files[h])))
    case (Fetched(path, before, h, text), Recheck) =>
      Some(Goto(s, a,
        if Target(s, path) != Some(h) then Done(Failed)
        else if before.None? then
          var d := rules.read(text);
          if d.None? then Done(Invalid) else Loaded(Snapshot(Some(h), Version(d.value, |s.log|)))
        else
          var r := rules.readLegacy(text);
          if r.None? then Done(Invalid) else LoadedBoth(before.value, OldRecord(h, r.value))))
    case _ => None
  }

  /** `nextRegistryDocument` and `serializeRegistryDocument` on a proposal. */
  function Prepare(rules: Rules, base: Snapshot, proposed: Json, former: Option<OldRecord>): Progress {
    var next := rules.next(base.version.document, proposed);
    if next.None? then Done(Invalid) else
    var text := rules.serialize(next.value);
    if text.None? then Done(Invalid) else Preparing(Job(base, proposed, next.value, text.value, former))
  }

  /** The bodies of `read`, `commit` and `migrateLegacyLocal` between their reads and their writes. */
  function StepDecide(rules: Rules, s: State, a: Attempt, action: Action): Option<State>
    requires a in s.clients
  {
    match (s.clients[a].progress, action)
    case (Loaded(base), Decide(proposal)) =>
      (match s.clients[a].operation
       case Commit(expected) =>
         Some(Goto(s, a, if base.version.document.revision != expected then Done(Conflict)
                         else if proposal.None? then Done(Failed)
                         else Prepare(rules, base, proposal.value, None)))
       case Migrate => None
       case _ => Some(Goto(s, a, Done(Success(base.version)))))
    case (LoadedBoth(base, former), Decide(_)) =>
      (match rules.plan(base.version.document, former.record)
       case Settled => Some(Goto(s, a, Removing(former, base.version)))
       case Propose(proposed) => Some(Goto(s, a, Prepare(rules, base, proposed, Some(former))))
       case Clash => Some(Goto(s, a, Done(Conflict))))
    case _ => None
  }

  /** `#writeStoredValue`: a private temporary file, its bytes, the check of the target, the rename, the confirmation. */
  function StepWrite(s: State, a: Attempt, action: Action): Option<State>
    requires a in s.clients
  {
    match (s.clients[a].progress, action)
    case (Preparing(job), OpenTemp(i)) =>
      if i in s.files then None
      else Some(Goto(s, a, Writing(job, i)).(files := s.files[i := []], temps := s.temps[a := i]))
    case (Writing(job, temp), WriteTemp(n)) =>
      if temp !in s.files || n == 0 || |job.text| < |s.files[temp]| + n then None
      else Some(s.(files := s.files[temp := job.text[..|s.files[temp]| + n]]))
    case (Writing(job, temp), FinishTemp) =>
      if temp !in s.files || |s.files[temp]| < |job.text| then None else Some(Goto(s, a, Written(job, temp)))
    case (Written(job, temp), CheckTarget) =>
      Some(Goto(s, a, if s.registry == job.base.identity then Checked(job, temp) else Cleaning(temp, Failed)))
    case (Checked(job, temp), Rename) =>
      var entry := Install(a, temp, job.base.version.document, job.proposed, job.next);
      Some(s.(registry := Some(temp), temps := s.temps - {a}, log := s.log + [entry],
              clients := s.clients[a := s.clients[a].(progress := Renamed(job), entry := Some(|s.log|))]))
    case (Renamed(job), Confirm) =>
      if s.clients[a].entry.None? then None else
      var version := Version(job.next, s.clients[a].entry.value + 1);
      Some(Goto(s, a, if job.former.Some? then Removing(job.former.value, version) else Done(Success(version))))
    case (Cleaning(temp, outcome), CleanTemp(gone)) =>
      Some(Goto(s, a, Done(outcome)).(temps := if gone then s.temps - {a} else s.temps))
    case _ => None
  }

  /** `removeLegacy`. */
  function StepRemove(s: State, a: Attempt, action: Action): Option<State>
    requires a in s.clients
  {
    match (s.clients[a].progress, action)
    case (Removing(former, version), StatOld) =>
      Some(Goto(s, a, if s.legacy.None? then Removed(version)
                      else if s.legacy.value == former.identity then RemovalStatted(former, version)
                      else Done(Failed)))
    case (RemovalStatted(former, version), UnlinkOld) => Some(Goto(s, a, Removed(version)).(legacy := None))
    case (Removed(version), SyncRemoval) => Some(Goto(s, a, Done(Success(version))))
    case _ => None
  }

  /** Any call can fail; a failed write then tries to remove its temporary file. */
  function StepFail(s: State, a: Attempt): Option<State>
    requires a in s.clients
  {
    var p := s.clients[a].progress;
    if p.Done? || p.Cleaning? then None
    else if p.Writing? || p.Written? || p.Checked? then Some(Goto(s, a, Cleaning(p.temp, Failed)))
    else Some(Goto(s, a, Done(Failed)))
  }

  /** The client is inside its transaction, in a live process. */
  predicate Engaged(s: State, a: Attempt) {
    && a in s.clients && !s.clients[a].operation.Inspect?
    && a in s.lock.attempts && s.lock.attempts[a].alive && s.lock.attempts[a].pc.Inside?
  }

  function Act(rules: Rules, s: State, a: Attempt, action: Action): Option<State>
    requires a in s.clients
  {
    var p := s.clients[a].progress;
    if action.Fail? then StepFail(s, a)
    else if action.Decide? then StepDecide(rules, s, a, action)
    else if p.Removing? || p.RemovalStatted? || p.Removed? then StepRemove(s, a, action)
    else if p.Preparing? || p.Writing? || p.Written? || p.Checked? || p.Renamed? || p.Cleaning? then StepWrite(s, a, action)
    else StepRead(rules, s, a, action)
  }

  /** A commit whose expected revision cannot be one is turned away before any lock is taken. */
  predicate BadRevision(op: Operation) { op.Commit? && !(0 <= op.expected <= MAX_REVISION) }

  ghost function Step(rules: Rules, s: State, e: Event): Option<State> {
    match e
    case Submit(a, m, op) =>
      if a in s.clients || a in s.lock.attempts then None
      else if BadRevision(op) then Some(s.(clients := s.clients[a := Client(op, Done(Conflict), |s.log|, None)]))
      else if op.Inspect? then Some(s.(clients := s.clients[a := Client(op, Start, |s.log|, None)]))
      else
        var lock :- L.Step(rules.lock, s.lock, L.Spawn(a, m));
        Some(s.(lock := lock, clients := s.clients[a := Client(op, Start, |s.log|, None)]))
    case Lock(e) =>
      if e.Spawn? then None
      else if e.Do? && e.action.LeaveBody? && (e.attempt !in s.clients || !s.clients[e.attempt].progress.Done?) then None
      else
        var lock :- L.Step(rules.lock, s.lock, e);
        Some(s.(lock := lock))
    case Body(a, action) =>
      if a in s.clients && (s.clients[a].operation.Inspect? || Engaged(s, a)) then Act(rules, s, a, action) else None
  }

  ghost function Run(rules: Rules, s: State, events: seq<Event>): Option<State>
    decreases |events|
  {
    if events == [] then Some(s) else
    var next :- Step(rules, s, events[0]);
    Run(rules, next, events[1..])
  }

  /** A break of a stale lock takes away a lock that is held, as in the lock protocol. */
  predicate HeldBreak(s: State, e: Event) { e.Lock? && L.HeldUnlink(s.lock, e.event) }

  ghost predicate SafeBreaks(rules: Rules, s: State, events: seq<Event>)
    decreases |events|
  {
    events == [] || (
      && !HeldBreak(s, events[0])
      && (Step(rules, s, events[0]).Some? ==> SafeBreaks(rules, Step(rules, s, events[0]).value, events[1..])))
  }

  predicate LateBreak(s: State, e: Event) { e.Lock? && L.LateUnlink(s.lock, e.event) }

  /** The stat and the unlink of `unlinkIfSame` act as one step throughout the run. */
  ghost predicate AtomicBreaks(rules: Rules, s: State, events: seq<Event>)
    decreases |events|
  {
    events == [] || (
      && !LateBreak(s, events[0])
      && (Step(rules, s, events[0]).Some? ==> AtomicBreaks(rules, Step(rules, s, events[0]).value, events[1..])))
  }

  /** Nothing has been submitted; the two files are whatever they are. */
  predicate Initial(s: State) {
    && s.lock == L.INITIAL && s.temps == map[] && s.clients == map[] && s.log == []
    && (s.registry.Some? ==> s.registry.value in s.files) && (s.legacy.Some? ==> s.legacy.value in s.files)
    && (s.registry.Some? ==> s.registry != s.legacy)
  }
}
