module StoreSafety {
  /**
   What every run of the registry file store guarantees, in every interleaving of clients,
   failures and crashes: commits are linear and lose no update, the registry file always
   holds one complete document, and a migration neither loses nor repeats.
   */

  import opened Options
  import opened Texts
  import opened JsonGrammar
  import opened Records
  import opened RegistryDocument
  import opened Migration
  import opened RegistryStore
  import L = LockProtocol
  import LockFile

  // ---- the history of stored documents

  /** What the registry file says; a missing file stands for the empty document. */
  function Stored(rules: Rules, s: State): Option<Document> {
    if s.registry.None? then Some(EMPTY)
    else if s.registry.value in s.files then rules.read(s.files[s.registry.value]) else None
  }

  /** The document after the first `n` installs. */
  function DocumentAt(rules: Rules, start: State, log: seq<Install>, n: nat): Option<Document>
    requires n <= |log|
  {
    if n == 0 then Stored(rules, start) else Some(log[n - 1].after)
  }

  /** The record in the legacy file at the start. */
  function LegacyAt(rules: Rules, start: State): Option<Record> {
    if start.legacy.Some? && start.legacy.value in start.files then rules.readLegacy(start.files[start.legacy.value]) else None
  }

  /** The document has the record and a primary connection, so a migration has nothing to write. */
  predicate SettledIn(rules: Rules, d: Option<Document>, r: Option<Record>) {
    d.Some? && r.Some? && rules.plan(d.value, r.value).Settled?
  }

  /** One install: the proposal applied to the document before it, one complete text, a chain with the installs around it. */
  predicate InstallOk(rules: Rules, start: State, s: State, k: nat)
    requires k < |s.log|
  {
    var i := s.log[k];
    && DocumentAt(rules, start, s.log, k) == Some(i.before)
    && rules.next(i.before, i.proposed) == Some(i.after)
    && i.inode in s.files && rules.serialize(i.after) == Some(s.files[i.inode])
    && i.attempt in s.clients && s.clients[i.attempt].entry == Some(k)
  }

  predicate RegistryOk(start: State, s: State) {
    s.registry == if s.log == [] then start.registry else Some(s.log[|s.log| - 1].inode)
  }

  /** The legacy file is untouched, or its record and a primary were in the registry when it went. */
  ghost predicate LegacyOk(rules: Rules, start: State, s: State) {
    s.legacy == start.legacy
    || (s.legacy == None && exists n: nat :: n <= |s.log| && SettledIn(rules, DocumentAt(rules, start, s.log, n), LegacyAt(rules, start)))
  }

  predicate FilesOk(start: State, s: State) {
    forall i :: i in start.files ==> i in s.files && s.files[i] == start.files[i]
  }

  /** There was no legacy file, or its record and a primary were in the registry by then. */
  ghost predicate SettledBy(rules: Rules, start: State, log: seq<Install>, position: nat)
    requires position <= |log|
  {
    start.legacy.None?
    || exists n: nat :: n <= position && SettledIn(rules, DocumentAt(rules, start, log, n), LegacyAt(rules, start))
  }

  // ---- one client

  /** A file that no step writes to any more: one from before the run, or an installed one. */
  ghost predicate IsFinal(start: State, log: seq<Install>, i: Inode) {
    i in start.files || exists k :: 0 <= k < |log| && log[k].inode == i
  }

  /** The version was current at its position. */
  predicate VersionOk(rules: Rules, start: State, log: seq<Install>, v: Version) {
    v.position <= |log| && DocumentAt(rules, start, log, v.position) == Some(v.document)
  }

  /** The snapshot is current. */
  predicate IsCurrent(rules: Rules, start: State, s: State, b: Snapshot) {
    b.identity == s.registry && b.version.position == |s.log| && VersionOk(rules, start, s.log, b.version)
  }

  predicate IsLegacy(rules: Rules, start: State, s: State, former: OldRecord) {
    s.legacy == Some(former.identity) && s.legacy == start.legacy && LegacyAt(rules, start) == Some(former.record)
  }

  predicate IsLegacyJob(rules: Rules, start: State, s: State, op: Operation, job: Job) {
    && (op.Commit? || op.Migrate?)
    && (op.Commit? ==> job.former.None? && job.base.version.document.revision == op.expected)
    && (op.Migrate? ==>
        && job.former.Some? && IsLegacy(rules, start, s, job.former.value)
        && rules.plan(job.base.version.document, job.former.value.record) == Propose(job.proposed))
  }

  predicate JobOk(rules: Rules, start: State, s: State, op: Operation, job: Job) {
    && IsCurrent(rules, start, s, job.base) && IsLegacyJob(rules, start, s, op, job)
    && rules.next(job.base.version.document, job.proposed) == Some(job.next)
    && rules.serialize(job.next) == Some(job.text)
  }

  ghost predicate TempOk(start: State, s: State, temp: Inode, text: Text, complete: bool) {
    && temp in s.files && !IsFinal(start, s.log, temp)
    && (if complete then s.files[temp] == text else s.files[temp] <= text)
  }

  /** What holds of a client while it is inside its transaction, by how far it has come. */
  ghost predicate EngagedOk(rules: Rules, start: State, s: State, op: Operation, p: Progress, entry: Option<nat>) {
    match p
    case Statted(_, before, _) => BeforeOk(rules, start, s, op, p.path, before)
    case Opened(_, before, _) => BeforeOk(rules, start, s, op, p.path, before)
    case Fetched(_, before, _, _) => BeforeOk(rules, start, s, op, p.path, before)
    case Loaded(base) => IsCurrent(rules, start, s, base)
    case LoadedBoth(base, former) => op.Migrate? && IsCurrent(rules, start, s, base) && IsLegacy(rules, start, s, former)
    case Preparing(job) => JobOk(rules, start, s, op, job)
    case Writing(job, temp) => JobOk(rules, start, s, op, job) && TempOk(start, s, temp, job.text, false)
    case Written(job, temp) => JobOk(rules, start, s, op, job) && TempOk(start, s, temp, job.text, true)
    case Checked(job, temp) => JobOk(rules, start, s, op, job) && TempOk(start, s, temp, job.text, true)
    case Renamed(job) =>
      && |s.log| > 0 && entry == Some(|s.log| - 1) && job.next == s.log[|s.log| - 1].after
      && rules.next(job.base.version.document, job.proposed) == Some(job.next) && rules.serialize(job.next) == Some(job.text)
      && VersionOk(rules, start, s.log, job.base.version) && IsLegacyJob(rules, start, s, op, job)
    case Removing(former, version) => op.Migrate? && RemovalOk(rules, start, s, former, version)
    case RemovalStatted(former, version) => op.Migrate? && RemovalOk(rules, start, s, former, version)
    case Removed(version) =>
      op.Migrate? && VersionOk(rules, start, s.log, version) && SettledIn(rules, Some(version.document), LegacyAt(rules, start))
    case _ => true
  }

  predicate BeforeOk(rules: Rules, start: State, s: State, op: Operation, path: Path, before: Option<Snapshot>) {
    && (path.Legacy? <==> before.Some?)
    && (before.Some? ==> op.Migrate? && IsCurrent(rules, start, s, before.value))
  }

  predicate RemovalOk(rules: Rules, start: State, s: State, former: OldRecord, version: Version) {
    && IsLegacy(rules, start, s, former) && VersionOk(rules, start, s.log, version) && version.position == |s.log|
    && SettledIn(rules, Some(version.document), LegacyAt(rules, start))
  }

  /** What a client has installed. */
  predicate EntryOk(rules: Rules, start: State, s: State, a: Attempt, c: Client) {
    c.entry.Some? ==>
      && c.entry.value < |s.log| && s.log[c.entry.value].attempt == a && (c.operation.Commit? || c.operation.Migrate?)
      && (c.operation.Commit? ==> s.log[c.entry.value].before.revision == c.operation.expected)
      && (c.operation.Migrate? ==> PlannedFor(rules, s.log[c.entry.value], LegacyAt(rules, start)))
  }

  /** The proposal is the one a migration makes for the document. */
  predicate PlannedFor(rules: Rules, i: Install, r: Option<Record>) {
    r.Some? && rules.plan(i.before, r.value) == Propose(i.proposed)
  }

  /** Up to the rename nothing is installed. */
  predicate BeforeRename(p: Progress) {
    p.Start? || p.Statted? || p.Opened? || p.Fetched? || p.Loaded? || p.LoadedBoth? || p.Preparing? || p.Writing? || p.Written? ||
    p.Checked? || (p.Cleaning? && p.outcome.Failed?) || (p.Done? && (p.outcome.Conflict? || p.outcome.Invalid?))
  }

  /** A commit met a stored document that was not at the expected revision, unless that could not be one. */
  ghost predicate ConflictOk(rules: Rules, start: State, log: seq<Install>, op: Operation) {
    op.Commit? && !BadRevision(op) ==> exists n: nat :: n <= |log| && OtherRevision(rules, start, log, n, op.expected)
  }

  predicate OtherRevision(rules: Rules, start: State, log: seq<Install>, n: nat, expected: int)
    requires n <= |log|
  {
    DocumentAt(rules, start, log, n).Some? && DocumentAt(rules, start, log, n).value.revision != expected
  }

  /** What holds of a client's progress whether or not it is still running. */
  ghost predicate ProgressOk(rules: Rules, start: State, s: State, c: Client) {
    match c.progress
    case Opened(_, _, h) => IsFinal(start, s.log, h) && h in s.files
    case Fetched(_, _, h, text) => IsFinal(start, s.log, h) && h in s.files && s.files[h] == text
    case Loaded(base) => VersionOk(rules, start, s.log, base.version)
    case Cleaning(_, outcome) => outcome.Failed?
    case Done(Conflict) => ConflictOk(rules, start, s.log, c.operation)
    case Done(Success(v)) =>
      && VersionOk(rules, start, s.log, v) && (c.operation.Commit? ==> c.entry.Some? && v.position == c.entry.value + 1)
      && (c.operation.Migrate? ==> SettledBy(rules, start, s.log, v.position))
    case _ => true
  }

  /** The lock attempt has not reached its transaction yet. */
  predicate Outside(s: State, a: Attempt) { a in s.lock.attempts && InFront(s.lock.attempts[a].pc) }

  predicate InFront(pc: L.Pc) { pc.Opening? || pc.Writing? || L.BeforeLink(pc) || pc.Linked? || pc.Syncing? }

  ghost predicate ClientOk(rules: Rules, start: State, s: State, a: Attempt)
    requires a in s.clients
  {
    var c := s.clients[a];
    && EntryOk(rules, start, s, a, c) && (BeforeRename(c.progress) ==> c.entry == None)
    && ProgressOk(rules, start, s, c)
    && (a in s.temps ==> TempLeft(c.progress))
    && (Outside(s, a) ==> c.progress.Start? || c.operation.Inspect?)
    && (c.operation.Inspect? ==> a !in s.lock.attempts && InspectOk(c.progress))
    && (Engaged(s, a) ==> EngagedOk(rules, start, s, c.operation, c.progress, c.entry))
  }

  /** A temporary file is around only during a write, or after one that failed. */
  predicate TempLeft(p: Progress) {
    p.Writing? || p.Written? || p.Checked? || p.Cleaning? || (p.Done? && p.outcome.Failed?)
  }

  /** An inspection only ever reads the registry. */
  predicate InspectOk(p: Progress) {
    || p.Start? || p.Loaded? || p.Done?
    || ((p.Statted? || p.Opened? || p.Fetched?) && p.path.Registry? && p.before.None?)
  }

  predicate TempsHaveClients(s: State) { forall a :: a in s.temps ==> a in s.clients }

  ghost predicate Inv(rules: Rules, start: State, s: State) {
    && L.Inv(rules.lock, s.lock)
    && FilesOk(start, s) && RegistryOk(start, s) && LegacyOk(rules, start, s) && TempsHaveClients(s)
    && (forall k :: 0 <= k < |s.log| ==> InstallOk(rules, start, s, k))
    && (forall a :: a in s.clients ==> ClientOk(rules, start, s, a))
  }

  // ---- the laws of the format

  /** What is installed reads back. */
  ghost predicate RoundTrips(rules: Rules) {
    forall d, p :: rules.next(d, p).Some? && rules.serialize(rules.next(d, p).value).Some? ==>
      rules.read(rules.serialize(rules.next(d, p).value).value) == rules.next(d, p)
  }

  ghost predicate CountsRevisions(rules: Rules) {
    forall d, p :: rules.next(d, p).Some? ==> rules.next(d, p).value.revision == d.revision + 1
  }

  ghost predicate Readable(rules: Rules, d: Document) { d == EMPTY || exists t :: rules.read(t) == Some(d) }

  ghost predicate ReadableLegacy(rules: Rules, r: Record) { exists t :: rules.readLegacy(t) == Some(r) }

  /** What a migration writes leaves the next migration nothing to write. */
  ghost predicate Settles(rules: Rules) {
    forall d, r :: Readable(rules, d) && ReadableLegacy(rules, r) && rules.plan(d, r).Propose? ==>
      var next := rules.next(d, rules.plan(d, r).proposed); next.Some? ==> rules.plan(next.value, r).Settled?
  }

  ghost predicate Lawful(rules: Rules) {
    RoundTrips(rules) && CountsRevisions(rules) && Settles(rules) && LockFile.ReadsBack(rules.lock)
  }

  // ---- a step of one client leaves the facts about the others

  /** A step of `a` keeps final files, may append to the log, and leaves the lock and the other clients alone. */
  ghost predicate Local(start: State, s: State, t: State, a: Attempt) {
    && a in s.clients && t.clients.Keys == s.clients.Keys && t.lock == s.lock
    && t.clients[a].operation == s.clients[a].operation
    && (forall b :: b in s.clients && b != a ==> t.clients[b] == s.clients[b])
    && (forall b :: b != a ==> (b in t.temps <==> b in s.temps))
    && (forall i :: i in s.files && IsFinal(start, s.log, i) ==> i in t.files && t.files[i] == s.files[i])
    && s.log <= t.log
  }

  /** Nothing shared has changed. */
  predicate SameShared(s: State, t: State) {
    t.registry == s.registry && t.legacy == s.legacy && t.log == s.log && t.files == s.files
  }

  lemma FinalGrows(start: State, log: seq<Install>, longer: seq<Install>, i: Inode)
    requires log <= longer && IsFinal(start, log, i)
    ensures IsFinal(start, longer, i)
  {
    if i !in start.files {
      var k :| 0 <= k < |log| && log[k].inode == i;
      assert longer[k] == log[k];
    }
  }

  lemma VersionGrows(rules: Rules, start: State, log: seq<Install>, longer: seq<Install>, v: Version)
    requires log <= longer && VersionOk(rules, start, log, v)
    ensures VersionOk(rules, start, longer, v)
  {
    hide Stored;
    if v.position > 0 {
      assert longer[v.position - 1] == log[v.position - 1];
    }
  }

  lemma SettledGrows(rules: Rules, start: State, log: seq<Install>, longer: seq<Install>, position: nat)
    requires log <= longer && position <= |log| && SettledBy(rules, start, log, position)
    ensures SettledBy(rules, start, longer, position)
  {
    hide Stored, SettledIn, LegacyAt;
    if start.legacy.Some? {
      var n: nat :| n <= position && SettledIn(rules, DocumentAt(rules, start, log, n), LegacyAt(rules, start));
      assert DocumentAt(rules, start, longer, n) == DocumentAt(rules, start, log, n);
    }
  }

  lemma ConflictGrows(rules: Rules, start: State, log: seq<Install>, longer: seq<Install>, op: Operation)
    requires log <= longer && ConflictOk(rules, start, log, op)
    ensures ConflictOk(rules, start, longer, op)
  {
    hide Stored;
    if op.Commit? && !BadRevision(op) {
      var n: nat :| n <= |log| && OtherRevision(rules, start, log, n, op.expected);
      assert DocumentAt(rules, start, longer, n) == DocumentAt(rules, start, log, n);
      assert OtherRevision(rules, start, longer, n, op.expected);
    }
  }

  lemma OtherProgress(rules: Rules, start: State, s: State, t: State, a: Attempt, b: Attempt)
    requires Local(start, s, t, a) && b in s.clients && b != a && ProgressOk(rules, start, s, s.clients[b])
    ensures ProgressOk(rules, start, t, t.clients[b])
  {
    hide DocumentAt, IsFinal, SettledBy, ConflictOk;
    match s.clients[b].progress
    case Opened(_, _, h) => FinalGrows(start, s.log, t.log, h);
    case Fetched(_, _, h, _) => FinalGrows(start, s.log, t.log, h);
    case Loaded(base) => VersionGrows(rules, start, s.log, t.log, base.version);
    case Done(Conflict) => ConflictGrows(rules, start, s.log, t.log, s.clients[b].operation);
    case Done(Success(v)) =>
      VersionGrows(rules, start, s.log, t.log, v);
      if s.clients[b].operation.Migrate? {
        SettledGrows(rules, start, s.log, t.log, v.position);
      }
    case _ =>
  }

  lemma OtherClient(rules: Rules, start: State, s: State, t: State, a: Attempt, b: Attempt)
    requires Local(start, s, t, a) && b in s.clients && b != a && ClientOk(rules, start, s, b)
    requires !Engaged(s, b)
    ensures ClientOk(rules, start, t, b)
  {
    hide VersionOk, IsFinal, EngagedOk, ProgressOk, L.BeforeLink, PlannedFor;
    OtherProgress(rules, start, s, t, a, b);
  }

  lemma OtherClientUndisturbed(rules: Rules, start: State, s: State, t: State, a: Attempt, b: Attempt)
    requires Local(start, s, t, a) && b in s.clients && b != a && ClientOk(rules, start, s, b)
    requires SameShared(s, t)
    ensures ClientOk(rules, start, t, b)
  {
    hide VersionOk, L.BeforeLink, PlannedFor;
  }

  /** The lock does its work: no two clients are inside a transaction. */
  lemma OneEngaged(rules: Rules, s: State, a: Attempt, b: Attempt)
    requires L.Inv(rules.lock, s.lock) && Engaged(s, a) && Engaged(s, b)
    ensures a == b
  {
    assert L.OwnFacts(rules.lock, s.lock, a) && L.OwnFacts(rules.lock, s.lock, b);
  }

  // ---- what the shared files say

  ghost predicate SharedOk(rules: Rules, start: State, s: State) {
    && Stored(rules, s) == DocumentAt(rules, start, s.log, |s.log|)
    && (s.registry.Some? ==> s.registry.value in s.files && IsFinal(start, s.log, s.registry.value))
    && (s.legacy.Some? ==>
        && s.legacy == start.legacy && s.legacy.value in s.files && IsFinal(start, s.log, s.legacy.value)
        && LegacyAt(rules, start) == rules.readLegacy(s.files[s.legacy.value]))
  }

  lemma SharedFacts(rules: Rules, start: State, s: State)
    requires Initial(start) && RoundTrips(rules) && Inv(rules, start, s)
    ensures SharedOk(rules, start, s)
  {
    hide ClientOk, L.Inv;
    if s.log != [] {
      assert InstallOk(rules, start, s, |s.log| - 1);
    }
  }

  // ---- a client's own step, by the part of the program it is in

  /** A step that moves only the client. */
  lemma Moved(rules: Rules, start: State, s: State, a: Attempt, p: Progress)
    requires a in s.clients && ClientOk(rules, start, s, a)
    requires BeforeRename(p) ==> s.clients[a].entry == None
    requires ProgressOk(rules, start, s, s.clients[a].(progress := p))
    requires a in s.temps ==> TempLeft(p)
    requires s.clients[a].operation.Inspect? ==> InspectOk(p)
    requires s.clients[a].operation.Inspect? || Engaged(s, a)
    requires Engaged(s, a) ==> EngagedOk(rules, start, s, s.clients[a].operation, p, s.clients[a].entry)
    ensures ClientOk(rules, start, Goto(s, a, p), a)
  {
    hide EngagedOk, ProgressOk, IsFinal, VersionOk, PlannedFor, InspectOk;
    SameContext(rules, start, s, a, p);
  }

  lemma SameContext(rules: Rules, start: State, s: State, a: Attempt, p: Progress)
    requires a in s.clients
    ensures ProgressOk(rules, start, Goto(s, a, p), s.clients[a].(progress := p))
       <==> ProgressOk(rules, start, s, s.clients[a].(progress := p))
    ensures EngagedOk(rules, start, Goto(s, a, p), s.clients[a].operation, p, s.clients[a].entry)
       <==> EngagedOk(rules, start, s, s.clients[a].operation, p, s.clients[a].entry)
  {
    hide VersionOk, IsFinal, BeforeRename;
  }

  lemma ReadStep(rules: Rules, start: State, s: State, t: State, a: Attempt, action: Action)
    requires SharedOk(rules, start, s) && LegacyOk(rules, start, s) && a in s.clients && ClientOk(rules, start, s, a)
    requires s.clients[a].operation.Inspect? || Engaged(s, a)
    requires StepRead(rules, s, a, action) == Some(t)
    ensures ClientOk(rules, start, t, a) && t == Goto(s, a, t.clients[a].progress)
  {
    hide IsFinal, PlannedFor, Stored, LegacyAt, ClientOk;
    var p := t.clients[a].progress;
    ReadStepFacts(rules, start, s, t, a, action);
    Moved(rules, start, s, a, p);
  }

  lemma StatFacts(rules: Rules, start: State, s: State, t: State, a: Attempt)
    requires SharedOk(rules, start, s) && LegacyOk(rules, start, s) && a in s.clients && ClientOk(rules, start, s, a)
    requires s.clients[a].operation.Inspect? || Engaged(s, a)
    requires StepRead(rules, s, a, Stat) == Some(t)
    ensures t == Goto(s, a, t.clients[a].progress) && s.clients[a].entry == None && a !in s.temps
    ensures var p := t.clients[a].progress;
      && ProgressOk(rules, start, s, s.clients[a].(progress := p))
      && (s.clients[a].operation.Inspect? ==> InspectOk(p))
      && (Engaged(s, a) ==> EngagedOk(rules, start, s, s.clients[a].operation, p, None))
  {
    hide IsFinal, PlannedFor, LegacyAt, L.BeforeLink, SettledIn;
  }

  lemma OpenFacts(rules: Rules, start: State, s: State, t: State, a: Attempt)
    requires SharedOk(rules, start, s) && LegacyOk(rules, start, s) && a in s.clients && ClientOk(rules, start, s, a)
    requires s.clients[a].operation.Inspect? || Engaged(s, a)
    requires StepRead(rules, s, a, Open) == Some(t)
    ensures t == Goto(s, a, t.clients[a].progress) && s.clients[a].entry == None && a !in s.temps
    ensures var p := t.clients[a].progress;
      && ProgressOk(rules, start, s, s.clients[a].(progress := p))
      && (s.clients[a].operation.Inspect? ==> InspectOk(p))
      && (Engaged(s, a) ==> EngagedOk(rules, start, s, s.clients[a].operation, p, None))
  {
    hide IsFinal, PlannedFor, LegacyAt, L.BeforeLink, SettledIn;
  }

  lemma FetchFacts(rules: Rules, start: State, s: State, t: State, a: Attempt)
    requires SharedOk(rules, start, s) && LegacyOk(rules, start, s) && a in s.clients && ClientOk(rules, start, s, a)
    requires s.clients[a].operation.Inspect? || Engaged(s, a)
    requires StepRead(rules, s, a, Fetch) == Some(t)
    ensures t == Goto(s, a, t.clients[a].progress) && s.clients[a].entry == None && a !in s.temps
    ensures var p := t.clients[a].progress;
      && ProgressOk(rules, start, s, s.clients[a].(progress := p))
      && (s.clients[a].operation.Inspect? ==> InspectOk(p))
      && (Engaged(s, a) ==> EngagedOk(rules, start, s, s.clients[a].operation, p, None))
  {
    hide IsFinal, PlannedFor, LegacyAt, L.BeforeLink, SettledIn;
  }

  lemma RecheckFacts(rules: Rules, start: State, s: State, t: State, a: Attempt)
    requires SharedOk(rules, start, s) && LegacyOk(rules, start, s) && a in s.clients && ClientOk(rules, start, s, a)
    requires s.clients[a].operation.Inspect? || Engaged(s, a)
    requires StepRead(rules, s, a, Recheck) == Some(t)
    ensures t == Goto(s, a, t.clients[a].progress) && s.clients[a].entry == None && a !in s.temps
    ensures var p := t.clients[a].progress;
      && ProgressOk(rules, start, s, s.clients[a].(progress := p))
      && (s.clients[a].operation.Inspect? ==> InspectOk(p))
      && (Engaged(s, a) ==> EngagedOk(rules, start, s, s.clients[a].operation, p, None))
  {
    hide IsFinal, PlannedFor, LegacyAt, L.BeforeLink, SettledIn;
  }

  lemma ReadStepFacts(rules: Rules, start: State, s: State, t: State, a: Attempt, action: Action)
    requires SharedOk(rules, start, s) && LegacyOk(rules, start, s) && a in s.clients && ClientOk(rules, start, s, a)
    requires s.clients[a].operation.Inspect? || Engaged(s, a)
    requires StepRead(rules, s, a, action) == Some(t)
    ensures t == Goto(s, a, t.clients[a].progress) && s.clients[a].entry == None && a !in s.temps
    ensures var p := t.clients[a].progress;
      && ProgressOk(rules, start, s, s.clients[a].(progress := p))
      && (s.clients[a].operation.Inspect? ==> InspectOk(p))
      && (Engaged(s, a) ==> EngagedOk(rules, start, s, s.clients[a].operation, p, None))
  {
    hide SharedOk, LegacyOk, ClientOk, ProgressOk, EngagedOk, InspectOk;
    match action
    case Stat => StatFacts(rules, start, s, t, a);
    case Open => OpenFacts(rules, start, s, t, a);
    case Fetch => FetchFacts(rules, start, s, t, a);
    case Recheck => RecheckFacts(rules, start, s, t, a);
  }

  lemma DecideStep(rules: Rules, start: State, s: State, t: State, a: Attempt, action: Action)
    requires a in s.clients && ClientOk(rules, start, s, a) && (s.clients[a].operation.Inspect? || Engaged(s, a))
    requires StepDecide(rules, s, a, action) == Some(t)
    ensures ClientOk(rules, start, t, a) && t == Goto(s, a, t.clients[a].progress)
  {
    hide ClientOk, EngagedOk, ProgressOk;
    DecideStepFacts(rules, start, s, t, a, action);
    Moved(rules, start, s, a, t.clients[a].progress);
  }

  lemma AnswerFacts(rules: Rules, start: State, s: State, t: State, a: Attempt, action: Action)
    requires a in s.clients && ClientOk(rules, start, s, a) && (s.clients[a].operation.Inspect? || Engaged(s, a))
    requires StepDecide(rules, s, a, action) == Some(t) && !s.clients[a].operation.Commit? && s.clients[a].progress.Loaded?
    ensures t == Goto(s, a, t.clients[a].progress) && s.clients[a].entry == None && a !in s.temps
    ensures var p := t.clients[a].progress;
      && ProgressOk(rules, start, s, s.clients[a].(progress := p))
      && (s.clients[a].operation.Inspect? ==> InspectOk(p))
      && (Engaged(s, a) ==> EngagedOk(rules, start, s, s.clients[a].operation, p, None))
  {
    hide IsFinal, PlannedFor, Stored, LegacyAt, L.BeforeLink;
  }

  lemma CommitFacts(rules: Rules, start: State, s: State, t: State, a: Attempt, action: Action)
    requires a in s.clients && ClientOk(rules, start, s, a) && (s.clients[a].operation.Inspect? || Engaged(s, a))
    requires StepDecide(rules, s, a, action) == Some(t) && s.clients[a].operation.Commit?
    ensures t == Goto(s, a, t.clients[a].progress) && s.clients[a].entry == None && a !in s.temps
    ensures var p := t.clients[a].progress;
      && ProgressOk(rules, start, s, s.clients[a].(progress := p))
      && (s.clients[a].operation.Inspect? ==> InspectOk(p))
      && (Engaged(s, a) ==> EngagedOk(rules, start, s, s.clients[a].operation, p, None))
  {
    hide IsFinal, PlannedFor, Stored, LegacyAt, L.BeforeLink;
    var base := s.clients[a].progress.base;
    if base.version.document.revision != s.clients[a].operation.expected {
      assert OtherRevision(rules, start, s.log, base.version.position, s.clients[a].operation.expected);
    }
  }

  lemma PlanFacts(rules: Rules, start: State, s: State, t: State, a: Attempt, action: Action)
    requires a in s.clients && ClientOk(rules, start, s, a) && (s.clients[a].operation.Inspect? || Engaged(s, a))
    requires StepDecide(rules, s, a, action) == Some(t) && s.clients[a].progress.LoadedBoth?
    ensures t == Goto(s, a, t.clients[a].progress) && s.clients[a].entry == None && a !in s.temps
    ensures var p := t.clients[a].progress;
      && ProgressOk(rules, start, s, s.clients[a].(progress := p))
      && (s.clients[a].operation.Inspect? ==> InspectOk(p))
      && (Engaged(s, a) ==> EngagedOk(rules, start, s, s.clients[a].operation, p, None))
  {
    hide IsFinal, PlannedFor, Stored, LegacyAt, L.BeforeLink;
  }

  lemma DecideStepFacts(rules: Rules, start: State, s: State, t: State, a: Attempt, action: Action)
    requires a in s.clients && ClientOk(rules, start, s, a) && (s.clients[a].operation.Inspect? || Engaged(s, a))
    requires StepDecide(rules, s, a, action) == Some(t)
    ensures t == Goto(s, a, t.clients[a].progress) && s.clients[a].entry == None && a !in s.temps
    ensures var p := t.clients[a].progress;
      && ProgressOk(rules, start, s, s.clients[a].(progress := p))
      && (s.clients[a].operation.Inspect? ==> InspectOk(p))
      && (Engaged(s, a) ==> EngagedOk(rules, start, s, s.clients[a].operation, p, None))
  {
    hide ClientOk, ProgressOk, EngagedOk, InspectOk, Goto, Engaged, Prepare;
    if s.clients[a].operation.Commit? {
      CommitFacts(rules, start, s, t, a, action);
    } else if s.clients[a].progress.Loaded? {
      AnswerFacts(rules, start, s, t, a, action);
    } else {
      PlanFacts(rules, start, s, t, a, action);
    }
  }

  lemma FailStep(rules: Rules, start: State, s: State, t: State, a: Attempt)
    requires a in s.clients && ClientOk(rules, start, s, a) && (s.clients[a].operation.Inspect? || Engaged(s, a))
    requires StepFail(s, a) == Some(t)
    ensures ClientOk(rules, start, t, a) && t == Goto(s, a, t.clients[a].progress)
  {
    hide ClientOk;
    FailFacts(rules, start, s, t, a);
    Moved(rules, start, s, a, t.clients[a].progress);
  }

  lemma FailFacts(rules: Rules, start: State, s: State, t: State, a: Attempt)
    requires a in s.clients && ClientOk(rules, start, s, a) && (s.clients[a].operation.Inspect? || Engaged(s, a))
    requires StepFail(s, a) == Some(t)
    ensures t == Goto(s, a, t.clients[a].progress)
    ensures var p := t.clients[a].progress;
      && (BeforeRename(p) ==> s.clients[a].entry == None)
      && ProgressOk(rules, start, s, s.clients[a].(progress := p)) && (a in s.temps ==> TempLeft(p))
      && (s.clients[a].operation.Inspect? ==> InspectOk(p))
      && (Engaged(s, a) ==> EngagedOk(rules, start, s, s.clients[a].operation, p, s.clients[a].entry))
  {
    hide PlannedFor, LegacyAt, JobOk, TempOk, IsCurrent, IsLegacyJob, VersionOk, IsFinal, L.BeforeLink;
  }

  lemma RemoveStep(rules: Rules, start: State, s: State, t: State, a: Attempt, action: Action)
    requires a in s.clients && ClientOk(rules, start, s, a) && Engaged(s, a)
    requires StepRemove(s, a, action) == Some(t) && !action.UnlinkOld?
    ensures ClientOk(rules, start, t, a) && t == Goto(s, a, t.clients[a].progress)
  {
    hide PlannedFor, LegacyAt, L.BeforeLink;
  }

  /** The steps that create and fill the temporary file: they touch no other file. */
  lemma OpenTempStep(rules: Rules, start: State, s: State, t: State, a: Attempt, i: Inode)
    requires a in s.clients && ClientOk(rules, start, s, a) && Engaged(s, a)
    requires forall i :: IsFinal(start, s.log, i) ==> i in s.files
    requires StepWrite(s, a, OpenTemp(i)) == Some(t)
    ensures ClientOk(rules, start, t, a) && Local(start, s, t, a) && t.clients[a].entry == s.clients[a].entry
    ensures t.registry == s.registry && t.legacy == s.legacy && t.log == s.log
  {
    hide PlannedFor, LegacyAt, IsFinal, Stored, L.BeforeLink;
  }

  lemma WriteTempStep(rules: Rules, start: State, s: State, t: State, a: Attempt, n: nat)
    requires a in s.clients && ClientOk(rules, start, s, a) && Engaged(s, a)
    requires forall i :: IsFinal(start, s.log, i) ==> i in s.files
    requires StepWrite(s, a, WriteTemp(n)) == Some(t)
    ensures ClientOk(rules, start, t, a) && Local(start, s, t, a) && t.clients[a].entry == s.clients[a].entry
    ensures t.registry == s.registry && t.legacy == s.legacy && t.log == s.log
  {
    hide PlannedFor, LegacyAt, IsFinal, Stored, L.BeforeLink;
  }

  lemma CheckStep(rules: Rules, start: State, s: State, t: State, a: Attempt, action: Action)
    requires a in s.clients && ClientOk(rules, start, s, a) && Engaged(s, a) && StepWrite(s, a, action) == Some(t)
    requires action.FinishTemp? || action.CheckTarget?
    ensures ClientOk(rules, start, t, a) && t == Goto(s, a, t.clients[a].progress)
  {
    hide PlannedFor, LegacyAt, IsFinal, Stored, L.BeforeLink;
  }

  lemma CleanStep(rules: Rules, start: State, s: State, t: State, a: Attempt, action: Action)
    requires a in s.clients && ClientOk(rules, start, s, a) && Engaged(s, a) && StepWrite(s, a, action) == Some(t)
    requires action.CleanTemp?
    ensures ClientOk(rules, start, t, a) && Local(start, s, t, a) && t.clients[a].entry == s.clients[a].entry && SameShared(s, t)
  {
    hide PlannedFor, LegacyAt, IsFinal, Stored, L.BeforeLink;
  }

  /** Every document in the history is the empty one or can be read from a file. */
  lemma ReadableAt(rules: Rules, start: State, s: State, n: nat)
    requires RoundTrips(rules) && n <= |s.log| && DocumentAt(rules, start, s.log, n).Some?
    requires forall k :: 0 <= k < |s.log| ==> InstallOk(rules, start, s, k)
    ensures Readable(rules, DocumentAt(rules, start, s.log, n).value)
  {
    if n > 0 {
      assert InstallOk(rules, start, s, n - 1);
      var i := s.log[n - 1];
      assert rules.read(s.files[i.inode]) == Some(i.after);
    }
  }

  lemma ConfirmSettles(rules: Rules, start: State, s: State, a: Attempt)
    requires Lawful(rules) && a in s.clients && ClientOk(rules, start, s, a) && Engaged(s, a)
    requires forall k :: 0 <= k < |s.log| ==> InstallOk(rules, start, s, k)
    requires s.clients[a].progress.Renamed? && s.clients[a].progress.job.former.Some?
    ensures s.clients[a].operation.Migrate?
    ensures SettledIn(rules, Some(s.clients[a].progress.job.next), LegacyAt(rules, start))
  {
    hide InstallOk, L.BeforeLink;
    var job := s.clients[a].progress.job;
    ReadableAt(rules, start, s, job.base.version.position);
    assert ReadableLegacy(rules, LegacyAt(rules, start).value);
  }

  lemma ConfirmStep(rules: Rules, start: State, s: State, t: State, a: Attempt)
    requires Lawful(rules) && a in s.clients && ClientOk(rules, start, s, a) && Engaged(s, a)
    requires forall k :: 0 <= k < |s.log| ==> InstallOk(rules, start, s, k)
    requires StepWrite(s, a, Confirm) == Some(t)
    ensures ClientOk(rules, start, t, a) && t == Goto(s, a, t.clients[a].progress)
  {
    hide InstallOk, SettledIn, LegacyAt, PlannedFor, Lawful, Stored;
    if s.clients[a].progress.job.former.Some? {
      ConfirmSettles(rules, start, s, a);
    }
  }

  /** The rename: the log grows by the document that the registry file now holds. */
  lemma RenameLog(rules: Rules, start: State, s: State, t: State, a: Attempt)
    requires a in s.clients && ClientOk(rules, start, s, a) && Engaged(s, a) && StepWrite(s, a, Rename) == Some(t)
    ensures Local(start, s, t, a) && RegistryOk(start, t) && |t.log| == |s.log| + 1
    ensures InstallOk(rules, start, t, |s.log|)
  {
    hide PlannedFor, LegacyAt, IsFinal, Stored;
    assert DocumentAt(rules, start, t.log, |s.log|) == DocumentAt(rules, start, s.log, |s.log|);
  }

  lemma RenameStep(rules: Rules, start: State, s: State, t: State, a: Attempt)
    requires a in s.clients && ClientOk(rules, start, s, a) && Engaged(s, a) && StepWrite(s, a, Rename) == Some(t)
    ensures ClientOk(rules, start, t, a)
  {
    hide LegacyAt, IsFinal, Stored;
    var job := s.clients[a].progress.job;
    VersionGrows(rules, start, s.log, t.log, job.base.version);
  }

  /** When the legacy file goes, the document in the registry has its record and a primary. */
  lemma UnlinkStep(rules: Rules, start: State, s: State, t: State, a: Attempt)
    requires a in s.clients && ClientOk(rules, start, s, a) && Engaged(s, a) && StepRemove(s, a, UnlinkOld) == Some(t)
    ensures ClientOk(rules, start, t, a) && Local(start, s, t, a) && LegacyOk(rules, start, t)
    ensures t.registry == s.registry && t.log == s.log && t.clients[a].entry == s.clients[a].entry
    ensures s.legacy == start.legacy && SettledIn(rules, DocumentAt(rules, start, s.log, |s.log|), LegacyAt(rules, start))
  {
    hide PlannedFor, LegacyAt, IsFinal, Stored;
    var version := s.clients[a].progress.version;
    assert SettledIn(rules, DocumentAt(rules, start, t.log, version.position), LegacyAt(rules, start));
  }

  // ---- every step keeps the invariant

  /** The installs already in the log stay as they are. */
  lemma InstallStays(rules: Rules, start: State, s: State, t: State, a: Attempt, k: nat)
    requires k < |s.log| && InstallOk(rules, start, s, k) && Local(start, s, t, a)
    requires s.clients[a].entry.Some? ==> t.clients[a].entry == s.clients[a].entry
    ensures InstallOk(rules, start, t, k)
  {
    hide Stored;
    assert t.log[k] == s.log[k] && IsFinal(start, s.log, s.log[k].inode);
    assert k > 0 ==> t.log[k - 1] == s.log[k - 1];
  }

  lemma LegacyStays(rules: Rules, start: State, s: State, t: State)
    requires LegacyOk(rules, start, s) && t.legacy == s.legacy && s.log <= t.log
    ensures LegacyOk(rules, start, t)
  {
    hide SettledIn, LegacyAt, Stored;
    if s.legacy != start.legacy {
      var n: nat :| n <= |s.log| && SettledIn(rules, DocumentAt(rules, start, s.log, n), LegacyAt(rules, start));
      assert DocumentAt(rules, start, t.log, n) == DocumentAt(rules, start, s.log, n);
    }
  }

  /** The invariant after a step of `a`, from what holds of `a` and of the shared files. */
  lemma AssembleInv(rules: Rules, start: State, s: State, t: State, a: Attempt)
    requires Inv(rules, start, s) && Local(start, s, t, a) && (SameShared(s, t) || Engaged(s, a))
    requires s.clients[a].entry.Some? ==> t.clients[a].entry == s.clients[a].entry
    requires ClientOk(rules, start, t, a) && RegistryOk(start, t) && LegacyOk(rules, start, t)
    requires t.log == s.log || (|t.log| == |s.log| + 1 && InstallOk(rules, start, t, |s.log|))
    ensures Inv(rules, start, t)
  {
    hide L.Inv, ClientOk, InstallOk, LegacyOk;
    forall k | 0 <= k < |t.log| ensures InstallOk(rules, start, t, k) {
      if k < |s.log| {
        InstallStays(rules, start, s, t, a, k);
      }
    }
    forall b | b in t.clients ensures ClientOk(rules, start, t, b) {
      if b != a {
        if SameShared(s, t) {
          OtherClientUndisturbed(rules, start, s, t, a, b);
        } else {
          if Engaged(s, b) {
            OneEngaged(rules, s, a, b);
          }
          OtherClient(rules, start, s, t, a, b);
        }
      }
    }
  }

  lemma MoveKeepsInv(rules: Rules, start: State, s: State, a: Attempt, p: Progress)
    requires Inv(rules, start, s) && a in s.clients && ClientOk(rules, start, Goto(s, a, p), a)
    ensures Inv(rules, start, Goto(s, a, p))
  {
    hide L.Inv, ClientOk, InstallOk, LegacyAt, SettledIn, IsFinal;
    AssembleInv(rules, start, s, Goto(s, a, p), a);
  }

  lemma FinalFilesExist(rules: Rules, start: State, s: State)
    requires Inv(rules, start, s)
    ensures forall i :: IsFinal(start, s.log, i) ==> i in s.files
  {
    hide L.Inv, ClientOk;
    forall i | IsFinal(start, s.log, i) ensures i in s.files {
      if i !in start.files {
        var k :| 0 <= k < |s.log| && s.log[k].inode == i;
        assert InstallOk(rules, start, s, k);
      }
    }
  }

  lemma WriteKeepsInv(rules: Rules, start: State, s: State, t: State, a: Attempt, action: Action)
    requires Initial(start) && Lawful(rules) && Inv(rules, start, s) && a in s.clients && Engaged(s, a)
    requires StepWrite(s, a, action) == Some(t)
    ensures Inv(rules, start, t)
  {
    hide L.Inv, ClientOk, InstallOk, LegacyAt, SettledIn, IsFinal, Lawful, Stored, LegacyOk, EngagedOk, ProgressOk;
    assert ClientOk(rules, start, s, a);
    if action.Rename? {
      RenameLog(rules, start, s, t, a);
      RenameStep(rules, start, s, t, a);
      RenameEntry(rules, start, s, a);
      LegacyStays(rules, start, s, t);
      AssembleInv(rules, start, s, t, a);
    } else if action.Confirm? {
      ConfirmStep(rules, start, s, t, a);
      MoveKeepsInv(rules, start, s, a, t.clients[a].progress);
    } else if action.OpenTemp? || action.WriteTemp? {
      FinalFilesExist(rules, start, s);
      if action.OpenTemp? {
        OpenTempStep(rules, start, s, t, a, action.inode);
      } else {
        WriteTempStep(rules, start, s, t, a, action.count);
      }
      LegacyStays(rules, start, s, t);
      AssembleInv(rules, start, s, t, a);
    } else if action.CleanTemp? {
      CleanStep(rules, start, s, t, a, action);
      LegacyStays(rules, start, s, t);
      AssembleInv(rules, start, s, t, a);
    } else {
      CheckStep(rules, start, s, t, a, action);
      MoveKeepsInv(rules, start, s, a, t.clients[a].progress);
    }
  }

  lemma RenameEntry(rules: Rules, start: State, s: State, a: Attempt)
    requires a in s.clients && ClientOk(rules, start, s, a) && StepWrite(s, a, Rename).Some?
    ensures s.clients[a].entry == None
  {
    hide EngagedOk, ProgressOk, PlannedFor, L.BeforeLink;
  }

  lemma BodyKeepsInv(rules: Rules, start: State, s: State, a: Attempt, action: Action)
    requires Initial(start) && Lawful(rules) && Inv(rules, start, s) && Step(rules, s, Body(a, action)).Some?
    ensures Inv(rules, start, Step(rules, s, Body(a, action)).value)
  {
    hide L.Inv, ClientOk, InstallOk, LegacyAt, SettledIn, IsFinal, Stored, LegacyOk, EngagedOk, ProgressOk, L.Step, SharedOk,
      StepRead, StepDecide, StepWrite, StepRemove, StepFail, RoundTrips, CountsRevisions, Settles;
    var t := Step(rules, s, Body(a, action)).value;
    var p := s.clients[a].progress;
    assert ClientOk(rules, start, s, a);
    if s.clients[a].operation.Inspect? {
      InspectsNothingElse(rules, start, s, a);
    }
    if action.Fail? {
      FailStep(rules, start, s, t, a);
      MoveKeepsInv(rules, start, s, a, t.clients[a].progress);
    } else if action.Decide? {
      DecideStep(rules, start, s, t, a, action);
      MoveKeepsInv(rules, start, s, a, t.clients[a].progress);
    } else if p.Removing? || p.RemovalStatted? || p.Removed? {
      RemoveKeepsInv(rules, start, s, t, a, action);
    } else if p.Preparing? || p.Writing? || p.Written? || p.Checked? || p.Renamed? || p.Cleaning? {
      WriteKeepsInv(rules, start, s, t, a, action);
    } else {
      SharedFacts(rules, start, s);
      ReadStep(rules, start, s, t, a, action);
      MoveKeepsInv(rules, start, s, a, t.clients[a].progress);
    }
  }

  lemma InspectsNothingElse(rules: Rules, start: State, s: State, a: Attempt)
    requires a in s.clients && ClientOk(rules, start, s, a) && s.clients[a].operation.Inspect?
    ensures InspectOk(s.clients[a].progress)
  {
    hide EngagedOk, ProgressOk, PlannedFor, L.BeforeLink;
  }

  lemma RemoveKeepsInv(rules: Rules, start: State, s: State, t: State, a: Attempt, action: Action)
    requires Inv(rules, start, s) && a in s.clients && Engaged(s, a) && StepRemove(s, a, action) == Some(t)
    ensures Inv(rules, start, t)
  {
    hide L.Inv, ClientOk, InstallOk, LegacyAt, SettledIn, IsFinal, Stored, LegacyOk, EngagedOk, ProgressOk;
    assert ClientOk(rules, start, s, a);
    if action.UnlinkOld? {
      UnlinkStep(rules, start, s, t, a);
      AssembleInv(rules, start, s, t, a);
    } else {
      RemoveStep(rules, start, s, t, a, action);
      MoveKeepsInv(rules, start, s, a, t.clients[a].progress);
    }
  }

  /** The attempt moves from `was` to `pc`: never back in front of its transaction, and into it only from the last step before. */
  predicate ForwardMove(was: L.Pc, pc: L.Pc) {
    && (pc.Inside? ==> was.Inside? || was.Syncing?)
    && (InFront(pc) ==> InFront(was))
  }

  /** Only the attempt itself moves, and it moves forward. */
  predicate MovesOne(s: L.State, t: L.State, a: Attempt) {
    && a in s.attempts && a in t.attempts
    && t.attempts == s.attempts[a := s.attempts[a].(pc := t.attempts[a].pc)]
    && ForwardMove(s.attempts[a].pc, t.attempts[a].pc)
  }

  lemma ClaimMoves(format: LockFile.Format, s: L.State, t: L.State, a: Attempt, action: L.Action)
    requires a in s.attempts && L.StepClaim(format, s, a, action) == Some(t)
    ensures MovesOne(s, t, a)
  {
  }

  lemma InspectMoves(format: LockFile.Format, s: L.State, t: L.State, a: Attempt, action: L.Action)
    requires a in s.attempts && L.StepInspect(format, s, a, action) == Some(t) && L.BeforeLink(s.attempts[a].pc)
    ensures MovesOne(s, t, a)
  {
  }

  lemma SettleMoves(format: LockFile.Format, s: L.State, t: L.State, a: Attempt, action: L.Action)
    requires a in s.attempts && L.StepSettle(s, a, action) == Some(t)
    ensures MovesOne(s, t, a)
  {
  }

  lemma ReleaseMoves(format: LockFile.Format, s: L.State, t: L.State, a: Attempt, action: L.Action)
    requires a in s.attempts && L.StepRelease(s, a, action) == Some(t)
    ensures MovesOne(s, t, a)
  {
  }

  lemma ActMoves(format: LockFile.Format, s: L.State, t: L.State, a: Attempt, action: L.Action)
    requires a in s.attempts && L.Act(format, s, a, action) == Some(t)
    ensures MovesOne(s, t, a)
  {
    hide L.StepClaim, L.StepInspect, L.StepSettle, L.StepRelease, MovesOne;
    var pc := s.attempts[a].pc;
    if pc.Opening? || pc.Writing? {
      ClaimMoves(format, s, t, a, action);
    } else if L.BeforeLink(pc) {
      InspectMoves(format, s, t, a, action);
    } else if pc.Linked? || pc.Syncing? || pc.UndoStat? || pc.UndoUnlink? || pc.Cleanup? {
      SettleMoves(format, s, t, a, action);
    } else {
      ReleaseMoves(format, s, t, a, action);
    }
  }

  /** How one lock event, other than a new attempt, can change an attempt. */
  lemma LockMoves(format: LockFile.Format, s: L.State, t: L.State, e: L.Event)
    requires L.Step(format, s, e) == Some(t) && !e.Spawn?
    ensures t.attempts.Keys == s.attempts.Keys
    ensures forall b :: b in s.attempts ==>
      (t.attempts[b].alive ==> s.attempts[b].alive) && ForwardMove(s.attempts[b].pc, t.attempts[b].pc)
  {
    hide L.Act, L.BeforeLink;
    if e.Do? {
      ActMoves(format, s, t, e.attempt, e.action);
    }
  }

  lemma LockKeepsClient(rules: Rules, start: State, s: State, t: State, e: L.Event, b: Attempt)
    requires b in s.clients && ClientOk(rules, start, s, b) && L.Step(rules.lock, s.lock, e) == Some(t.lock) && !e.Spawn?
    requires t == s.(lock := t.lock)
    ensures ClientOk(rules, start, t, b)
  {
    hide L.Step, EngagedOk, ProgressOk, PlannedFor, L.BeforeLink, BeforeRename, TempLeft, InspectOk;
    LockMoves(rules.lock, s.lock, t.lock, e);
    LockContext(rules, start, s, t, b);
  }

  /** What is said of a client's progress does not depend on the lock, and a client that has not begun satisfies it. */
  lemma LockContext(rules: Rules, start: State, s: State, t: State, b: Attempt)
    requires b in s.clients && t == s.(lock := t.lock)
    ensures ProgressOk(rules, start, s, s.clients[b]) ==> ProgressOk(rules, start, t, t.clients[b])
    ensures var c := s.clients[b];
      && (c.progress.Start? ==> EngagedOk(rules, start, t, c.operation, c.progress, c.entry))
      && (EngagedOk(rules, start, s, c.operation, c.progress, c.entry) ==> EngagedOk(rules, start, t, c.operation, c.progress, c.entry))
  {
    hide VersionOk, IsFinal;
  }

  lemma LockKeepsInv(rules: Rules, start: State, s: State, e: L.Event)
    requires LockFile.ReadsBack(rules.lock) && Inv(rules, start, s) && Step(rules, s, Lock(e)).Some? && !L.HeldUnlink(s.lock, e)
    ensures Inv(rules, start, Step(rules, s, Lock(e)).value)
  {
    hide L.Inv, L.Step, ClientOk, LegacyAt, SettledIn;
    var t := Step(rules, s, Lock(e)).value;
    L.StepKeepsInv(rules.lock, s.lock, e);
    forall b | b in t.clients ensures ClientOk(rules, start, t, b) {
      LockKeepsClient(rules, start, s, t, e, b);
    }
    forall k | 0 <= k < |t.log| ensures InstallOk(rules, start, t, k) {
      assert InstallOk(rules, start, s, k);
    }
  }

  /** A new client changes nothing about the others. */
  lemma SubmitKeepsClient(rules: Rules, start: State, s: State, t: State, a: Attempt, b: Attempt)
    requires b in s.clients && a !in s.clients && a in t.clients && ClientOk(rules, start, s, b)
    requires t == s.(lock := t.lock, clients := s.clients[a := t.clients[a]])
    requires forall c :: c != a ==> (c in t.lock.attempts <==> c in s.lock.attempts)
    requires forall c :: c != a && c in s.lock.attempts ==> t.lock.attempts[c] == s.lock.attempts[c]
    ensures ClientOk(rules, start, t, b)
  {
    hide EngagedOk, ProgressOk, PlannedFor, L.BeforeLink;
    SubmitContext(rules, start, s, t, a, b);
  }

  lemma SubmitContext(rules: Rules, start: State, s: State, t: State, a: Attempt, b: Attempt)
    requires b in s.clients && a !in s.clients && a in t.clients && t == s.(lock := t.lock, clients := s.clients[a := t.clients[a]])
    ensures ProgressOk(rules, start, s, s.clients[b]) ==> ProgressOk(rules, start, t, t.clients[b])
    ensures var c := s.clients[b];
      EngagedOk(rules, start, s, c.operation, c.progress, c.entry) ==> EngagedOk(rules, start, t, c.operation, c.progress, c.entry)
  {
    hide VersionOk, IsFinal;
  }

  /** What a submission does: a new client, and for a transaction a new attempt at the lock. */
  lemma SubmitShape(rules: Rules, s: State, t: State, e: Event)
    requires e.Submit? && Step(rules, s, e) == Some(t)
    ensures e.attempt !in s.clients && e.attempt in t.clients
    ensures t == s.(lock := t.lock, clients := s.clients[e.attempt := t.clients[e.attempt]])
    ensures t.lock == s.lock || L.Step(rules.lock, s.lock, L.Spawn(e.attempt, e.metadata)) == Some(t.lock)
    ensures forall c :: c != e.attempt ==> (c in t.lock.attempts <==> c in s.lock.attempts)
    ensures forall c :: c != e.attempt && c in s.lock.attempts ==> t.lock.attempts[c] == s.lock.attempts[c]
  {
    hide L.Act;
  }

  lemma NewClient(rules: Rules, start: State, s: State, t: State, e: Event)
    requires e.Submit? && Step(rules, s, e) == Some(t) && TempsHaveClients(s)
    ensures ClientOk(rules, start, t, e.attempt)
  {
    hide L.Act, L.BeforeLink;
  }

  lemma SubmitKeepsInv(rules: Rules, start: State, s: State, e: Event)
    requires LockFile.ReadsBack(rules.lock) && Inv(rules, start, s) && e.Submit? && Step(rules, s, e).Some?
    ensures Inv(rules, start, Step(rules, s, e).value)
  {
    hide L.Inv, ClientOk, L.Step, Step, DocumentAt, FilesOk, LegacyOk, RegistryOk;
    var t := Step(rules, s, e).value;
    SubmitShape(rules, s, t, e);
    SubmitInstalls(rules, start, s, t, e.attempt);
    if t.lock != s.lock {
      L.StepKeepsInv(rules.lock, s.lock, L.Spawn(e.attempt, e.metadata));
    }
    NewClient(rules, start, s, t, e);
    forall b | b in t.clients ensures ClientOk(rules, start, t, b) {
      if b != e.attempt {
        SubmitKeepsClient(rules, start, s, t, e.attempt, b);
      }
    }
  }

  lemma SubmitInstalls(rules: Rules, start: State, s: State, t: State, a: Attempt)
    requires a !in s.clients && a in t.clients && t == s.(lock := t.lock, clients := s.clients[a := t.clients[a]])
    requires forall k :: 0 <= k < |s.log| ==> InstallOk(rules, start, s, k)
    requires FilesOk(start, s) && RegistryOk(start, s) && LegacyOk(rules, start, s) && TempsHaveClients(s)
    ensures forall k :: 0 <= k < |t.log| ==> InstallOk(rules, start, t, k)
    ensures FilesOk(start, t) && RegistryOk(start, t) && LegacyOk(rules, start, t) && TempsHaveClients(t)
  {
    hide LegacyAt, SettledIn, Stored;
    forall k | 0 <= k < |t.log| ensures InstallOk(rules, start, t, k) {
      assert InstallOk(rules, start, s, k);
    }
  }
}
