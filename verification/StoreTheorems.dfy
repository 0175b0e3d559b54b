/** The main results about the registry file store, for every run and any lawful format. */
module StoreTheorems {
  import opened Options
  import opened Records
  import opened RegistryDocument
  import opened Migration
  import opened RegistryStore
  import opened StoreSafety
  import L = LockProtocol

  lemma InitialInv(rules: Rules, start: State)
    requires Initial(start)
    ensures Inv(rules, start, start)
  {
    assert L.Inv(rules.lock, L.INITIAL);
  }

  lemma StepKeepsInv(rules: Rules, start: State, s: State, e: Event)
    requires Initial(start) && Lawful(rules) && Inv(rules, start, s) && Step(rules, s, e).Some? && !HeldBreak(s, e)
    ensures Inv(rules, start, Step(rules, s, e).value)
  {
    hide Inv, Step, RoundTrips, CountsRevisions, Settles;
    match e
    case Submit(_, _, _) => SubmitKeepsInv(rules, start, s, e);
    case Lock(lockEvent) => LockKeepsInv(rules, start, s, lockEvent);
    case Body(a, action) => BodyKeepsInv(rules, start, s, a, action);
  }

  lemma {:induction false} RunFromKeepsInv(rules: Rules, start: State, s: State, events: seq<Event>)
    requires Initial(start) && Lawful(rules) && Inv(rules, start, s) && Run(rules, s, events).Some? && SafeBreaks(rules, s, events)
    ensures Inv(rules, start, Run(rules, s, events).value)
    decreases |events|
  {
    hide Inv, Step, Lawful, Initial, HeldBreak;
    if events != [] {
      StepKeepsInv(rules, start, s, events[0]);
      RunFromKeepsInv(rules, start, Step(rules, s, events[0]).value, events[1..]);
    }
  }

  /** `s` is reached from `start`, and no break of a stale lock takes away a lock that is held. */
  ghost predicate Reaches(rules: Rules, start: State, events: seq<Event>, s: State) {
    Initial(start) && Run(rules, start, events) == Some(s) && SafeBreaks(rules, start, events)
  }

  lemma ReachesInv(rules: Rules, start: State, events: seq<Event>, s: State)
    requires Lawful(rules) && Reaches(rules, start, events, s)
    ensures Inv(rules, start, s)
  {
    hide Inv, Run, SafeBreaks, Lawful;
    InitialInv(rules, start);
    RunFromKeepsInv(rules, start, start, events);
  }

  lemma {:induction false} AtomicIsSafe(rules: Rules, start: State, s: State, events: seq<Event>)
    requires Initial(start) && Lawful(rules) && Inv(rules, start, s) && Run(rules, s, events).Some? && AtomicBreaks(rules, s, events)
    ensures SafeBreaks(rules, s, events)
    decreases |events|
  {
    hide Inv, Step, Lawful, Initial, HeldBreak, LateBreak;
    if events != [] {
      LateOrDead(rules, start, s, events[0]);
      StepKeepsInv(rules, start, s, events[0]);
      AtomicIsSafe(rules, start, Step(rules, s, events[0]).value, events[1..]);
    }
  }

  lemma LateOrDead(rules: Rules, start: State, s: State, e: Event)
    requires Inv(rules, start, s) && !LateBreak(s, e)
    ensures !HeldBreak(s, e)
  {
    hide L.Inv, ClientOk, InstallOk, L.LateUnlink, L.HeldUnlink, LegacyOk;
    if e.Lock? {
      L.LateOrDead(rules.lock, s.lock, e.event);
    }
  }

  /** Runs in which the stat and the unlink of `unlinkIfSame` act as one step are among those considered. */
  lemma AtomicBreaksReach(rules: Rules, start: State, events: seq<Event>, s: State)
    requires Lawful(rules) && Initial(start) && Run(rules, start, events) == Some(s) && AtomicBreaks(rules, start, events)
    ensures Reaches(rules, start, events, s)
  {
    hide Inv, Run, SafeBreaks, AtomicBreaks, Lawful;
    InitialInv(rules, start);
    AtomicIsSafe(rules, start, start, events);
  }

  // ---- commits

  /** The document that the logged proposals lead to, one after the other. */
  function Replay(rules: Rules, d: Option<Document>, log: seq<Install>): Option<Document>
    decreases |log|
  {
    if log == [] then d else
    var before := Replay(rules, d, log[..|log| - 1]);
    if before.None? then None else rules.next(before.value, log[|log| - 1].proposed)
  }

  lemma {:induction false} ReplayReaches(rules: Rules, start: State, s: State, n: nat)
    requires n <= |s.log| && forall k :: 0 <= k < |s.log| ==> InstallOk(rules, start, s, k)
    ensures Replay(rules, Stored(rules, start), s.log[..n]) == DocumentAt(rules, start, s.log, n)
  {
    hide Stored;
    if n > 0 {
      ReplayReaches(rules, start, s, n - 1);
      assert InstallOk(rules, start, s, n - 1);
      assert s.log[..n][..n - 1] == s.log[..n - 1];
    }
  }

  /** The registry file is the fold of all installed proposals over the first document; each adds one to the revision. */
  lemma FileIsFoldOfCommits(rules: Rules, start: State, events: seq<Event>, s: State)
    requires Lawful(rules) && Reaches(rules, start, events, s)
    ensures Stored(rules, s) == Replay(rules, Stored(rules, start), s.log)
    ensures forall k :: 0 <= k < |s.log| ==> s.log[k].after.revision == s.log[k].before.revision + 1
  {
    hide Reaches, L.Inv, ClientOk, Replay, Stored;
    ReachesInv(rules, start, events, s);
    assert Initial(start) by { ReachesInitial(rules, start, events, s); }
    SharedFacts(rules, start, s);
    ReplayReaches(rules, start, s, |s.log|);
    assert s.log[..|s.log|] == s.log;
    forall k | 0 <= k < |s.log| ensures s.log[k].after.revision == s.log[k].before.revision + 1 {
      assert InstallOk(rules, start, s, k);
      assert rules.next(s.log[k].before, s.log[k].proposed).Some?;
    }
  }

  lemma ReachesInitial(rules: Rules, start: State, events: seq<Event>, s: State)
    requires Reaches(rules, start, events, s)
    ensures Initial(start)
  {
  }

  /** `a` has installed exactly one document, as the `k`-th of the log. */
  predicate InstalledOnce(s: State, a: Attempt, k: nat) {
    k < |s.log| && s.log[k].attempt == a && forall j :: 0 <= j < |s.log| && s.log[j].attempt == a ==> j == k
  }

  /**
   No update is lost: a commit that succeeds has installed exactly one document, made by its
   own proposal from the document current at that point, whose revision was the expected one;
   that is the document it returns.
   */
  lemma CommitsLoseNoUpdate(rules: Rules, start: State, events: seq<Event>, s: State, a: Attempt)
    requires Lawful(rules) && Reaches(rules, start, events, s)
    requires a in s.clients && s.clients[a].operation.Commit? && s.clients[a].progress.Done? && s.clients[a].progress.outcome.Success?
    ensures s.clients[a].entry.Some? && InstalledOnce(s, a, s.clients[a].entry.value)
    ensures var k, v := s.clients[a].entry.value, s.clients[a].progress.outcome.version;
      && s.log[k].before.revision == s.clients[a].operation.expected
      && DocumentAt(rules, start, s.log, k) == Some(s.log[k].before)
      && rules.next(s.log[k].before, s.log[k].proposed) == Some(s.log[k].after)
      && v == Version(s.log[k].after, k + 1)
  {
    hide Reaches, L.Inv, Stored, LegacyAt, IsFinal, PlannedFor, EngagedOk, L.BeforeLink, Lawful;
    ReachesInv(rules, start, events, s);
    assert ClientOk(rules, start, s, a);
    OneInstallEach(rules, start, s, a);
    assert InstallOk(rules, start, s, s.clients[a].entry.value);
  }

  /** A client's installs are the one its record names, if any. */
  lemma OneInstallEach(rules: Rules, start: State, s: State, a: Attempt)
    requires Inv(rules, start, s) && a in s.clients
    ensures forall j :: 0 <= j < |s.log| && s.log[j].attempt == a ==> s.clients[a].entry == Some(j)
  {
    hide L.Inv, ClientOk, DocumentAt;
    forall j | 0 <= j < |s.log| && s.log[j].attempt == a ensures s.clients[a].entry == Some(j) {
      assert InstallOk(rules, start, s, j);
    }
  }

  /** A conflict is reported only if the expected revision cannot be one, or a stored document was not at it. */
  lemma ConflictsAreReal(rules: Rules, start: State, events: seq<Event>, s: State, a: Attempt) returns (n: nat)
    requires Lawful(rules) && Reaches(rules, start, events, s)
    requires a in s.clients && s.clients[a].operation.Commit? && s.clients[a].progress == Done(Conflict)
    ensures BadRevision(s.clients[a].operation)
      || (&& n <= |s.log| && DocumentAt(rules, start, s.log, n).Some?
          && DocumentAt(rules, start, s.log, n).value.revision != s.clients[a].operation.expected)
  {
    hide Reaches, L.Inv, Stored, EntryOk, EngagedOk, L.BeforeLink, Lawful, InstallOk, LegacyOk, DocumentAt, BadRevision;
    ReachesInv(rules, start, events, s);
    assert ClientOk(rules, start, s, a);
    n := 0;
    if !BadRevision(s.clients[a].operation) {
      n :| n <= |s.log| && OtherRevision(rules, start, s.log, n, s.clients[a].operation.expected);
    }
  }

  /** Every install raises the revision by one. */
  lemma {:induction false} RevisionsRise(rules: Rules, start: State, s: State, m: nat, n: nat)
    requires CountsRevisions(rules) && m <= n <= |s.log| && DocumentAt(rules, start, s.log, m).Some?
    requires forall k :: 0 <= k < |s.log| ==> InstallOk(rules, start, s, k)
    ensures DocumentAt(rules, start, s.log, n).Some?
    ensures DocumentAt(rules, start, s.log, n).value.revision == DocumentAt(rules, start, s.log, m).value.revision + (n - m)
    decreases n
  {
    hide Stored;
    if m < n {
      RevisionsRise(rules, start, s, m, n - 1);
      assert InstallOk(rules, start, s, n - 1);
      assert rules.next(s.log[n - 1].before, s.log[n - 1].proposed).Some?;
    }
  }

  /** A revision conflict, or any other refusal, is raised before anything is written. */
  lemma RefusalsInstallNothing(rules: Rules, start: State, events: seq<Event>, s: State, a: Attempt)
    requires Lawful(rules) && Reaches(rules, start, events, s)
    requires a in s.clients && BeforeRename(s.clients[a].progress)
    ensures forall j :: 0 <= j < |s.log| ==> s.log[j].attempt != a
  {
    hide Reaches, L.Inv, EntryOk, EngagedOk, L.BeforeLink, Lawful, ProgressOk, InstallOk;
    ReachesInv(rules, start, events, s);
    assert ClientOk(rules, start, s, a);
    OneInstallEach(rules, start, s, a);
  }

  /**
   Any operation, failed ones included, installs at most one document: none when it failed
   before its rename, and exactly the one its record names after it.
   */
  lemma InstallsAtMostOnce(rules: Rules, start: State, events: seq<Event>, s: State, a: Attempt)
    requires Lawful(rules) && Reaches(rules, start, events, s) && a in s.clients
    ensures s.clients[a].entry.None? ==> forall j :: 0 <= j < |s.log| ==> s.log[j].attempt != a
    ensures s.clients[a].entry.Some? ==> InstalledOnce(s, a, s.clients[a].entry.value)
  {
    hide Reaches, L.Inv, EngagedOk, L.BeforeLink, Lawful, ProgressOk, InstallOk;
    ReachesInv(rules, start, events, s);
    assert ClientOk(rules, start, s, a);
    OneInstallEach(rules, start, s, a);
  }

  /** A temporary file is left behind only by a write that failed, or by a process that crashed in one. */
  lemma TempsAreRemoved(rules: Rules, start: State, events: seq<Event>, s: State, a: Attempt)
    requires Lawful(rules) && Reaches(rules, start, events, s)
    requires a in s.clients && s.clients[a].progress.Done? && !s.clients[a].progress.outcome.Failed?
    ensures a !in s.temps
  {
    hide Reaches, L.Inv, EngagedOk, L.BeforeLink, Lawful, ProgressOk, InstallOk, EntryOk;
    ReachesInv(rules, start, events, s);
    assert ClientOk(rules, start, s, a);
  }

  // ---- installation

  /** The text of the registry file. */
  function RegistryText(s: State): Option<seq<int>> {
    if s.registry.Some? && s.registry.value in s.files then Some(s.files[s.registry.value]) else None
  }

  /** At every point the registry file is the original one, or holds the complete text of the document installed last. */
  lemma InstallIsAtomic(rules: Rules, start: State, events: seq<Event>, s: State)
    requires Lawful(rules) && Reaches(rules, start, events, s)
    ensures s.log == [] ==> RegistryText(s) == RegistryText(start)
    ensures s.log != [] ==> RegistryText(s).Some? && RegistryText(s) == rules.serialize(s.log[|s.log| - 1].after)
  {
    hide Reaches, L.Inv, ClientOk, Lawful, DocumentAt, LegacyOk;
    ReachesInv(rules, start, events, s);
    ReachesInitial(rules, start, events, s);
    if s.log != [] {
      assert InstallOk(rules, start, s, |s.log| - 1);
    }
  }

  /** Only a rename changes what the registry file says; every other step, and every failure and crash, leaves it. */
  lemma OnlyRenameInstalls(rules: Rules, start: State, events: seq<Event>, s: State, e: Event)
    requires Lawful(rules) && Reaches(rules, start, events, s) && Step(rules, s, e).Some? && !HeldBreak(s, e)
    requires RegistryText(Step(rules, s, e).value) != RegistryText(s)
    ensures e.Body? && e.action.Rename? && e.attempt in s.clients && s.clients[e.attempt].progress.Checked?
    ensures RegistryText(Step(rules, s, e).value) == Some(s.clients[e.attempt].progress.job.text)
  {
    hide Reaches, L.Inv, ClientOk, Lawful, LegacyOk, Inv, L.Step, Step, RegistryText;
    ReachesInv(rules, start, events, s);
    ReachesInitial(rules, start, events, s);
    LawfulRoundTrips(rules);
    SharedFacts(rules, start, s);
    if e.Body? && e.action.Rename? {
      RenameInstalls(rules, start, s, e.attempt);
    } else {
      OtherStepsInstallNothing(rules, start, s, e);
    }
  }

  lemma RenameInstalls(rules: Rules, start: State, s: State, a: Attempt)
    requires Inv(rules, start, s) && Step(rules, s, Body(a, Rename)).Some?
    ensures a in s.clients && s.clients[a].progress.Checked?
    ensures RegistryText(Step(rules, s, Body(a, Rename)).value) == Some(s.clients[a].progress.job.text)
  {
    hide L.Inv, L.Step, LegacyOk, FilesOk, InstallOk, ProgressOk, JobOk, IsFinal, L.BeforeLink;
    assert ClientOk(rules, start, s, a);
  }

  lemma LawfulRoundTrips(rules: Rules)
    requires Lawful(rules)
    ensures RoundTrips(rules)
  {
  }

  lemma LawfulCounts(rules: Rules)
    requires Lawful(rules)
    ensures CountsRevisions(rules)
  {
  }

  lemma ReachesInstalls(rules: Rules, start: State, events: seq<Event>, s: State)
    requires Lawful(rules) && Reaches(rules, start, events, s)
    ensures forall k :: 0 <= k < |s.log| ==> InstallOk(rules, start, s, k)
  {
    hide Reaches, L.Inv, ClientOk, InstallOk, Lawful;
    ReachesInv(rules, start, events, s);
  }

  /** The steps that only move the client. */
  lemma MovesKeepFiles(rules: Rules, s: State, t: State, a: Attempt, action: Action)
    requires a in s.clients
    requires || StepRead(rules, s, a, action) == Some(t) || StepDecide(rules, s, a, action) == Some(t)
             || StepRemove(s, a, action) == Some(t) || StepFail(s, a) == Some(t)
    ensures t.registry == s.registry && t.files == s.files
  {
    hide Prepare;
  }

  lemma WritesKeepFiles(s: State, t: State, a: Attempt, action: Action)
    requires a in s.clients && StepWrite(s, a, action) == Some(t) && !action.Rename?
    ensures t.registry == s.registry
    ensures forall i :: i in s.files && !(s.clients[a].progress.Writing? && s.clients[a].progress.temp == i) ==>
      i in t.files && t.files[i] == s.files[i]
  {
  }

  /** Apart from the rename, a client's step writes to no file but its own temporary one. */
  lemma StepFiles(rules: Rules, s: State, t: State, a: Attempt, action: Action)
    requires a in s.clients && Act(rules, s, a, action) == Some(t) && !action.Rename?
    ensures t.registry == s.registry
    ensures forall i :: i in s.files && !(s.clients[a].progress.Writing? && s.clients[a].progress.temp == i) ==>
      i in t.files && t.files[i] == s.files[i]
  {
    hide StepRead, StepDecide, StepRemove, StepFail, StepWrite;
    if StepWrite(s, a, action) == Some(t) {
      WritesKeepFiles(s, t, a, action);
    } else {
      MovesKeepFiles(rules, s, t, a, action);
    }
  }

  lemma WritingTempIsPrivate(rules: Rules, start: State, s: State, a: Attempt)
    requires Inv(rules, start, s) && a in s.clients && s.clients[a].progress.Writing? && Engaged(s, a)
    ensures !IsFinal(start, s.log, s.clients[a].progress.temp)
  {
    hide L.Inv, LegacyOk, FilesOk, InstallOk, ProgressOk, JobOk, IsFinal, L.BeforeLink;
    assert ClientOk(rules, start, s, a);
  }

  lemma InspectNeverWrites(rules: Rules, start: State, s: State, a: Attempt)
    requires Inv(rules, start, s) && a in s.clients && s.clients[a].operation.Inspect?
    ensures !s.clients[a].progress.Writing?
  {
    hide L.Inv, LegacyOk, FilesOk, InstallOk, ProgressOk, EngagedOk, L.BeforeLink;
    assert ClientOk(rules, start, s, a);
  }

  lemma OtherStepsInstallNothing(rules: Rules, start: State, s: State, e: Event)
    requires Inv(rules, start, s) && SharedOk(rules, start, s) && Step(rules, s, e).Some? && !(e.Body? && e.action.Rename?)
    ensures RegistryText(Step(rules, s, e).value) == RegistryText(s)
  {
    hide Inv, L.Step, Act, IsFinal;
    if e.Body? {
      StepFiles(rules, s, Step(rules, s, e).value, e.attempt, e.action);
      if s.clients[e.attempt].progress.Writing? {
        if s.clients[e.attempt].operation.Inspect? {
          InspectNeverWrites(rules, start, s, e.attempt);
        } else {
          WritingTempIsPrivate(rules, start, s, e.attempt);
        }
      }
    }
  }

  // ---- reads, and when an operation takes effect

  /** The version that a client has read or produced. */
  function VersionOf(p: Progress): Option<Version> {
    match p
    case Statted(_, before, _) => SnapshotVersion(before)
    case Opened(_, before, _) => SnapshotVersion(before)
    case Fetched(_, before, _, _) => SnapshotVersion(before)
    case Loaded(base) => Some(base.version)
    case LoadedBoth(base, _) => Some(base.version)
    case Preparing(job) => Some(job.base.version)
    case Writing(job, _) => Some(job.base.version)
    case Written(job, _) => Some(job.base.version)
    case Checked(job, _) => Some(job.base.version)
    case Renamed(job) => Some(job.base.version)
    case Removing(_, version) => Some(version)
    case RemovalStatted(_, version) => Some(version)
    case Removed(version) => Some(version)
    case Cleaning(_, _) => None
    case Done(outcome) => if outcome.Success? then Some(outcome.version) else None
    case Start => None
  }

  function SnapshotVersion(b: Option<Snapshot>): Option<Version> { if b.None? then None else Some(b.value.version) }

  predicate SinceOk(s: State, c: Client) {
    c.since <= |s.log| && (VersionOf(c.progress).Some? ==> c.since <= VersionOf(c.progress).value.position)
  }

  ghost predicate SinceInv(s: State) { forall a :: a in s.clients ==> SinceOk(s, s.clients[a]) }

  lemma SinceRead(rules: Rules, s: State, t: State, a: Attempt, action: Action)
    requires a in s.clients && SinceOk(s, s.clients[a]) && StepRead(rules, s, a, action) == Some(t)
    ensures t == Goto(s, a, t.clients[a].progress) && SinceOk(t, t.clients[a])
  {
  }

  lemma SinceDecide(rules: Rules, s: State, t: State, a: Attempt, action: Action)
    requires a in s.clients && SinceOk(s, s.clients[a]) && StepDecide(rules, s, a, action) == Some(t)
    ensures t == Goto(s, a, t.clients[a].progress) && SinceOk(t, t.clients[a])
  {
  }

  lemma SinceRename(rules: Rules, s: State, t: State, a: Attempt)
    requires a in s.clients && SinceOk(s, s.clients[a]) && StepWrite(s, a, Rename) == Some(t)
    ensures t.clients == s.clients[a := t.clients[a]] && s.log <= t.log && SinceOk(t, t.clients[a])
  {
  }

  lemma SinceConfirm(rules: Rules, start: State, s: State, t: State, a: Attempt)
    requires a in s.clients && SinceOk(s, s.clients[a]) && StepWrite(s, a, Confirm) == Some(t)
    requires ClientOk(rules, start, s, a) && Engaged(s, a)
    ensures t.clients == s.clients[a := t.clients[a]] && s.log == t.log && SinceOk(t, t.clients[a])
  {
    hide JobOk, TempOk, EntryOk, L.BeforeLink, IsLegacyJob, VersionOk, IsFinal, SettledBy, ProgressOk, LegacyAt, Stored;
  }

  lemma SinceClean(rules: Rules, start: State, s: State, t: State, a: Attempt, gone: bool)
    requires a in s.clients && SinceOk(s, s.clients[a]) && StepWrite(s, a, CleanTemp(gone)) == Some(t)
    requires ClientOk(rules, start, s, a)
    ensures t.clients == s.clients[a := t.clients[a]] && s.log == t.log && SinceOk(t, t.clients[a])
  {
    hide JobOk, TempOk, EntryOk, L.BeforeLink, IsLegacyJob, VersionOk, IsFinal, SettledBy, EngagedOk, LegacyAt, Stored;
  }

  lemma SincePrepare(s: State, t: State, a: Attempt, action: Action)
    requires a in s.clients && SinceOk(s, s.clients[a]) && StepWrite(s, a, action) == Some(t)
    requires !action.Rename? && !action.Confirm? && !action.CleanTemp?
    ensures t.clients == s.clients[a := t.clients[a]] && s.log == t.log && SinceOk(t, t.clients[a])
  {
  }

  lemma SinceWrite(rules: Rules, start: State, s: State, t: State, a: Attempt, action: Action)
    requires a in s.clients && SinceOk(s, s.clients[a]) && StepWrite(s, a, action) == Some(t)
    requires ClientOk(rules, start, s, a) && Engaged(s, a)
    ensures t.clients == s.clients[a := t.clients[a]] && s.log <= t.log && SinceOk(t, t.clients[a])
  {
    hide ClientOk, SinceOk, StepWrite, Engaged;
    match action
    case Rename => SinceRename(rules, s, t, a);
    case Confirm => SinceConfirm(rules, start, s, t, a);
    case CleanTemp(gone) => SinceClean(rules, start, s, t, a, gone);
    case _ => SincePrepare(s, t, a, action);
  }

  lemma SinceBody(rules: Rules, start: State, s: State, t: State, a: Attempt, action: Action)
    requires Inv(rules, start, s) && SinceInv(s) && Step(rules, s, Body(a, action)) == Some(t)
    ensures SinceInv(t)
  {
    hide L.Inv, ClientOk, StepRead, StepDecide, StepWrite, LegacyOk, InstallOk, L.Step, SinceOk;
    var p := s.clients[a].progress;
    assert ClientOk(rules, start, s, a) && SinceOk(s, s.clients[a]);
    if action.Fail? {
      SinceSimple(s, t, a, StepFail(s, a));
    } else if action.Decide? {
      SinceDecide(rules, s, t, a, action);
    } else if p.Removing? || p.RemovalStatted? || p.Removed? {
      SinceRemove(s, t, a, action);
    } else if p.Preparing? || p.Writing? || p.Written? || p.Checked? || p.Renamed? || p.Cleaning? {
      if s.clients[a].operation.Inspect? {
        InspectsNothingElse(rules, start, s, a);
      }
      SinceWrite(rules, start, s, t, a, action);
    } else {
      SinceRead(rules, s, t, a, action);
    }
    forall b | b in t.clients ensures SinceOk(t, t.clients[b]) {
      if b != a {
        SinceLater(s, t, s.clients[b]);
      }
    }
  }

  lemma SinceLater(s: State, t: State, c: Client)
    requires SinceOk(s, c) && |s.log| <= |t.log|
    ensures SinceOk(t, c)
  {
  }

  lemma SinceSimple(s: State, t: State, a: Attempt, step: Option<State>)
    requires a in s.clients && step == StepFail(s, a) == Some(t) && SinceOk(s, s.clients[a])
    ensures t.clients == s.clients[a := t.clients[a]] && t.log == s.log && SinceOk(t, t.clients[a])
  {
  }

  lemma SinceRemove(s: State, t: State, a: Attempt, action: Action)
    requires a in s.clients && StepRemove(s, a, action) == Some(t) && SinceOk(s, s.clients[a])
    ensures t.clients == s.clients[a := t.clients[a]] && t.log == s.log && SinceOk(t, t.clients[a])
  {
  }

  lemma SinceStep(rules: Rules, start: State, s: State, t: State, e: Event)
    requires Inv(rules, start, s) && SinceInv(s) && Step(rules, s, e) == Some(t)
    ensures SinceInv(t)
  {
    hide Inv, L.Step, Act;
    if e.Body? {
      SinceBody(rules, start, s, t, e.attempt, e.action);
    }
  }

  lemma {:induction false} SinceRun(rules: Rules, start: State, s: State, events: seq<Event>)
    requires Initial(start) && Lawful(rules) && Inv(rules, start, s) && SinceInv(s)
    requires Run(rules, s, events).Some? && SafeBreaks(rules, s, events)
    ensures SinceInv(Run(rules, s, events).value)
    decreases |events|
  {
    hide Inv, Step, Lawful, Initial, HeldBreak, SinceInv;
    if events != [] {
      StepKeepsInv(rules, start, s, events[0]);
      SinceStep(rules, start, s, Step(rules, s, events[0]).value, events[0]);
      SinceRun(rules, start, Step(rules, s, events[0]).value, events[1..]);
    }
  }

  /**
   Every successful operation, an inspection without the lock included, takes effect at one
   point between its submission and its return: the document it returns was the stored
   document after `position` installs.
   */
  lemma OperationsAreLinear(rules: Rules, start: State, events: seq<Event>, s: State, a: Attempt)
    requires Lawful(rules) && Reaches(rules, start, events, s)
    requires a in s.clients && s.clients[a].progress.Done? && s.clients[a].progress.outcome.Success?
    ensures var v := s.clients[a].progress.outcome.version;
      s.clients[a].since <= v.position <= |s.log| && DocumentAt(rules, start, s.log, v.position) == Some(v.document)
  {
    hide Inv, Lawful, Run, SafeBreaks, SinceInv;
    ReachesInv(rules, start, events, s);
    InitialInv(rules, start);
    assert SinceInv(start) by { NoClients(start); }
    SinceRun(rules, start, start, events);
    SuccessVersion(rules, start, s, a);
  }

  lemma NoClients(start: State)
    requires Initial(start)
    ensures SinceInv(start)
  {
  }

  lemma SuccessVersion(rules: Rules, start: State, s: State, a: Attempt)
    requires Inv(rules, start, s) && SinceInv(s)
    requires a in s.clients && s.clients[a].progress.Done? && s.clients[a].progress.outcome.Success?
    ensures VersionOk(rules, start, s.log, s.clients[a].progress.outcome.version)
    ensures s.clients[a].since <= s.clients[a].progress.outcome.version.position
  {
    hide L.Inv, EngagedOk, EntryOk, L.BeforeLink, LegacyOk, InstallOk, SettledBy;
    assert ClientOk(rules, start, s, a) && SinceOk(s, s.clients[a]);
  }

  // ---- migration

  /** The event is the unlink of the legacy file. */
  predicate UnlinksLegacy(e: Event) { e.Body? && e.action.UnlinkOld? }

  lemma OthersKeepLegacy(rules: Rules, s: State, e: Event)
    requires Step(rules, s, e).Some? && !UnlinksLegacy(e)
    ensures Step(rules, s, e).value.legacy == s.legacy
  {
    hide L.Step, Prepare;
  }

  lemma UnlinkNeedsRecord(rules: Rules, start: State, s: State, e: Event)
    requires Initial(start) && Lawful(rules) && Inv(rules, start, s) && UnlinksLegacy(e) && Step(rules, s, e).Some?
    ensures s.legacy == start.legacy && SettledIn(rules, Stored(rules, s), LegacyAt(rules, start))
  {
    hide L.Inv, ClientOk, InstallOk, LegacyAt, SettledIn, Lawful, Stored, LegacyOk, L.Step, StepRead, StepDecide, StepWrite, StepFail;
    LawfulRoundTrips(rules);
    SharedFacts(rules, start, s);
    assert ClientOk(rules, start, s, e.attempt);
    UnlinksFromRemoval(rules, start, s, e.attempt);
    UnlinkStep(rules, start, s, Step(rules, s, e).value, e.attempt);
  }

  /** In every run, whenever a migration unlinks the legacy file, the registry file has its record and a primary connection at that moment. */
  lemma UnlinkFindsRecord(rules: Rules, start: State, events: seq<Event>, s: State, a: Attempt)
    requires Lawful(rules) && Reaches(rules, start, events, s) && Step(rules, s, Body(a, UnlinkOld)).Some?
    ensures s.legacy == start.legacy && SettledIn(rules, Stored(rules, s), LegacyAt(rules, start))
  {
    hide Lawful, Reaches, Inv, Stored, LegacyAt, SettledIn, Step;
    ReachesInv(rules, start, events, s);
    ReachesInitial(rules, start, events, s);
    UnlinkNeedsRecord(rules, start, s, Body(a, UnlinkOld));
  }

  lemma UnlinksFromRemoval(rules: Rules, start: State, s: State, a: Attempt)
    requires Inv(rules, start, s) && Step(rules, s, Body(a, UnlinkOld)).Some?
    ensures a in s.clients && Engaged(s, a) && StepRemove(s, a, UnlinkOld) == Step(rules, s, Body(a, UnlinkOld))
  {
    hide L.Inv, ClientOk, InstallOk, LegacyOk, L.Step;
    assert ClientOk(rules, start, s, a);
    if s.clients[a].operation.Inspect? {
      InspectsNothingElse(rules, start, s, a);
    }
  }

  /** In a run after which the legacy file is gone, some event was the first unlink of it. */
  lemma {:induction false} FirstUnlink(rules: Rules, start: State, s: State, events: seq<Event>) returns (k: nat, u: State)
    requires Initial(start) && Lawful(rules) && Inv(rules, start, s) && s.legacy == start.legacy
    requires Run(rules, s, events).Some? && SafeBreaks(rules, s, events) && Run(rules, s, events).value.legacy != start.legacy
    ensures k < |events| && UnlinksLegacy(events[k]) && Run(rules, s, events[..k]) == Some(u)
    ensures Inv(rules, start, u) && Step(rules, u, events[k]).Some?
    decreases |events|
  {
    hide Inv, Step, Lawful, Initial, HeldBreak, UnlinksLegacy;
    if UnlinksLegacy(events[0]) {
      k, u := 0, s;
    } else {
      OthersKeepLegacy(rules, s, events[0]);
      StepKeepsInv(rules, start, s, events[0]);
      k, u := FirstUnlink(rules, start, Step(rules, s, events[0]).value, events[1..]);
      assert events[..k + 1][1..] == events[1..][..k] && events[..k + 1][0] == events[0];
      k := k + 1;
    }
  }

  /**
   The legacy record is never lost.  The legacy file is as it was; or it is gone, and when the
   event came that unlinked it, the registry file had its record and a primary connection.
   */
  lemma LegacyRecordIsKept(rules: Rules, start: State, events: seq<Event>, s: State) returns (k: nat, u: State)
    requires Lawful(rules) && Reaches(rules, start, events, s)
    ensures s.legacy == start.legacy
      || (&& s.legacy == None && k < |events| && UnlinksLegacy(events[k]) && Run(rules, start, events[..k]) == Some(u)
          && u.legacy == start.legacy && SettledIn(rules, Stored(rules, u), LegacyAt(rules, start)))
    ensures s.legacy.Some? ==> s.legacy.value in s.files && s.files[s.legacy.value] == start.files[s.legacy.value]
  {
    hide Lawful, SettledIn, LegacyAt, Stored, DocumentAt, L.Inv, ClientOk, InstallOk, Run, SafeBreaks, UnlinksLegacy, Step;
    ReachesInv(rules, start, events, s);
    k, u := 0, start;
    if s.legacy != start.legacy {
      InitialInv(rules, start);
      k, u := FirstUnlink(rules, start, start, events);
      UnlinkNeedsRecord(rules, start, u, events[k]);
    }
  }

  /** What an uninterrupted migration of the original files leaves in the registry. */
  function MigrationTarget(rules: Rules, start: State): Option<Document> {
    var d, r := Stored(rules, start), LegacyAt(rules, start);
    if d.Some? && r.Some? && rules.plan(d.value, r.value).Propose?
    then rules.next(d.value, rules.plan(d.value, r.value).proposed) else d
  }

  /** A migration that has succeeded. */
  predicate Migrates(c: Client) { c.operation.Migrate? && c.progress.Done? && c.progress.outcome.Success? }

  /** No commit has been submitted. */
  predicate OnlyMigrations(s: State) { forall a :: a in s.clients ==> !s.clients[a].operation.Commit? }

  lemma MigrationEntry(rules: Rules, start: State, s: State, k: nat)
    requires Inv(rules, start, s) && OnlyMigrations(s) && k < |s.log|
    ensures PlannedFor(rules, s.log[k], LegacyAt(rules, start)) && InstallOk(rules, start, s, k)
  {
    hide L.Inv, ProgressOk, EngagedOk, L.BeforeLink, LegacyAt, DocumentAt, PlannedFor;
    assert InstallOk(rules, start, s, k);
    assert ClientOk(rules, start, s, s.log[k].attempt);
  }

  /** The second of two migrations in a row would find nothing to write. */
  lemma AtMostOneMigration(rules: Rules, start: State, s: State)
    requires Initial(start) && Lawful(rules) && Inv(rules, start, s) && OnlyMigrations(s)
    ensures |s.log| <= 1
    ensures s.log != [] ==> Some(s.log[0].after) == MigrationTarget(rules, start)
  {
    hide Lawful, Stored, LegacyAt, L.Inv, ClientOk, LegacyOk;
    if s.log != [] {
      MigrationEntry(rules, start, s, 0);
      MigrationSettlesFirst(rules, start, s);
      if |s.log| > 1 {
        MigrationEntry(rules, start, s, 1);
      }
    }
  }

  lemma MigrationSettlesFirst(rules: Rules, start: State, s: State)
    requires Lawful(rules) && s.log != [] && forall k :: 0 <= k < |s.log| ==> InstallOk(rules, start, s, k)
    requires PlannedFor(rules, s.log[0], LegacyAt(rules, start))
    ensures SettledIn(rules, Some(s.log[0].after), LegacyAt(rules, start))
  {
    assert InstallOk(rules, start, s, 0);
    ReadableAt(rules, start, s, 0);
    assert ReadableLegacy(rules, LegacyAt(rules, start).value);
  }

  /**
   While nothing but migrations (and reads) run, at every point of every run, crashes and
   failures included, the legacy file is still there, or the registry file has its record
   and a primary connection.
   */
  lemma MigrationsKeepRecord(rules: Rules, start: State, events: seq<Event>, s: State)
    requires Lawful(rules) && Reaches(rules, start, events, s) && OnlyMigrations(s)
    ensures s.legacy == start.legacy || SettledIn(rules, Stored(rules, s), LegacyAt(rules, start))
  {
    hide Lawful, Reaches, LegacyAt, Stored, L.Inv, ClientOk, InstallOk;
    ReachesInv(rules, start, events, s);
    ReachesInitial(rules, start, events, s);
    LawfulRoundTrips(rules);
    SharedFacts(rules, start, s);
    if s.legacy != start.legacy {
      var n: nat :| n <= |s.log| && SettledIn(rules, DocumentAt(rules, start, s.log, n), LegacyAt(rules, start));
      AtMostOneMigration(rules, start, s);
      if n < |s.log| {
        MigrationEntry(rules, start, s, 0);
        SettledIsNotPlanned(rules, start, s);
      }
    }
  }

  lemma SettledIsNotPlanned(rules: Rules, start: State, s: State)
    requires s.log != [] && InstallOk(rules, start, s, 0) && PlannedFor(rules, s.log[0], LegacyAt(rules, start))
    ensures !SettledIn(rules, DocumentAt(rules, start, s.log, 0), LegacyAt(rules, start))
  {
    hide Stored, LegacyAt;
  }

  /**
   However many migrations run, crash and are run again, together they install at most one
   document, and every one that succeeds leaves and returns what a single uninterrupted one
   would have left.
   */
  lemma MigrationWritesOnce(rules: Rules, start: State, events: seq<Event>, s: State)
    requires Lawful(rules) && Reaches(rules, start, events, s) && OnlyMigrations(s)
    ensures |s.log| <= 1
    ensures Stored(rules, s) == if s.log == [] then Stored(rules, start) else MigrationTarget(rules, start)
    ensures forall a :: a in s.clients && Migrates(s.clients[a]) ==>
      Some(s.clients[a].progress.outcome.version.document) == MigrationTarget(rules, start)
  {
    hide Lawful, Reaches, Inv, MigrationTarget, Stored;
    ReachesInv(rules, start, events, s);
    ReachesInitial(rules, start, events, s);
    LawfulRoundTrips(rules);
    SharedFacts(rules, start, s);
    AtMostOneMigration(rules, start, s);
    forall a | a in s.clients && Migrates(s.clients[a])
      ensures Some(s.clients[a].progress.outcome.version.document) == MigrationTarget(rules, start)
    {
      MigrationResult(rules, start, s, a);
    }
  }

  lemma MigrationResult(rules: Rules, start: State, s: State, a: Attempt)
    requires Initial(start) && Lawful(rules) && Inv(rules, start, s) && OnlyMigrations(s)
    requires a in s.clients && Migrates(s.clients[a])
    ensures Some(s.clients[a].progress.outcome.version.document) == MigrationTarget(rules, start)
  {
    hide Inv, Lawful, Stored;
    var v := s.clients[a].progress.outcome.version;
    MigrationVersion(rules, start, s, a);
    AtMostOneMigration(rules, start, s);
    if s.log != [] {
      MigrationEntry(rules, start, s, 0);
    }
  }

  lemma MigrationVersion(rules: Rules, start: State, s: State, a: Attempt)
    requires Inv(rules, start, s)
    requires a in s.clients && Migrates(s.clients[a])
    ensures VersionOk(rules, start, s.log, s.clients[a].progress.outcome.version)
    ensures SettledBy(rules, start, s.log, s.clients[a].progress.outcome.version.position)
  {
    hide L.Inv, EngagedOk, EntryOk, L.BeforeLink, LegacyOk, InstallOk, SettledBy, DocumentAt;
    assert ClientOk(rules, start, s, a);
  }

  /** As long as no stored document is settled for the legacy record, no migration succeeds, and the legacy file stays. */
  lemma UnsettledStays(rules: Rules, start: State, events: seq<Event>, s: State)
    requires Lawful(rules) && Reaches(rules, start, events, s) && start.legacy.Some?
    requires forall n: nat :: n <= |s.log| ==> !SettledIn(rules, DocumentAt(rules, start, s.log, n), LegacyAt(rules, start))
    ensures s.legacy == start.legacy && forall a :: a in s.clients ==> !Migrates(s.clients[a])
  {
    hide Lawful, Reaches, SettledIn, LegacyAt, DocumentAt, L.Inv, ClientOk, InstallOk;
    ReachesInv(rules, start, events, s);
    forall a | a in s.clients ensures !Migrates(s.clients[a]) {
      if Migrates(s.clients[a]) {
        MigrationVersion(rules, start, s, a);
        assert false;
      }
    }
  }
}
