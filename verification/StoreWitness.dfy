/** The store can do its work: an undisturbed client inside its transaction carries its commit through. */
module StoreWitness {
  import opened Options
  import opened Texts
  import opened JsonGrammar
  import opened RegistryDocument
  import opened RegistryStore
  import opened StoreSafety
  import L = LockProtocol

  lemma {:induction false} RunThen(rules: Rules, s: State, first: seq<Event>, second: seq<Event>)
    requires Run(rules, s, first).Some?
    ensures Run(rules, s, first + second) == Run(rules, Run(rules, s, first).value, second)
    decreases |first|
  {
    hide Step;
    if first == [] {
      assert first + second == second;
    } else {
      assert (first + second)[1..] == first[1..] + second;
      RunThen(rules, Step(rules, s, first[0]).value, first[1..], second);
    }
  }

  /** One more step of the client at the end of a run. */
  lemma RunAct(rules: Rules, s: State, events: seq<Event>, t: State, a: Attempt, action: Action) returns (more: seq<Event>)
    requires Run(rules, s, events) == Some(t) && Engaged(t, a)
    ensures more == events + [Body(a, action)] && Run(rules, s, more) == Act(rules, t, a, action)
  {
    hide Act, L.Step, Step;
    var e := Body(a, action);
    more := events + [e];
    RunThen(rules, s, events, [e]);
    EngagedActs(rules, t, a, action);
    assert [e][1..] == [];
    if Act(rules, t, a, action).Some? {
      assert Run(rules, Step(rules, t, e).value, []) == Step(rules, t, e);
    }
  }

  lemma EngagedActs(rules: Rules, t: State, a: Attempt, action: Action)
    requires Engaged(t, a)
    ensures a in t.clients && Step(rules, t, Body(a, action)) == Act(rules, t, a, action)
  {
    hide Act, L.Step;
  }

  /** From the stat of the registry file to the parsed document. */
  lemma ReadsFile(rules: Rules, s: State, a: Attempt, h: Inode) returns (events: seq<Event>)
    requires Engaged(s, a) && s.clients[a].progress == Statted(Registry, None, h)
    requires s.registry == Some(h) && h in s.files && rules.read(s.files[h]).Some?
    ensures Run(rules, s, events)
      == Some(Goto(s, a, Loaded(Snapshot(Some(h), Version(rules.read(s.files[h]).value, |s.log|)))))
  {
    hide Run, Step, L.Step;
    EmptyRun(rules, s);
    events := RunAct(rules, s, [], s, a, Open);
    var s1 := Goto(s, a, Opened(Registry, None, h));
    events := RunAct(rules, s, events, s1, a, Fetch);
    var s2 := Goto(s, a, Fetched(Registry, None, h, s.files[h]));
    assert Goto(s1, a, Fetched(Registry, None, h, s.files[h])) == s2;
    events := RunAct(rules, s, events, s2, a, Recheck);
    var loaded := Loaded(Snapshot(Some(h), Version(rules.read(s.files[h]).value, |s.log|)));
    assert Goto(s2, a, loaded) == Goto(s, a, loaded);
  }

  /** The steps of reading, or the one that finds no file. */
  lemma Loads(rules: Rules, s: State, a: Attempt) returns (events: seq<Event>)
    requires Engaged(s, a) && s.clients[a].progress.Start? && Stored(rules, s).Some?
    requires s.registry.Some? ==> s.registry.value in s.files
    ensures Run(rules, s, events)
      == Some(Goto(s, a, Loaded(Snapshot(s.registry, Version(Stored(rules, s).value, |s.log|)))))
  {
    hide Run, Step, L.Step;
    EmptyRun(rules, s);
    events := RunAct(rules, s, [], s, a, Stat);
    if s.registry.Some? {
      var h := s.registry.value;
      var s1 := Goto(s, a, Statted(Registry, None, h));
      var reading := ReadsFile(rules, s1, a, h);
      RunThen(rules, s, events, reading);
      events := events + reading;
      var loaded := Loaded(Snapshot(s.registry, Version(Stored(rules, s).value, |s.log|)));
      assert Goto(s1, a, loaded) == Goto(s, a, loaded);
    }
  }

  lemma EmptyRun(rules: Rules, s: State)
    ensures Run(rules, s, []) == Some(s)
  {
  }

  /** The state once the whole text is in the temporary file. */
  function Prepared(s: State, a: Attempt, job: Job, i: Inode, p: Progress): State
    requires a in s.clients
  {
    Goto(s, a, p).(files := s.files[i := job.text], temps := s.temps[a := i])
  }

  /** From the accepted proposal to the filled temporary file. */
  lemma Fills(rules: Rules, s: State, a: Attempt, i: Inode) returns (events: seq<Event>)
    requires Engaged(s, a) && s.clients[a].progress.Preparing? && i !in s.files && s.clients[a].progress.job.text != []
    ensures var job := s.clients[a].progress.job;
      Run(rules, s, events) == Some(Prepared(s, a, job, i, Writing(job, i)))
  {
    hide Run, Step, L.Step;
    var job := s.clients[a].progress.job;
    EmptyRun(rules, s);
    events := RunAct(rules, s, [], s, a, OpenTemp(i));
    var s1 := Goto(s, a, Writing(job, i)).(files := s.files[i := []], temps := s.temps[a := i]);
    events := RunAct(rules, s, events, s1, a, WriteTemp(|job.text|));
    var s2 := Prepared(s, a, job, i, Writing(job, i));
    assert job.text[..|job.text|] == job.text && s1.files[i := job.text] == s2.files;
  }

  /** From the filled temporary file to the checked target. */
  lemma Checks(rules: Rules, s: State, a: Attempt) returns (events: seq<Event>)
    requires Engaged(s, a) && s.clients[a].progress.Writing? && s.clients[a].progress.job.base.identity == s.registry
    requires s.clients[a].progress.temp in s.files && s.files[s.clients[a].progress.temp] == s.clients[a].progress.job.text
    ensures var p := s.clients[a].progress; Run(rules, s, events) == Some(Goto(s, a, Checked(p.job, p.temp)))
  {
    hide Run, Step, L.Step;
    var p := s.clients[a].progress;
    EmptyRun(rules, s);
    events := RunAct(rules, s, [], s, a, FinishTemp);
    var s1 := Goto(s, a, Written(p.job, p.temp));
    events := RunAct(rules, s, events, s1, a, CheckTarget);
    assert Goto(s1, a, Checked(p.job, p.temp)) == Goto(s, a, Checked(p.job, p.temp));
  }

  lemma Writes(rules: Rules, s: State, a: Attempt, i: Inode) returns (events: seq<Event>)
    requires Engaged(s, a) && s.clients[a].progress.Preparing? && i !in s.files
    requires s.clients[a].progress.job.text != [] && s.clients[a].progress.job.base.identity == s.registry
    ensures var job := s.clients[a].progress.job;
      Run(rules, s, events) == Some(Prepared(s, a, job, i, Checked(job, i)))
  {
    hide Run, Step, L.Step;
    var job := s.clients[a].progress.job;
    var filling := Fills(rules, s, a, i);
    var filled := Prepared(s, a, job, i, Writing(job, i));
    var checking := Checks(rules, filled, a);
    assert Goto(filled, a, Checked(job, i)) == Prepared(s, a, job, i, Checked(job, i));
    RunThen(rules, s, filling, checking);
    events := filling + checking;
  }

  /** The rename and its confirmation. */
  lemma Renames(rules: Rules, s: State, a: Attempt) returns (events: seq<Event>, t: State)
    requires Engaged(s, a) && s.clients[a].progress.Checked? && s.clients[a].progress.job.former.None?
    ensures Run(rules, s, events) == Some(t) && a in t.clients
    ensures t.clients[a].progress == Done(Success(Version(s.clients[a].progress.job.next, |s.log| + 1)))
    ensures t.registry == Some(s.clients[a].progress.temp) && t.files == s.files && a !in t.temps
  {
    hide Run, Step, L.Step;
    EmptyRun(rules, s);
    events := RunAct(rules, s, [], s, a, Rename);
    var s1 := Act(rules, s, a, Rename).value;
    events := RunAct(rules, s, events, s1, a, Confirm);
    t := Act(rules, s1, a, Confirm).value;
  }

  /**
   An undisturbed commit at the stored revision, whose proposal is acceptable, succeeds: the
   registry file then holds the text of the next document.
   */
  lemma CommitCanSucceed(rules: Rules, s: State, a: Attempt, proposed: Json, i: Inode) returns (events: seq<Event>, t: State)
    requires Engaged(s, a) && s.clients[a].progress.Start? && s.clients[a].operation.Commit? && i !in s.files
    requires (s.registry.Some? ==> s.registry.value in s.files) && Stored(rules, s).Some?
    requires Stored(rules, s).value.revision == s.clients[a].operation.expected
    requires rules.next(Stored(rules, s).value, proposed).Some?
    requires var text := rules.serialize(rules.next(Stored(rules, s).value, proposed).value); text.Some? && text.value != []
    ensures Run(rules, s, events) == Some(t) && a in t.clients
    ensures t.clients[a].progress == Done(Success(Version(rules.next(Stored(rules, s).value, proposed).value, |s.log| + 1)))
    ensures t.registry == Some(i) && i in t.files
    ensures Some(t.files[i]) == rules.serialize(rules.next(Stored(rules, s).value, proposed).value)
  {
    hide Run, Step, L.Step, Stored;
    var d := Stored(rules, s).value;
    var base := Snapshot(s.registry, Version(d, |s.log|));
    var job := Job(base, proposed, rules.next(d, proposed).value, rules.serialize(rules.next(d, proposed).value).value, None);
    var loading := Loads(rules, s, a);
    var s1 := Goto(s, a, Loaded(base));
    var deciding := RunAct(rules, s, loading, s1, a, Decide(Some(proposed)));
    var s2 := Goto(s, a, Preparing(job));
    assert Goto(s1, a, Preparing(job)) == s2;
    var writing := Writes(rules, s2, a, i);
    RunThen(rules, s, deciding, writing);
    var s3 := Prepared(s2, a, job, i, Checked(job, i));
    var renaming;
    renaming, t := Renames(rules, s3, a);
    RunThen(rules, s, deciding + writing, renaming);
    events := deciding + writing + renaming;
  }
}
