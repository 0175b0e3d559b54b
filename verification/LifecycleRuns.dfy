/**
 The contract of `Lifecycle.Registry.Commit`, proved of the commits of the step system: what one
 user of the registry is told, in every interleaving with others, failures and crashes included.
 */
module LifecycleRuns {
  import opened Options
  import opened Platform
  import opened Records
  import opened RegistryDocument
  import opened Migration
  import opened Edits
  import opened RegistryRuns
  import RegistryStore
  import StoreSafety
  import StoreTheorems

  /** What the client has installed it had proposed as a lifecycle operation's callback edits the document that it was given. */
  ghost predicate ProposesEdit(s: RegistryStore.State, a: RegistryStore.Attempt, request: Request) {
    forall k :: 0 <= k < |s.log| && s.log[k].attempt == a ==>
      && Callback(request, s.log[k].before).Changed?
      && s.log[k].proposed == DocumentJson(Callback(request, s.log[k].before).draft)
  }

  /** What was current when a proposal was accepted was a valid document, even if it was found in the file at the start. */
  lemma BaseIsValid(env: Platform, d: Document, next: Document)
    requires DocumentOk(env, d) && RecordsClean(env, d.connections) && Valid(env, next)
    ensures Valid(env, d)
  {
    hide DocumentOk, RecordsClean, Clean, DocumentJson, RoutesClean, NamesClean;
    CleanDocument(env, next);
    ReferencesAreClean(env, d);
  }

  /**
   A commit that succeeds found a valid document at the expected revision, the callback applied to
   it, and what it returns is the revalidated draft, installed once; one that meets a conflict, or
   is refused, has installed nothing; any other installs at most one document.
   */
  lemma CommitKeepsContract(env: Platform, start: RegistryStore.State, events: seq<RegistryStore.Event>, s: RegistryStore.State,
                            a: RegistryStore.Attempt, request: Request)
    requires StoreTheorems.Reaches(RegistryRules(env), start, events, s) && ProposesEdit(s, a, request)
    requires a in s.clients && s.clients[a].operation.Commit? && s.clients[a].progress.Done?
    ensures s.clients[a].progress.outcome.Success? ==>
      && s.clients[a].entry.Some? && StoreTheorems.InstalledOnce(s, a, s.clients[a].entry.value)
      && var before := s.log[s.clients[a].entry.value].before;
      && before.revision == s.clients[a].operation.expected && Valid(env, before) && Callback(request, before).Changed?
      && NextDocument(env, before, DocumentJson(Callback(request, before).draft)) == Some(s.clients[a].progress.outcome.version.document)
    ensures s.clients[a].progress.outcome.Conflict? || s.clients[a].progress.outcome.Invalid? ==>
      forall j :: 0 <= j < |s.log| ==> s.log[j].attempt != a
    ensures s.clients[a].progress.outcome.Failed? && s.clients[a].entry.Some? ==>
      StoreTheorems.InstalledOnce(s, a, s.clients[a].entry.value)
  {
    hide Valid, NextDocument, StoreTheorems.Reaches, StoreSafety.Lawful, ReadStored, ReadLegacy, MigrationPlan, Serialize, DocumentJson,
      Callback, DocumentOk, RecordsClean, StoreSafety.DocumentAt;
    var rules := RegistryRules(env);
    RegistryIsLawful(env);
    StoreTheorems.InstallsAtMostOnce(rules, start, events, s, a);
    var outcome := s.clients[a].progress.outcome;
    if outcome.Success? {
      StoreTheorems.CommitsLoseNoUpdate(rules, start, events, s, a);
      var k := s.clients[a].entry.value;
      StoredDocumentsAreValid(env, start, events, s);
      HistoryIsClean(env, start, events, s, k);
      BaseIsValid(env, s.log[k].before, s.log[k].after);
    } else if outcome.Conflict? || outcome.Invalid? {
      StoreTheorems.RefusalsInstallNothing(rules, start, events, s, a);
    }
  }

  /** What others install between two points of a run raises the revision: the interference that `Lifecycle.Registry` allows. */
  lemma InterferenceRaisesRevision(env: Platform, start: RegistryStore.State, events: seq<RegistryStore.Event>, s: RegistryStore.State,
                                   m: nat, n: nat)
    requires StoreTheorems.Reaches(RegistryRules(env), start, events, s) && m < n <= |s.log|
    requires StoreSafety.DocumentAt(RegistryRules(env), start, s.log, m).Some?
    ensures StoreSafety.DocumentAt(RegistryRules(env), start, s.log, n).Some?
    ensures var d, e := StoreSafety.DocumentAt(RegistryRules(env), start, s.log, m).value,
                        StoreSafety.DocumentAt(RegistryRules(env), start, s.log, n).value;
      Valid(env, e) && e.revision > d.revision
  {
    hide Valid, NextDocument, StoreTheorems.Reaches, StoreSafety.Lawful, ReadStored, ReadLegacy, MigrationPlan, Serialize;
    var rules := RegistryRules(env);
    RegistryIsLawful(env);
    assert StoreSafety.CountsRevisions(rules) by { StoreTheorems.LawfulCounts(rules); }
    StoreTheorems.ReachesInstalls(rules, start, events, s);
    StoreTheorems.RevisionsRise(rules, start, s, m, n);
    StoredDocumentsAreValid(env, start, events, s);
  }
}
