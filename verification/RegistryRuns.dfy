/** The registry format is lawful, so that every run of the store keeps valid documents. */
module RegistryRuns {
  import opened Options
  import opened Texts
  import opened JsonGrammar
  import opened Objects
  import opened JsonText
  import StrictParser
  import opened Platform
  import opened Records
  import opened RegistryDocument
  import opened Migration
  import LockFile
  import RegistryStore
  import StoreSafety
  import StoreTheorems

  /** What `readStoredValue` and `parseRegistryDocument` make of the text of the registry file. */
  function ReadStored(env: Platform, t: Text): Option<Document> {
    if Utf8Length(t) > MAX_REGISTRY_BYTES then None else ReadDocument(env, t)
  }

  function RegistryRules(env: Platform): RegistryStore.Rules {
    RegistryStore.Rules(
      t => ReadStored(env, t),
      (d: Document, proposed: Json) => NextDocument(env, d, proposed),
      (d: Document) => Serialize(d),
      t => ReadLegacy(env, t),
      (d: Document, r: Record) => MigrationPlan(d, r),
      LockFile.JSON_LINE)
  }

  lemma EmptyOk(env: Platform)
    ensures DocumentOk(env, EMPTY)
  {
  }

  lemma ReadDocumentOk(env: Platform, t: Text)
    requires ReadStored(env, t).Some?
    ensures DocumentOk(env, ReadStored(env, t).value)
  {
    hide ParseDocument, DocumentOk, IsDocument, Clean, StrictParser.ParseText, Utf8Length;
    var v := StrictParser.ParseText(t).value;
    DocumentExact(env, v, ReadStored(env, t).value);
  }

  lemma LegacyIsLocal(env: Platform, t: Text)
    requires ReadLegacy(env, t).Some?
    ensures ReadLegacy(env, t).value.Local? && LocalOk(env, ReadLegacy(env, t).value)
  {
    hide ExactKeys, Clean, StrictParser.ParseText, Utf8Length, LocalOk, Upgraded, Field, IsLegacy, TextField, LEGACY_NAMES,
      LOCAL_NAMES, LOCAL_KIND, LOCAL_PROVIDER, LOCAL_ADAPTER, Less, TimeField;
    LegacyExact(env, StrictParser.ParseText(t).value, ReadLegacy(env, t).value);
  }

  lemma WrittenReadsBack(env: Platform, d: Document, proposed: Json)
    requires NextDocument(env, d, proposed).Some? && Serialize(NextDocument(env, d, proposed).value).Some?
    ensures ReadStored(env, Serialize(NextDocument(env, d, proposed).value).value) == NextDocument(env, d, proposed)
  {
    hide NextDocument, Valid, ReadDocument, DocumentJson, Stringify, Utf8Length;
    NextDocumentIsValid(env, d, proposed);
    SerializeRoundTrip(env, NextDocument(env, d, proposed).value);
  }

  lemma MigrationsSettle(env: Platform, d: Document, r: Record)
    requires StoreSafety.Readable(RegistryRules(env), d) && StoreSafety.ReadableLegacy(RegistryRules(env), r)
    requires MigrationPlan(d, r).Propose? && NextDocument(env, d, MigrationPlan(d, r).proposed).Some?
    ensures MigrationPlan(NextDocument(env, d, MigrationPlan(d, r).proposed).value, r).Settled?
  {
    hide NextDocument, ReadStored, ReadLegacy, MigrationPlan, DocumentOk, LocalOk;
    var t :| RegistryRules(env).readLegacy(t) == Some(r);
    LegacyIsLocal(env, t);
    if d == EMPTY {
      EmptyOk(env);
    } else {
      var text :| RegistryRules(env).read(text) == Some(d);
      ReadDocumentOk(env, text);
    }
    MigrationSettles(env, d, r);
  }

  /** The registry format satisfies the laws on which the results about the store rest. */
  lemma RegistryIsLawful(env: Platform)
    ensures StoreSafety.Lawful(RegistryRules(env))
  {
    hide NextDocument, ReadStored, ReadLegacy, MigrationPlan, Serialize;
    var rules := RegistryRules(env);
    LockFile.JsonLineReadsBack();
    forall d: Document, p: Json | rules.next(d, p).Some? && rules.serialize(rules.next(d, p).value).Some?
      ensures rules.read(rules.serialize(rules.next(d, p).value).value) == rules.next(d, p)
    {
      WrittenReadsBack(env, d, p);
    }
    forall d: Document, p: Json | rules.next(d, p).Some? ensures rules.next(d, p).value.revision == d.revision + 1 {
      NextDocumentIsValid(env, d, p);
    }
    forall d: Document, r: Record | StoreSafety.Readable(rules, d) && StoreSafety.ReadableLegacy(rules, r) && rules.plan(d, r).Propose?
      ensures var next := rules.next(d, rules.plan(d, r).proposed); next.Some? ==> rules.plan(next.value, r).Settled?
    {
      if NextDocument(env, d, MigrationPlan(d, r).proposed).Some? {
        MigrationsSettle(env, d, r);
      }
    }
  }

  /**
   Whatever the mutation callbacks propose, in every run each installed document is valid:
   different ids, a primary and routes that name present and usable connections, at most 256
   valid records with their dates in order, a revision in bounds, no secrets.
   */
  lemma StoredDocumentsAreValid(env: Platform, start: RegistryStore.State, events: seq<RegistryStore.Event>, s: RegistryStore.State)
    requires StoreTheorems.Reaches(RegistryRules(env), start, events, s)
    ensures forall k :: 0 <= k < |s.log| ==> Valid(env, s.log[k].after)
    ensures s.log != [] ==> StoreSafety.Stored(RegistryRules(env), s) == Some(s.log[|s.log| - 1].after)
  {
    hide Valid, NextDocument, StoreTheorems.Reaches, StoreSafety.Lawful, ReadStored, ReadLegacy, MigrationPlan, Serialize,
      StoreSafety.ClientOk, StoreSafety.Stored;
    var rules := RegistryRules(env);
    RegistryIsLawful(env);
    StoreTheorems.ReachesInv(rules, start, events, s);
    StoreTheorems.ReachesInitial(rules, start, events, s);
    StoreTheorems.LawfulRoundTrips(rules);
    StoreSafety.SharedFacts(rules, start, s);
    forall k | 0 <= k < |s.log| ensures Valid(env, s.log[k].after) {
      assert StoreSafety.InstallOk(rules, start, s, k);
      NextDocumentIsValid(env, s.log[k].before, s.log[k].proposed);
    }
  }

  /** All records of a stored document are free of secrets, those of a document found at the start included. */
  lemma StoredIsClean(env: Platform, t: Text)
    requires ReadStored(env, t).Some?
    ensures DocumentOk(env, ReadStored(env, t).value) && RecordsClean(env, ReadStored(env, t).value.connections)
  {
    hide ParseDocument, DocumentOk, Clean, StrictParser.ParseText, Utf8Length, AreRecords, Field, ExactKeys, RecordsClean, V1_NAMES, V2_NAMES;
    var v, d := StrictParser.ParseText(t).value, ReadStored(env, t).value;
    DocumentExact(env, v, d);
    FieldClean(env, v.members, "connections");
    RecordsStayClean(env, Field(v.members, "connections").value.items, d.connections);
  }

  /** So are those of every document in the history of a run. */
  lemma HistoryIsClean(env: Platform, start: RegistryStore.State, events: seq<RegistryStore.Event>, s: RegistryStore.State, n: nat)
    requires StoreTheorems.Reaches(RegistryRules(env), start, events, s) && n <= |s.log|
    requires StoreSafety.DocumentAt(RegistryRules(env), start, s.log, n).Some?
    ensures var d := StoreSafety.DocumentAt(RegistryRules(env), start, s.log, n).value;
      DocumentOk(env, d) && RecordsClean(env, d.connections)
  {
    hide Valid, NextDocument, StoreTheorems.Reaches, ReadStored, ReadLegacy, MigrationPlan, Serialize, DocumentOk, RecordsClean;
    if n > 0 {
      StoredDocumentsAreValid(env, start, events, s);
      ValidIsClean(env, s.log[n - 1].after);
    } else if start.registry.Some? {
      StoredIsClean(env, start.files[start.registry.value]);
    } else {
      assert DocumentOk(env, EMPTY) by { EmptyOk(env); }
      assert RecordsClean(env, EMPTY.connections) by { NoRecordsClean(env); }
    }
  }

  lemma NoRecordsClean(env: Platform)
    ensures RecordsClean(env, EMPTY.connections)
  {
  }

  lemma ValidIsClean(env: Platform, d: Document)
    requires Valid(env, d)
    ensures DocumentOk(env, d) && RecordsClean(env, d.connections)
  {
    hide DocumentOk, Clean, DocumentJson, RecordsClean, NamesClean, RoutesClean;
    CleanDocument(env, d);
  }

  /**
   A legacy record that holds a secret, as one may whose base URL does so only when normalised,
   is refused for ever: in no run does a migration succeed, and the legacy file stays.
   */
  lemma SecretLegacyIsStuck(env: Platform, start: RegistryStore.State, events: seq<RegistryStore.Event>, s: RegistryStore.State)
    requires StoreTheorems.Reaches(RegistryRules(env), start, events, s)
    requires var r := StoreSafety.LegacyAt(RegistryRules(env), start); r.Some? && !Clean(env, RecordJson(r.value))
    ensures s.legacy == start.legacy && s.legacy.Some?
    ensures forall a :: a in s.clients ==> !StoreTheorems.Migrates(s.clients[a])
  {
    hide NextDocument, StoreTheorems.Reaches, StoreSafety.Lawful, ReadStored, ReadLegacy, MigrationPlan, Serialize, Clean, RecordJson,
      LocalOk, DocumentOk, RecordsClean, StoreSafety.DocumentAt;
    var rules, r := RegistryRules(env), StoreSafety.LegacyAt(RegistryRules(env), start).value;
    RegistryIsLawful(env);
    LegacyIsLocal(env, start.files[start.legacy.value]);
    forall n: nat | n <= |s.log|
      ensures !StoreSafety.SettledIn(rules, StoreSafety.DocumentAt(rules, start, s.log, n), Some(r))
    {
      var d := StoreSafety.DocumentAt(rules, start, s.log, n);
      if StoreSafety.SettledIn(rules, d, Some(r)) {
        HistoryIsClean(env, start, events, s, n);
        SettledIsClean(env, d.value, r);
        assert false;
      }
    }
    StoreTheorems.UnsettledStays(rules, start, events, s);
  }
}
