/** The legacy local connection: how it is read and what migrating it does to a document. */
module Migration {
  import opened Options
  import opened Texts
  import opened JsonGrammar
  import opened StrictParser
  import opened JsonText
  import opened Objects
  import opened Platform
  import opened Records
  import opened RegistryDocument

  const LEGACY_NAMES: seq<string> :=
    ["schemaVersion", "kind", "id", "label", "baseUrl", "modelId", "createdAt", "updatedAt"]

  const MAX_LEGACY_BYTES := 65536

  function UpgradedValues(ms: seq<Member>, baseUrl: Text): seq<Option<Json>> {
    [Some(JString(A(LOCAL_KIND))), Field(ms, "id"), Some(JString(A(LOCAL_PROVIDER))), Some(JString(A(LOCAL_ADAPTER))),
     Field(ms, "label"), Some(JString(baseUrl)), Field(ms, "modelId"), Field(ms, "createdAt"), Field(ms, "updatedAt")]
  }

  /** The object that `parseLegacyLocalRecord` hands to `parseLocal`. */
  function Upgraded(ms: seq<Member>, baseUrl: Text): seq<Member> { Object(LOCAL_NAMES, UpgradedValues(ms, baseUrl)) }

  /** `parseLegacyLocalRecord`. */
  function ParseLegacy(env: Platform, v: Json): Option<Record> {
    if !Clean(env, v) || !v.JObject? || !ExactKeys(v.members, LEGACY_NAMES, {}) then None else
    var ms := v.members;
    if Field(ms, "schemaVersion") != Some(JNumber(1.0)) || Field(ms, "kind") != Some(JString(A(LOCAL_KIND))) then None else
    var input :- TextField(env, ms, "baseUrl", URL);
    var baseUrl :- env.normalUrl(input);
    ParseLocal(env, Upgraded(ms, baseUrl))
  }

  /** What `readLegacy` makes of the text of the legacy file. */
  function ReadLegacy(env: Platform, t: Text): Option<Record> {
    if Utf8Length(t) > MAX_LEGACY_BYTES then None else
    var v :- ParseText(t);
    ParseLegacy(env, v)
  }

  /** The members that the legacy form shares with a local record. */
  predicate SharesMembers(ms: seq<Member>, r: Record)
    requires r.Local?
  {
    && Field(ms, "id") == Some(JString(r.id))
    && Field(ms, "label") == Some(JString(r.name))
    && Field(ms, "modelId") == Some(JString(r.modelId))
    && Field(ms, "createdAt") == Some(JString(r.createdAt))
    && Field(ms, "updatedAt") == Some(JString(r.updatedAt))
  }

  /** `v` presents the record in the legacy form, its base URL perhaps not yet normalised. */
  predicate IsLegacy(env: Platform, v: Json, r: Record) {
    && r.Local? && v.JObject? && ExactKeys(v.members, LEGACY_NAMES, {})
    && Field(v.members, "schemaVersion") == Some(JNumber(1.0))
    && Field(v.members, "kind") == Some(JString(A(LOCAL_KIND)))
    && SharesMembers(v.members, r)
    && Field(v.members, "baseUrl").Some? && Field(v.members, "baseUrl").value.JString?
    && TextOk(env, Field(v.members, "baseUrl").value.text, URL)
    && env.normalUrl(Field(v.members, "baseUrl").value.text) == Some(r.baseUrl)
  }

  lemma LocalFields(values: seq<Option<Json>>)
    requires |values| == |LOCAL_NAMES| == 9
    ensures var ms := Object(LOCAL_NAMES, values);
      && Field(ms, "kind") == values[0] && Field(ms, "id") == values[1] && Field(ms, "providerId") == values[2]
      && Field(ms, "adapterId") == values[3] && Field(ms, "label") == values[4] && Field(ms, "baseUrl") == values[5]
      && Field(ms, "modelId") == values[6] && Field(ms, "createdAt") == values[7] && Field(ms, "updatedAt") == values[8]
  {
    hide Object, Field;
    LocalNamesOk();
    ObjectField(LOCAL_NAMES, values, 0);
    ObjectField(LOCAL_NAMES, values, 1);
    ObjectField(LOCAL_NAMES, values, 2);
    ObjectField(LOCAL_NAMES, values, 3);
    ObjectField(LOCAL_NAMES, values, 4);
    ObjectField(LOCAL_NAMES, values, 5);
    ObjectField(LOCAL_NAMES, values, 6);
    ObjectField(LOCAL_NAMES, values, 7);
    ObjectField(LOCAL_NAMES, values, 8);
  }

  lemma UpgradedExact(ms: seq<Member>, baseUrl: Text, r: Record)
    requires r.Local? && SharesMembers(ms, r)
    ensures ExactKeys(Upgraded(ms, baseUrl), LOCAL_NAMES, {})
  {
    hide Object, Field, ExactKeys, LOCAL_KIND, LOCAL_PROVIDER, LOCAL_ADAPTER, LOCAL_NAMES, Different;
    LocalLength();
    ObjectExact(LOCAL_NAMES, UpgradedValues(ms, baseUrl), {});
  }

  lemma UpgradedIsLocal(ms: seq<Member>, baseUrl: Text, r: Record)
    requires r.Local?
    ensures IsLocal(Upgraded(ms, baseUrl), r) <==> SharesMembers(ms, r) && baseUrl == r.baseUrl
  {
    hide Object, Field, ExactKeys, LOCAL_KIND, LOCAL_PROVIDER, LOCAL_ADAPTER, LOCAL_NAMES, Different;
    LocalLength();
    LocalFields(UpgradedValues(ms, baseUrl));
    if SharesMembers(ms, r) {
      UpgradedExact(ms, baseUrl, r);
    }
  }

  lemma LocalLength()
    ensures |LOCAL_NAMES| == 9 && Different(LOCAL_NAMES)
  {
  }

  /** The legacy parser accepts exactly the legacy forms of a valid local record that hold no secret. */
  lemma LegacyExact(env: Platform, v: Json, r: Record)
    requires r.Local?
    ensures ParseLegacy(env, v) == Some(r) <==> Clean(env, v) && LocalOk(env, r) && IsLegacy(env, v, r)
  {
    hide Clean, Object, Field, ExactKeys, LOCAL_KIND, LEGACY_NAMES, Upgraded, LocalOk, ParseLocal, TextOk, IsLocal, SharesMembers;
    if v.JObject? && Field(v.members, "baseUrl").Some? && Field(v.members, "baseUrl").value.JString? {
      var url := env.normalUrl(Field(v.members, "baseUrl").value.text);
      if url.Some? {
        UpgradedIsLocal(v.members, url.value, r);
        LocalExact(env, Upgraded(v.members, url.value), r);
      }
    }
  }

  // ---- what a migration does to a document

  datatype Plan = Settled | Propose(proposed: Json) | Clash

  const PROPOSAL_NAMES: seq<string> := ["primaryConnectionId", "connections"]

  function Proposal(primary: Text, cs: seq<Record>): Json {
    JObject(Object(PROPOSAL_NAMES, [Some(JString(primary)), Some(JArray(RecordsJson(cs)))]))
  }

  /** `JSON.stringify(existing) === JSON.stringify(legacy.record)`. */
  predicate SameText(a: Record, b: Record) { Stringify(RecordJson(a), [], []) == Stringify(RecordJson(b), [], []) }

  /** The decision of `migrateLegacyLocal` once both files are read. */
  function MigrationPlan(d: Document, r: Record): Plan {
    var existing := Find(d.connections, r.id);
    if existing.None? then Propose(Proposal(if d.primary.Some? then d.primary.value else r.id, d.connections + [r]))
    else if !SameText(existing.value, r) then Clash
    else if d.primary.None? then Propose(Proposal(r.id, d.connections))
    else Settled
  }

  /** The document with the record in it and, if it had no primary connection, the record as primary. */
  function Migrated(d: Document, r: Record): Document {
    Document(d.revision + 1, if d.primary.Some? then d.primary else Some(r.id), d.routes,
             if Find(d.connections, r.id).Some? then d.connections else d.connections + [r])
  }

  lemma SameTextExact(env: Platform, a: Record, b: Record)
    requires RecordOk(env, a) && b.Local? && LocalOk(env, b)
    ensures SameText(a, b) <==> a == b
  {
    hide RecordJson, Stringify, RecordOk, LocalOk, Fits, ParseText;
    if SameText(a, b) {
      LocalIsRecordOk(env, b);
      JsonSameText(env, a, b);
      RecordPrints(env, a);
      RecordPrints(env, b);
      SameRecord(RecordJson(b), a, b);
    }
  }

  lemma LocalIsRecordOk(env: Platform, r: Record)
    requires r.Local? && LocalOk(env, r)
    ensures RecordOk(env, r)
  {
    hide LocalOk;
  }

  lemma JsonSameText(env: Platform, a: Record, b: Record)
    requires RecordOk(env, a) && RecordOk(env, b) && SameText(a, b)
    ensures RecordJson(a) == RecordJson(b)
  {
    hide RecordJson, Stringify, RecordOk, ParseText;
    RecordFits(env, a);
    RecordFits(env, b);
    FitsDeeper(RecordJson(a), 5, MAX_DEPTH);
    FitsDeeper(RecordJson(b), 5, MAX_DEPTH);
    StringifyRoundTrip(RecordJson(a), []);
    StringifyRoundTrip(RecordJson(b), []);
  }

  lemma SameRecord(v: Json, a: Record, b: Record)
    requires b.Local? && IsRecord(v, a) && IsRecord(v, b)
    ensures a == b
  {
    hide Field, ExactKeys, LOCAL_KIND, DELEGATED_KIND, ENVIRONMENT_KIND, IsAgent, IsModel, AreTerms, LOCAL_NAMES, DELEGATED_NAMES,
      ENVIRONMENT_NAMES;
    KindsDiffer();
  }

  /** In a document whose records are valid, a migration has nothing left to write exactly when the record is there and a primary is set. */
  lemma SettledExact(env: Platform, d: Document, r: Record)
    requires DocumentOk(env, d) && r.Local? && LocalOk(env, r)
    ensures MigrationPlan(d, r).Settled? <==> Find(d.connections, r.id) == Some(r) && d.primary.Some?
  {
    hide RecordOk, LocalOk, SameText, UniqueIds, RoutesOk, Proposal;
    var existing := Find(d.connections, r.id);
    if existing.Some? {
      var k :| 0 <= k < |d.connections| && d.connections[k] == existing.value;
      SameTextExact(env, existing.value, r);
    }
  }

  lemma {:induction false} FindAppended(cs: seq<Record>, r: Record, id: Text)
    ensures Find(cs + [r], id)
      == if Find(cs, id).Some? then Find(cs, id) else if r.id == id then Some(r) else None
  {
    if cs == [] {
      assert cs + [r] == [r];
    } else {
      assert (cs + [r])[1..] == cs[1..] + [r];
      FindAppended(cs[1..], r, id);
    }
  }

  lemma ProposalFields(d: Document, primary: Text, cs: seq<Record>)
    ensures var ms := Proposal(primary, cs).members;
      && Field(ms, "primaryConnectionId") == Some(JString(primary)) && Field(ms, "connections") == Some(JArray(RecordsJson(cs)))
      && ProposedRoutes(d, ms) == RoutesJson(d.routes)
  {
    hide Object, Field, RecordsJson, RoutesJson;
    var values := [Some(JString(primary)), Some(JArray(RecordsJson(cs)))];
    ProposalNamesOk();
    ObjectField(PROPOSAL_NAMES, values, 0);
    ObjectField(PROPOSAL_NAMES, values, 1);
    ObjectLacks(PROPOSAL_NAMES, values, "agentRoutes");
  }

  lemma ProposalNamesOk()
    ensures Different(PROPOSAL_NAMES) && "agentRoutes" !in PROPOSAL_NAMES
  {
  }

  lemma MigratedIsProposed(env: Platform, d: Document, r: Record)
    requires DocumentOk(env, d) && r.Local? && LocalOk(env, r) && MigrationPlan(d, r).Propose?
    requires |Migrated(d, r).connections| <= MAX_CONNECTIONS && d.revision < MAX_REVISION
    ensures DocumentOk(env, Migrated(d, r))
    ensures var ms := MigrationPlan(d, r).proposed.members;
      Proposes(ms, ProposedRoutes(d, ms), Migrated(d, r))
  {
    hide RecordJson, RecordsJson, RoutesJson, Field, RecordOk, LocalOk, SameText, IsRoutes, IsRecord, Routable, Find, Proposal, OrNull;
    var next := Migrated(d, r);
    MigratedOk(env, d, r);
    ProposalFields(d, next.primary.value, next.connections);
    RoutesFields(d.routes);
    PrintedRecords(env, next.connections);
    assert OrNull(next.primary) == JString(next.primary.value) by { PresentId(next.primary.value); }
  }

  lemma PresentId(t: Text)
    ensures OrNull(Some(t)) == JString(t)
  {
  }

  lemma PrintedRecords(env: Platform, cs: seq<Record>)
    requires forall k :: 0 <= k < |cs| ==> RecordOk(env, cs[k])
    ensures AreRecords(RecordsJson(cs), cs)
  {
    hide RecordJson, RecordOk, IsRecord;
    forall k | 0 <= k < |cs| ensures IsRecord(RecordsJson(cs)[k], cs[k]) {
      RecordPrints(env, cs[k]);
    }
  }

  lemma MigratedOk(env: Platform, d: Document, r: Record)
    requires DocumentOk(env, d) && r.Local? && LocalOk(env, r)
    requires |Migrated(d, r).connections| <= MAX_CONNECTIONS && d.revision < MAX_REVISION
    ensures DocumentOk(env, Migrated(d, r))
  {
    hide RecordOk, LocalOk, Routable, Find;
    LocalIsRecordOk(env, r);
    if Find(d.connections, r.id).None? {
      FindAppended(d.connections, r, r.id);
      if d.primary.Some? {
        FindAppended(d.connections, r, d.primary.value);
      }
      RouteAppended(d.connections, r, d.routes.implement);
      RouteAppended(d.connections, r, d.routes.review);
      RouteAppended(d.connections, r, d.routes.repair);
    }
  }

  lemma RouteAppended(cs: seq<Record>, r: Record, route: Option<Text>)
    requires RouteOk(cs, route)
    ensures RouteOk(cs + [r], route)
  {
    hide Routable, Find;
    if route.Some? {
      FindAppended(cs, r, route.value);
    }
  }

  /** What a migration writes: the migrated document, in which a further migration finds nothing left to write. */
  lemma MigrationSettles(env: Platform, d: Document, r: Record)
    requires DocumentOk(env, d) && r.Local? && LocalOk(env, r) && MigrationPlan(d, r).Propose?
    requires NextDocument(env, d, MigrationPlan(d, r).proposed).Some?
    ensures NextDocument(env, d, MigrationPlan(d, r).proposed) == Some(Migrated(d, r))
    ensures DocumentOk(env, Migrated(d, r)) && MigrationPlan(Migrated(d, r), r).Settled?
  {
    hide DocumentOk, LocalOk, NextDocument, Find, Clean, Proposes, ProposedRoutes, VersionTwo, Field, SameText, Proposal, AreRecords;
    var proposed := MigrationPlan(d, r).proposed;
    var next := NextDocument(env, d, proposed).value;
    NextDocumentExact(env, d, proposed, next);
    NextIsBounded(env, d, r, next);
    MigratedIsProposed(env, d, r);
    NextDocumentExact(env, d, proposed, Migrated(d, r));
    MigratedSettled(env, d, r);
  }

  lemma NextIsBounded(env: Platform, d: Document, r: Record, next: Document)
    requires MigrationPlan(d, r).Propose? && DocumentOk(env, next) && next.revision == d.revision + 1
    requires var ms := MigrationPlan(d, r).proposed.members; Proposes(ms, ProposedRoutes(d, ms), next)
    ensures |Migrated(d, r).connections| <= MAX_CONNECTIONS && d.revision < MAX_REVISION
  {
    hide RecordOk, Find, Field, SameText, ProposedRoutes, IsRoutes, IsRecord, Proposal, RecordJson;
    ProposalFields(d, Migrated(d, r).primary.value, Migrated(d, r).connections);
  }

  lemma MigratedSettled(env: Platform, d: Document, r: Record)
    requires DocumentOk(env, d) && r.Local? && LocalOk(env, r) && MigrationPlan(d, r).Propose?
    requires DocumentOk(env, Migrated(d, r))
    ensures MigrationPlan(Migrated(d, r), r).Settled?
  {
    hide DocumentOk, LocalOk, SameText, Find, Proposal;
    SettledExact(env, Migrated(d, r), r);
    FindAppended(d.connections, r, r.id);
    if Find(d.connections, r.id).Some? {
      SameTextFound(env, d, r);
    }
  }

  lemma SameTextFound(env: Platform, d: Document, r: Record)
    requires DocumentOk(env, d) && r.Local? && LocalOk(env, r) && Find(d.connections, r.id).Some?
    requires SameText(Find(d.connections, r.id).value, r)
    ensures Find(d.connections, r.id) == Some(r)
  {
    hide RecordOk, LocalOk, SameText, UniqueIds, RoutesOk;
    var k :| 0 <= k < |d.connections| && d.connections[k] == Find(d.connections, r.id).value;
    SameTextExact(env, d.connections[k], r);
  }

  /** What a migration need not write holds no secret, because it is in the registry. */
  lemma SettledIsClean(env: Platform, d: Document, r: Record)
    requires DocumentOk(env, d) && RecordsClean(env, d.connections) && r.Local? && LocalOk(env, r) && MigrationPlan(d, r).Settled?
    ensures Clean(env, RecordJson(r))
  {
    hide RecordOk, UniqueIds, RoutesOk, LocalOk, Clean, RecordJson, MigrationPlan;
    SettledExact(env, d, r);
    var k :| 0 <= k < |d.connections| && d.connections[k] == r;
    assert Clean(env, RecordJson(d.connections[k]));
  }

  /** The proposal of a migration assembles to the migrated document itself. */
  lemma MigrationAssembles(env: Platform, d: Document, r: Record)
    requires MigrationPlan(d, r).Propose?
    ensures NextDocument(env, d, MigrationPlan(d, r).proposed) == ParseDocument(env, DocumentJson(Migrated(d, r)))
  {
    hide RecordsJson, RoutesJson, Field, SameText, Find, Proposal, VersionTwo, ParseDocument, ProposedRoutes;
    var next := Migrated(d, r);
    ProposalFields(d, next.primary.value, next.connections);
    ProposalObject(next.primary.value, next.connections);
    PresentId(next.primary.value);
  }

  lemma ProposalObject(primary: Text, cs: seq<Record>)
    ensures Proposal(primary, cs).JObject?
  {
    hide RecordsJson;
  }

  /**
   A migration that has something to write is refused exactly when the revision or the
   number of connections is at its maximum, the record read from the legacy file holds a
   secret, as its base URL may once it is normalised, or the document to write is too long.
   */
  lemma MigrationAcceptedExactly(env: Platform, d: Document, r: Record)
    requires Valid(env, d) && r.Local? && LocalOk(env, r) && MigrationPlan(d, r).Propose?
    ensures var next := NextDocument(env, d, MigrationPlan(d, r).proposed);
      next.Some? && Serialize(next.value).Some? <==>
        && d.revision < MAX_REVISION && |Migrated(d, r).connections| <= MAX_CONNECTIONS && Clean(env, RecordJson(r))
        && Utf8Length(Stringify(DocumentJson(Migrated(d, r)), [32, 32], []) + [10]) <= MAX_REGISTRY_BYTES
  {
    hide NextDocument, LocalOk, DocumentJson, Clean, RecordJson, MigrationPlan, Migrated, Stringify, Utf8Length, DocumentOk;
    ProposalAcceptedExactly(env, d, r);
    if NextDocument(env, d, MigrationPlan(d, r).proposed).Some? {
      MigrationSettles(env, d, r);
    }
  }

  /** The part of that which does not depend on the length. */
  lemma ProposalAcceptedExactly(env: Platform, d: Document, r: Record)
    requires Valid(env, d) && r.Local? && LocalOk(env, r) && MigrationPlan(d, r).Propose?
    ensures NextDocument(env, d, MigrationPlan(d, r).proposed).Some? <==>
      d.revision < MAX_REVISION && |Migrated(d, r).connections| <= MAX_CONNECTIONS && Clean(env, RecordJson(r))
  {
    hide NextDocument, ParseDocument, DocumentOk, LocalOk, DocumentJson, SameText, Find, Clean, RecordJson, Proposal, NamesClean;
    var next := Migrated(d, r);
    MigrationAssembles(env, d, r);
    StoredDocumentsAreFixed(env, next);
    if NextDocument(env, d, MigrationPlan(d, r).proposed).Some? {
      NextIsMigrated(env, d, r);
      CleanDocument(env, next);
      MigratedHasRecord(env, d, r);
    }
    if d.revision < MAX_REVISION && |next.connections| <= MAX_CONNECTIONS && Clean(env, RecordJson(r)) {
      MigratedOk(env, d, r);
      CleanDocument(env, d);
      MigratedRecordsClean(env, d, r);
      MigratedClean(env, d, r);
    }
  }

  lemma NextIsMigrated(env: Platform, d: Document, r: Record)
    requires DocumentOk(env, d) && r.Local? && LocalOk(env, r) && MigrationPlan(d, r).Propose?
    requires NextDocument(env, d, MigrationPlan(d, r).proposed).Some?
    ensures Valid(env, Migrated(d, r)) && d.revision < MAX_REVISION && |Migrated(d, r).connections| <= MAX_CONNECTIONS
  {
    hide NextDocument, LocalOk, DocumentJson, SameText, Find, Clean, Proposal, RecordOk, UniqueIds, RoutesOk;
    MigrationSettles(env, d, r);
    NextDocumentIsValid(env, d, MigrationPlan(d, r).proposed);
  }

  lemma MigratedHasRecord(env: Platform, d: Document, r: Record)
    requires DocumentOk(env, d) && r.Local? && LocalOk(env, r) && MigrationPlan(d, r).Propose?
    requires RecordsClean(env, Migrated(d, r).connections)
    ensures Clean(env, RecordJson(r))
  {
    hide RecordOk, LocalOk, Clean, RecordJson, SameText, Proposal, UniqueIds, RoutesOk;
    var cs := Migrated(d, r).connections;
    if Find(d.connections, r.id).Some? {
      SameTextFound(env, d, r);
      var k :| 0 <= k < |cs| && cs[k] == r;
      assert Clean(env, RecordJson(cs[k]));
    } else {
      assert cs[|cs| - 1] == r;
    }
  }

  lemma MigratedRecordsClean(env: Platform, d: Document, r: Record)
    requires RecordsClean(env, d.connections) && Clean(env, RecordJson(r))
    ensures RecordsClean(env, Migrated(d, r).connections)
  {
    hide Clean, RecordJson, Find;
  }

  /** The primary connection and the routes of a migrated document are ids of its records, which hold no secret. */
  lemma MigratedClean(env: Platform, d: Document, r: Record)
    requires PartsClean(env, d) && RecordsClean(env, Migrated(d, r).connections) && Clean(env, RecordJson(r))
    requires r.Local? && LocalOk(env, r)
    ensures Clean(env, DocumentJson(Migrated(d, r)))
  {
    hide Clean, RecordJson, Find, NamesClean, RoutesClean, RecordsClean, DocumentJson, LocalOk;
    LocalIdClean(env, r);
    DocumentClean(env, Migrated(d, r));
  }

  lemma LocalIdClean(env: Platform, r: Record)
    requires r.Local? && LocalOk(env, r) && Clean(env, RecordJson(r))
    ensures !env.secret(r.id)
  {
    hide RecordOk, RecordJson, Clean, Field, ExactKeys, LocalOk;
    LocalIsRecordOk(env, r);
    RecordPrints(env, r);
    FieldClean(env, RecordJson(r).members, "id");
    NullableClean(env, Some(r.id));
    PresentId(r.id);
  }
}
