module RegistryDocument {
  /**
   The connection registry document: what the normaliser of connection-registry-model.ts
   accepts, what it makes of it, and how a document is written back.
   */

  import opened Options
  import opened Texts
  import opened JsonGrammar
  import opened StrictParser
  import opened JsonText
  import opened Objects
  import opened Platform
  import opened Records

  datatype Role = Implement | Review | Repair {
    function Word(): string {
      match this
      case Implement => "implement"
      case Review => "review"
      case Repair => "repair"
    }
  }

  datatype Routes = Routes(implement: Option<Text>, review: Option<Text>, repair: Option<Text>) {
    function Of(role: Role): Option<Text> {
      match role
      case Implement => implement
      case Review => review
      case Repair => repair
    }

    function With(role: Role, id: Option<Text>): (r: Routes)
      ensures forall other: Role :: r.Of(other) == if other == role then id else Of(other)
    {
      match role
      case Implement => this.(implement := id)
      case Review => this.(review := id)
      case Repair => this.(repair := id)
    }
  }

  datatype Document = Document(revision: int, primary: Option<Text>, routes: Routes, connections: seq<Record>)

  const NO_ROUTES := Routes(None, None, None)

  /** `emptyRegistryDocument`. */
  const EMPTY := Document(0, None, NO_ROUTES, [])

  const MAX_REVISION: int := MAX_SAFE_INTEGER - 1
  const MAX_CONNECTIONS := 256
  const MAX_REGISTRY_BYTES := 262144

  // ---- valid documents

  /** `isActPlanDelegatedAdapter`: the two identifiers joined by a zero are one of the listed pairs. */
  predicate IsActPlan(providerId: Text, adapterId: Text) {
    || providerId + [0] + adapterId == A("openai-codex-chatgpt") + [0] + A("codex-app-server")
    || providerId + [0] + adapterId == A("github-copilot-subscription") + [0] + A("github-copilot-sdk")
  }

  /** A connection that a team role may use: not a delegated agent that can only plan. */
  predicate Routable(r: Record) { r.Delegated? ==> IsActPlan(r.agent.providerId, r.agent.adapterId) }

  /** `connections.find`. */
  function Find(cs: seq<Record>, id: Text): (r: Option<Record>)
    ensures r.Some? ==> r.value in cs && r.value.id == id
    ensures r.None? ==> forall k :: 0 <= k < |cs| ==> cs[k].id != id
  {
    if cs == [] then None else if cs[0].id == id then Some(cs[0]) else Find(cs[1..], id)
  }

  predicate UniqueIds(cs: seq<Record>) { forall j, k :: 0 <= j < k < |cs| ==> cs[j].id != cs[k].id }

  predicate RouteOk(cs: seq<Record>, route: Option<Text>) {
    route.Some? ==> Find(cs, route.value).Some? && Routable(Find(cs, route.value).value)
  }

  predicate RoutesOk(cs: seq<Record>, routes: Routes) {
    RouteOk(cs, routes.implement) && RouteOk(cs, routes.review) && RouteOk(cs, routes.repair)
  }

  /** Valid records under different ids, a primary among them, and a usable connection for every routed role. */
  predicate DocumentOk(env: Platform, d: Document) {
    && 0 <= d.revision <= MAX_REVISION
    && |d.connections| <= MAX_CONNECTIONS && (forall k :: 0 <= k < |d.connections| ==> RecordOk(env, d.connections[k]))
    && UniqueIds(d.connections)
    && (d.primary.Some? ==> Find(d.connections, d.primary.value).Some?)
    && RoutesOk(d.connections, d.routes)
  }

  // ---- presentations

  const V1_NAMES: seq<string> := ["schemaVersion", "revision", "primaryConnectionId", "connections"]
  const V2_NAMES: seq<string> := ["schemaVersion", "revision", "primaryConnectionId", "agentRoutes", "connections"]
  const ROUTE_NAMES: seq<string> := ["implement", "review", "repair"]

  function RouteValues(r: Routes): (values: seq<Option<Json>>)
    ensures |values| == |ROUTE_NAMES|
  {
    [Some(OrNull(r.implement)), Some(OrNull(r.review)), Some(OrNull(r.repair))]
  }

  function RoutesJson(r: Routes): Json { JObject(Object(ROUTE_NAMES, RouteValues(r))) }

  function RecordsJson(cs: seq<Record>): seq<Json> { seq(|cs|, i requires 0 <= i < |cs| => RecordJson(cs[i])) }

  /** A version 2 document object; None stands for a member that is `undefined`. */
  function VersionTwo(revision: int, primary: Option<Json>, routes: Json, connections: Option<Json>): (v: Json)
    ensures v.JObject?
  {
    JObject(Object(V2_NAMES, [Some(JNumber(2.0)), Some(JNumber(revision as real)), primary, Some(routes), connections]))
  }

  function DocumentJson(d: Document): Json {
    VersionTwo(d.revision, Some(OrNull(d.primary)), RoutesJson(d.routes), Some(JArray(RecordsJson(d.connections))))
  }

  predicate IsRoutes(v: Json, r: Routes) {
    && v.JObject? && ExactKeys(v.members, ROUTE_NAMES, {})
    && Field(v.members, "implement") == Some(OrNull(r.implement))
    && Field(v.members, "review") == Some(OrNull(r.review))
    && Field(v.members, "repair") == Some(OrNull(r.repair))
  }

  ghost predicate AreRecords(items: seq<Json>, cs: seq<Record>) {
    |items| == |cs| && forall k :: 0 <= k < |items| ==> IsRecord(items[k], cs[k])
  }

  /** The members that both versions have. */
  ghost predicate IsCommon(ms: seq<Member>, d: Document) {
    && Field(ms, "revision") == Some(JNumber(d.revision as real))
    && Field(ms, "primaryConnectionId") == Some(OrNull(d.primary))
    && Field(ms, "connections").Some? && Field(ms, "connections").value.JArray?
    && AreRecords(Field(ms, "connections").value.items, d.connections)
  }

  /** A version 1 object, which has no routes. */
  ghost predicate IsVersionOne(ms: seq<Member>, d: Document) {
    && Field(ms, "schemaVersion") == Some(JNumber(1.0)) && ExactKeys(ms, V1_NAMES, {}) && d.routes == NO_ROUTES
  }

  ghost predicate IsVersionTwo(ms: seq<Member>, d: Document) {
    && Field(ms, "schemaVersion") == Some(JNumber(2.0)) && ExactKeys(ms, V2_NAMES, {})
    && Field(ms, "agentRoutes").Some? && IsRoutes(Field(ms, "agentRoutes").value, d.routes)
  }

  /** `v` presents the document, in either version, its members in any order. */
  ghost predicate IsDocument(v: Json, d: Document) {
    v.JObject? && IsCommon(v.members, d) && (IsVersionOne(v.members, d) || IsVersionTwo(v.members, d))
  }

  // ---- the normaliser

  function ReadRevision(v: Option<Json>): (r: Option<int>)
    ensures forall n: int :: r == Some(n) <==> 0 <= n <= MAX_REVISION && v == Some(JNumber(n as real))
  {
    if v.Some? && v.value.JNumber? && IsSafe(v.value.number) && 0 <= v.value.number.Floor <= MAX_REVISION
    then Some(v.value.number.Floor) else None
  }

  function RecordReader(env: Platform): Json -> Option<Record> { (v: Json) => ParseRecord(env, v) }

  function ParseRecords(env: Platform, v: Option<Json>): Option<seq<Record>> {
    if v.None? || !v.value.JArray? || |v.value.items| > MAX_CONNECTIONS then None else
    var cs := ReadAll(v.value.items, RecordReader(env));
    if cs.None? || !UniqueIds(cs.value) then None else cs
  }

  function ParseRoute(env: Platform, ms: seq<Member>, name: string, cs: seq<Record>): Option<Option<Text>> {
    var route := NullableField(env, ms, name, IDENTIFIER);
    if route.None? || !RouteOk(cs, route.value) then None else route
  }

  function ParseRoutes(env: Platform, v: Option<Json>, cs: seq<Record>): Option<Routes> {
    if v.None? || !v.value.JObject? || !ExactKeys(v.value.members, ROUTE_NAMES, {}) then None else
    var ms := v.value.members;
    var implement, review := ParseRoute(env, ms, "implement", cs), ParseRoute(env, ms, "review", cs);
    var repair := ParseRoute(env, ms, "repair", cs);
    if implement.None? || review.None? || repair.None? then None
    else Some(Routes(implement.value, review.value, repair.value))
  }

  /** `parseRegistryDocument`. */
  function ParseDocument(env: Platform, v: Json): Option<Document> {
    if !Clean(env, v) || !v.JObject? then None else
    var ms := v.members;
    var one := Field(ms, "schemaVersion") == Some(JNumber(1.0));
    if !one && Field(ms, "schemaVersion") != Some(JNumber(2.0)) then None
    else if !ExactKeys(ms, if one then V1_NAMES else V2_NAMES, {}) then None else
    var revision, connections := ReadRevision(Field(ms, "revision")), ParseRecords(env, Field(ms, "connections"));
    if revision.None? || connections.None? then None else
    var primary := NullableField(env, ms, "primaryConnectionId", IDENTIFIER);
    if primary.None? || (primary.value.Some? && Find(connections.value, primary.value.value).None?) then None else
    var routes := if one then Some(NO_ROUTES) else ParseRoutes(env, Field(ms, "agentRoutes"), connections.value);
    if routes.None? then None
    else Some(Document(revision.value, primary.value, routes.value, connections.value))
  }

  // ---- what the normaliser accepts

  lemma {:induction false} FindOk(env: Platform, cs: seq<Record>, id: Text)
    requires Find(cs, id).Some? && forall k :: 0 <= k < |cs| ==> RecordOk(env, cs[k])
    ensures TextOk(env, id, IDENTIFIER)
  {
    hide RecordOk, TextOk;
    var k :| 0 <= k < |cs| && cs[k] == Find(cs, id).value;
    RecordIdOk(env, cs[k]);
  }

  lemma RecordIdOk(env: Platform, r: Record)
    requires RecordOk(env, r)
    ensures TextOk(env, r.id, IDENTIFIER)
  {
    hide TextOk, ModelOk, AgentOk, TermsOk, EnvironmentDatesOk;
  }

  lemma RecordsExact(env: Platform, items: seq<Json>, cs: seq<Record>)
    requires Clean(env, JArray(items))
    ensures ReadAll(items, RecordReader(env)) == Some(cs)
       <==> AreRecords(items, cs) && forall k :: 0 <= k < |cs| ==> RecordOk(env, cs[k])
  {
    hide ParseRecord, RecordOk, IsRecord, ReadAll;
    var read := RecordReader(env);
    if |cs| == |items| {
      forall k | 0 <= k < |cs| ensures read(items[k]) == Some(cs[k]) <==> RecordOk(env, cs[k]) && IsRecord(items[k], cs[k]) {
        RecordExact(env, items[k], cs[k]);
      }
      if AreRecords(items, cs) && forall k :: 0 <= k < |cs| ==> RecordOk(env, cs[k]) {
        ReadAllComplete(items, read, cs);
      }
    }
  }

  /** The connections part of the document predicates. */
  predicate ConnectionsOk(env: Platform, cs: seq<Record>) {
    |cs| <= MAX_CONNECTIONS && UniqueIds(cs) && forall k :: 0 <= k < |cs| ==> RecordOk(env, cs[k])
  }

  lemma ConnectionsExact(env: Platform, v: Option<Json>, cs: seq<Record>)
    requires v.Some? ==> Clean(env, v.value)
    ensures ParseRecords(env, v) == Some(cs)
       <==> ConnectionsOk(env, cs) && v.Some? && v.value.JArray? && AreRecords(v.value.items, cs)
  {
    hide RecordOk, IsRecord, ReadAll, UniqueIds, RecordReader, Clean;
    if v.Some? && v.value.JArray? {
      RecordsExact(env, v.value.items, cs);
    }
  }

  lemma RouteExact(env: Platform, ms: seq<Member>, name: string, cs: seq<Record>, route: Option<Text>)
    requires ConnectionsOk(env, cs)
    ensures ParseRoute(env, ms, name, cs) == Some(route) <==> RouteOk(cs, route) && Field(ms, name) == Some(OrNull(route))
  {
    hide RecordOk, TextOk, Field, Routable, Find, UniqueIds;
    if RouteOk(cs, route) && route.Some? {
      FindOk(env, cs, route.value);
    }
  }

  lemma RoutesExact(env: Platform, v: Option<Json>, cs: seq<Record>, r: Routes)
    requires ConnectionsOk(env, cs)
    ensures ParseRoutes(env, v, cs) == Some(r) <==> RoutesOk(cs, r) && v.Some? && IsRoutes(v.value, r)
  {
    hide ConnectionsOk, ParseRoute, RouteOk, Field, ExactKeys, ROUTE_NAMES, OrNull;
    if v.Some? && v.value.JObject? {
      RouteExact(env, v.value.members, "implement", cs, r.implement);
      RouteExact(env, v.value.members, "review", cs, r.review);
      RouteExact(env, v.value.members, "repair", cs, r.repair);
    }
  }

  lemma PrimaryExact(env: Platform, ms: seq<Member>, cs: seq<Record>, id: Option<Text>)
    requires ConnectionsOk(env, cs)
    ensures NullableField(env, ms, "primaryConnectionId", IDENTIFIER) == Some(id) && (id.Some? ==> Find(cs, id.value).Some?)
       <==> (id.Some? ==> Find(cs, id.value).Some?) && Field(ms, "primaryConnectionId") == Some(OrNull(id))
  {
    hide RecordOk, TextOk, Field, Find, UniqueIds;
    if id.Some? && Find(cs, id.value).Some? {
      FindOk(env, cs, id.value);
    }
  }

  lemma ConnectionsClean(env: Platform, v: Json)
    requires v.JObject? && Clean(env, v) && Field(v.members, "connections").Some?
    ensures Clean(env, Field(v.members, "connections").value)
  {
    FieldClean(env, v.members, "connections");
  }

  lemma ParsedDocument(env: Platform, v: Json, d: Document)
    requires ParseDocument(env, v) == Some(d)
    ensures Clean(env, v) && DocumentOk(env, d) && IsDocument(v, d)
  {
    hide Clean, ParseRecords, ParseRoutes, NullableField, ReadRevision, Field, Find, AreRecords, RecordOk, UniqueIds,
      RoutesOk, IsRoutes, ExactKeys, V1_NAMES, V2_NAMES, OrNull;
    var ms := v.members;
    if Field(ms, "connections").Some? {
      ConnectionsClean(env, v);
    }
    ConnectionsExact(env, Field(ms, "connections"), d.connections);
    PrimaryExact(env, ms, d.connections, d.primary);
    RoutesExact(env, Field(ms, "agentRoutes"), d.connections, d.routes);
    NoRoutesOk(d.connections);
  }

  lemma DocumentParses(env: Platform, v: Json, d: Document)
    requires Clean(env, v) && DocumentOk(env, d) && IsDocument(v, d)
    ensures ParseDocument(env, v) == Some(d)
  {
    hide Clean, ParseRecords, ParseRoutes, NullableField, ReadRevision, Field, Find, AreRecords, RecordOk, UniqueIds,
      RoutesOk, IsRoutes, ExactKeys, V1_NAMES, V2_NAMES, OrNull;
    var ms := v.members;
    ConnectionsClean(env, v);
    ConnectionsExact(env, Field(ms, "connections"), d.connections);
    PrimaryExact(env, ms, d.connections, d.primary);
    RoutesExact(env, Field(ms, "agentRoutes"), d.connections, d.routes);
    assert ReadRevision(Field(ms, "revision")) == Some(d.revision);
    assert ParseRecords(env, Field(ms, "connections")) == Some(d.connections);
    assert NullableField(env, ms, "primaryConnectionId", IDENTIFIER) == Some(d.primary);
  }

  /**
   The normaliser accepts exactly the presentations, in either version, of a valid document
   that hold no secret, and its result is the document presented.
   */
  lemma DocumentExact(env: Platform, v: Json, d: Document)
    ensures ParseDocument(env, v) == Some(d) <==> Clean(env, v) && DocumentOk(env, d) && IsDocument(v, d)
  {
    hide Clean, ParseDocument, DocumentOk, IsDocument;
    if ParseDocument(env, v) == Some(d) {
      ParsedDocument(env, v, d);
    }
    if Clean(env, v) && DocumentOk(env, d) && IsDocument(v, d) {
      DocumentParses(env, v, d);
    }
  }

  lemma NoRoutesOk(cs: seq<Record>)
    ensures RoutesOk(cs, NO_ROUTES)
  {
  }

  // ---- a document written back

  /** None of the document's own member names is on the list of forbidden names. */
  predicate NamesClean(env: Platform) {
    && !env.forbiddenKey(A("schemaVersion")) && !env.forbiddenKey(A("revision")) && !env.forbiddenKey(A("primaryConnectionId"))
    && !env.forbiddenKey(A("agentRoutes")) && !env.forbiddenKey(A("connections"))
    && !env.forbiddenKey(A("implement")) && !env.forbiddenKey(A("review")) && !env.forbiddenKey(A("repair"))
  }

  predicate OptionClean(env: Platform, t: Option<Text>) { t.Some? ==> !env.secret(t.value) }

  predicate RoutesClean(env: Platform, r: Routes) {
    OptionClean(env, r.implement) && OptionClean(env, r.review) && OptionClean(env, r.repair)
  }

  predicate RecordsClean(env: Platform, cs: seq<Record>) { forall k :: 0 <= k < |cs| ==> Clean(env, RecordJson(cs[k])) }

  predicate PartsClean(env: Platform, d: Document) {
    NamesClean(env) && OptionClean(env, d.primary) && RoutesClean(env, d.routes) && RecordsClean(env, d.connections)
  }

  lemma VersionTwoFields(revision: int, primary: Option<Json>, routes: Json, connections: Option<Json>)
    ensures var ms := VersionTwo(revision, primary, routes, connections).members;
      && Field(ms, "schemaVersion") == Some(JNumber(2.0)) && Field(ms, "revision") == Some(JNumber(revision as real))
      && Field(ms, "primaryConnectionId") == primary && Field(ms, "agentRoutes") == Some(routes)
      && Field(ms, "connections") == connections
      && (primary.Some? && connections.Some? ==> ExactKeys(ms, V2_NAMES, {}))
  {
    hide Object, Field, ExactKeys;
    var values := [Some(JNumber(2.0)), Some(JNumber(revision as real)), primary, Some(routes), connections];
    DocumentNamesOk();
    ObjectField(V2_NAMES, values, 0);
    ObjectField(V2_NAMES, values, 1);
    ObjectField(V2_NAMES, values, 2);
    ObjectField(V2_NAMES, values, 3);
    ObjectField(V2_NAMES, values, 4);
    if primary.Some? && connections.Some? {
      ObjectExact(V2_NAMES, values, {});
    }
  }

  lemma DocumentNamesOk()
    ensures Different(V2_NAMES) && Different(ROUTE_NAMES)
  {
  }

  lemma RoutesFields(r: Routes)
    ensures IsRoutes(RoutesJson(r), r)
  {
    hide Object, Field, ExactKeys, OrNull;
    var ms, values := Object(ROUTE_NAMES, RouteValues(r)), RouteValues(r);
    DocumentNamesOk();
    ObjectExact(ROUTE_NAMES, values, {});
    assert Field(ms, ROUTE_NAMES[0]) == values[0] && Field(ms, ROUTE_NAMES[1]) == values[1];
    assert Field(ms, ROUTE_NAMES[2]) == values[2];
  }

  lemma RoutesCleanExact(env: Platform, r: Routes)
    requires !env.forbiddenKey(A("implement")) && !env.forbiddenKey(A("review")) && !env.forbiddenKey(A("repair"))
    requires RoutesClean(env, r)
    ensures Clean(env, RoutesJson(r))
  {
    hide Object;
    ObjectClean(env, ROUTE_NAMES, RouteValues(r));
  }

  lemma CleanRoutes(env: Platform, r: Routes)
    requires Clean(env, RoutesJson(r))
    ensures RoutesClean(env, r)
    ensures !env.forbiddenKey(A("implement")) && !env.forbiddenKey(A("review")) && !env.forbiddenKey(A("repair"))
  {
    hide Object, Field, ExactKeys;
    RoutesFields(r);
    var ms := RoutesJson(r).members;
    FieldClean(env, ms, "implement");
    FieldClean(env, ms, "review");
    FieldClean(env, ms, "repair");
  }

  lemma CleanDocument(env: Platform, d: Document)
    requires Clean(env, DocumentJson(d))
    ensures PartsClean(env, d)
  {
    hide RoutesJson, Field, ExactKeys, RecordJson, Object, RoutesClean;
    var records := JArray(RecordsJson(d.connections));
    VersionTwoFields(d.revision, Some(OrNull(d.primary)), RoutesJson(d.routes), Some(records));
    var ms := DocumentJson(d).members;
    FieldClean(env, ms, "schemaVersion");
    FieldClean(env, ms, "revision");
    FieldClean(env, ms, "primaryConnectionId");
    FieldClean(env, ms, "agentRoutes");
    FieldClean(env, ms, "connections");
    CleanRoutes(env, d.routes);
    forall k | 0 <= k < |d.connections| ensures Clean(env, RecordJson(d.connections[k])) {
      assert Clean(env, records.items[k]);
    }
  }

  lemma DocumentClean(env: Platform, d: Document)
    requires PartsClean(env, d)
    ensures Clean(env, DocumentJson(d))
  {
    hide RoutesJson, RecordJson, Object, RoutesClean;
    var records := JArray(RecordsJson(d.connections));
    RoutesCleanExact(env, d.routes);
    assert Clean(env, records);
    ObjectClean(env, V2_NAMES, [Some(JNumber(2.0)), Some(JNumber(d.revision as real)), Some(OrNull(d.primary)),
                                Some(RoutesJson(d.routes)), Some(records)]);
  }

  lemma DocumentPrints(env: Platform, d: Document)
    requires DocumentOk(env, d)
    ensures IsDocument(DocumentJson(d), d)
  {
    hide RoutesJson, Field, ExactKeys, RecordJson, Object, IsRecord, RecordOk, UniqueIds, RoutesOk, IsRoutes, OrNull, Find,
      V1_NAMES, V2_NAMES;
    VersionTwoFields(d.revision, Some(OrNull(d.primary)), RoutesJson(d.routes), Some(JArray(RecordsJson(d.connections))));
    RoutesFields(d.routes);
    forall k | 0 <= k < |d.connections| ensures IsRecord(RecordsJson(d.connections)[k], d.connections[k]) {
      RecordPrints(env, d.connections[k]);
    }
  }

  /** A document that may be stored: valid, and without secrets as written. */
  predicate Valid(env: Platform, d: Document) { DocumentOk(env, d) && Clean(env, DocumentJson(d)) }

  /** The normaliser leaves exactly the documents that may be stored as they are. */
  lemma StoredDocumentsAreFixed(env: Platform, d: Document)
    ensures ParseDocument(env, DocumentJson(d)) == Some(d) <==> Valid(env, d)
  {
    hide DocumentOk, IsDocument, Clean, ParseDocument, DocumentJson;
    DocumentExact(env, DocumentJson(d), d);
    if DocumentOk(env, d) {
      DocumentPrints(env, d);
    }
  }

  lemma RecordsStayClean(env: Platform, items: seq<Json>, cs: seq<Record>)
    requires AreRecords(items, cs) && Clean(env, JArray(items))
    ensures RecordsClean(env, cs)
  {
    hide IsRecord, RecordJson;
    forall k | 0 <= k < |cs| ensures Clean(env, RecordJson(cs[k])) {
      RecordClean(env, items[k], cs[k]);
    }
  }

  lemma AcceptedIsClean(env: Platform, v: Json, d: Document)
    requires NamesClean(env) && Clean(env, v) && IsDocument(v, d)
    ensures Clean(env, DocumentJson(d))
  {
    hide Field, ExactKeys, RecordJson, AreRecords, IsRoutes, NamesClean, RecordsClean, DocumentJson, Clean, V1_NAMES, V2_NAMES;
    var ms := v.members;
    FieldClean(env, ms, "primaryConnectionId");
    FieldClean(env, ms, "connections");
    RecordsStayClean(env, Field(ms, "connections").value.items, d.connections);
    NullableClean(env, d.primary);
    if IsVersionTwo(ms, d) {
      FieldClean(env, ms, "agentRoutes");
      PresentedRoutesClean(env, Field(ms, "agentRoutes").value, d.routes);
    }
    DocumentClean(env, d);
  }

  lemma NullableClean(env: Platform, t: Option<Text>)
    ensures Clean(env, OrNull(t)) <==> OptionClean(env, t)
  {
  }

  lemma PresentedRoutesClean(env: Platform, v: Json, r: Routes)
    requires IsRoutes(v, r) && Clean(env, v)
    ensures RoutesClean(env, r)
  {
    hide Field, ExactKeys, Clean, OrNull, ROUTE_NAMES;
    FieldClean(env, v.members, "implement");
    FieldClean(env, v.members, "review");
    FieldClean(env, v.members, "repair");
    NullableClean(env, r.implement);
    NullableClean(env, r.review);
    NullableClean(env, r.repair);
  }

  /**
   The normaliser is idempotent: what it makes of any accepted value, of either version and
   with its members and allowed sources in any order, it accepts again unchanged.
   */
  lemma NormaliserIsIdempotent(env: Platform, v: Json, d: Document)
    requires ParseDocument(env, v) == Some(d)
    ensures ParseDocument(env, DocumentJson(d)) == Some(d) <==> NamesClean(env)
    ensures NamesClean(env) ==> Valid(env, d)
  {
    hide DocumentOk, IsDocument, Clean, ParseDocument, DocumentJson, PartsClean, NamesClean;
    DocumentExact(env, v, d);
    StoredDocumentsAreFixed(env, d);
    if NamesClean(env) {
      AcceptedIsClean(env, v, d);
    } else if Clean(env, DocumentJson(d)) {
      CleanDocumentNames(env, d);
    }
  }

  lemma CleanDocumentNames(env: Platform, d: Document)
    requires Clean(env, DocumentJson(d))
    ensures NamesClean(env)
  {
    hide Clean, DocumentJson, NamesClean, RecordsClean;
    CleanDocument(env, d);
  }

  // ---- bytes

  /** `serializeRegistryDocument`: two spaces of indent and a newline, or None when that is too long. */
  function Serialize(d: Document): Option<Text> {
    var t := Stringify(DocumentJson(d), [32, 32], []) + [10];
    if Utf8Length(t) > MAX_REGISTRY_BYTES then None else Some(t)
  }

  /** What `readRegistry` makes of the text of a stored file. */
  function ReadDocument(env: Platform, t: Text): Option<Document> {
    var v :- ParseText(t);
    ParseDocument(env, v)
  }

  lemma DocumentFits(env: Platform, d: Document)
    requires DocumentOk(env, d)
    ensures Fits(DocumentJson(d), 7)
  {
    hide RoutesJson, RecordJson, Object, Fits, RecordOk, UniqueIds, RoutesOk, Find, OrNull;
    forall k | 0 <= k < |d.connections| ensures Fits(RecordsJson(d.connections)[k], 5) {
      RecordFits(env, d.connections[k]);
    }
    ArrayFits(RecordsJson(d.connections), 5);
    NumberFits(2, 6);
    NumberFits(d.revision, 6);
    DocumentTextsFit(env, d);
    DocumentNamesOk();
    ObjectFits(V2_NAMES, [Some(JNumber(2.0)), Some(JNumber(d.revision as real)), Some(OrNull(d.primary)),
                          Some(RoutesJson(d.routes)), Some(JArray(RecordsJson(d.connections)))], 6);
  }

  lemma DocumentTextsFit(env: Platform, d: Document)
    requires DocumentOk(env, d)
    ensures Fits(OrNull(d.primary), 6) && Fits(RoutesJson(d.routes), 6)
  {
    hide Object, Fits, RecordOk, UniqueIds, Find, OrNull, TextOk, RouteValues, Routable;
    IdFits(env, d.connections, d.primary, 6);
    IdFits(env, d.connections, d.routes.implement, 5);
    IdFits(env, d.connections, d.routes.review, 5);
    IdFits(env, d.connections, d.routes.repair, 5);
    DocumentNamesOk();
    RouteValuesFit(d.routes);
    ObjectFits(ROUTE_NAMES, RouteValues(d.routes), 5);
  }

  lemma RouteValuesFit(r: Routes)
    requires Fits(OrNull(r.implement), 5) && Fits(OrNull(r.review), 5) && Fits(OrNull(r.repair), 5)
    ensures AllFit(RouteValues(r), 5)
  {
    hide Fits, OrNull;
  }

  lemma IdFits(env: Platform, cs: seq<Record>, id: Option<Text>, limit: nat)
    requires (forall k :: 0 <= k < |cs| ==> RecordOk(env, cs[k])) && (id.Some? ==> Find(cs, id.value).Some?) && limit > 0
    ensures Fits(OrNull(id), limit)
  {
    hide RecordOk, TextOk, Find;
    if id.Some? {
      FindOk(env, cs, id.value);
      TextOkIsText(env, id.value, IDENTIFIER);
      TextFits(id.value, limit);
    }
  }

  /** The bytes of a document that may be stored, read strictly and normalised, give the same document. */
  lemma SerializeRoundTrip(env: Platform, d: Document)
    requires Valid(env, d) && Serialize(d).Some?
    ensures ReadDocument(env, Serialize(d).value) == Some(d)
  {
    hide DocumentJson, DocumentOk, Clean, ParseText, Stringify, Utf8Length, ParseDocument;
    DocumentFits(env, d);
    FitsDeeper(DocumentJson(d), 7, MAX_DEPTH);
    StringifyRoundTrip(DocumentJson(d), [32, 32]);
    StoredDocumentsAreFixed(env, d);
  }

  // ---- the next document

  /** `proposed.agentRoutes ?? current.agentRoutes`. */
  function ProposedRoutes(current: Document, proposed: seq<Member>): Json {
    var routes := Field(proposed, "agentRoutes");
    if routes.Some? && routes.value != JNull then routes.value else RoutesJson(current.routes)
  }

  /** `nextRegistryDocument`, for whatever value a mutation proposes. */
  function NextDocument(env: Platform, current: Document, proposed: Json): Option<Document> {
    if !proposed.JObject? then None
    else ParseDocument(env, VersionTwo(
      current.revision + 1, Field(proposed.members, "primaryConnectionId"), ProposedRoutes(current, proposed.members),
      Field(proposed.members, "connections")))
  }

  /** The parts of a proposal present the parts of the document. */
  ghost predicate Proposes(ms: seq<Member>, routes: Json, d: Document) {
    && Field(ms, "primaryConnectionId") == Some(OrNull(d.primary))
    && IsRoutes(routes, d.routes)
    && Field(ms, "connections").Some? && Field(ms, "connections").value.JArray?
    && AreRecords(Field(ms, "connections").value.items, d.connections)
  }

  lemma AssembledDocument(ms: seq<Member>, routes: Json, revision: int, d: Document)
    ensures IsDocument(VersionTwo(revision, Field(ms, "primaryConnectionId"), routes, Field(ms, "connections")), d)
       <==> d.revision == revision && Proposes(ms, routes, d)
  {
    hide AreRecords, IsRoutes, ExactKeys, Field, V1_NAMES, V2_NAMES, OrNull;
    VersionTwoFields(revision, Field(ms, "primaryConnectionId"), routes, Field(ms, "connections"));
  }

  /**
   Whatever a mutation proposes, the next document is accepted exactly when the proposal
   presents a valid document without secrets, and then it is that document, one revision later.
   */
  lemma NextDocumentExact(env: Platform, current: Document, proposed: Json, d: Document)
    ensures NextDocument(env, current, proposed) == Some(d) <==>
      && proposed.JObject? && d.revision == current.revision + 1 && DocumentOk(env, d)
      && Proposes(proposed.members, ProposedRoutes(current, proposed.members), d)
      && Clean(env, VersionTwo(current.revision + 1, Field(proposed.members, "primaryConnectionId"),
                               ProposedRoutes(current, proposed.members), Field(proposed.members, "connections")))
  {
    hide Clean, DocumentOk, IsDocument, ParseDocument, Proposes, Field, ProposedRoutes, VersionTwo;
    if proposed.JObject? {
      var ms := proposed.members;
      var routes := ProposedRoutes(current, ms);
      AssembledDocument(ms, routes, current.revision + 1, d);
      DocumentExact(env, VersionTwo(current.revision + 1, Field(ms, "primaryConnectionId"), routes, Field(ms, "connections")), d);
    }
  }

  /** Any accepted next document may be stored and is one revision later, whatever the mutation did. */
  lemma NextDocumentIsValid(env: Platform, current: Document, proposed: Json)
    requires NextDocument(env, current, proposed).Some?
    ensures Valid(env, NextDocument(env, current, proposed).value)
    ensures NextDocument(env, current, proposed).value.revision == current.revision + 1 <= MAX_REVISION
  {
    hide Clean, ParseDocument, IsDocument, DocumentJson, NamesClean, Field, ProposedRoutes, RecordOk, UniqueIds, RoutesOk, Find,
      VersionTwo, Proposes, Valid;
    var ms := proposed.members;
    var d := NextDocument(env, current, proposed).value;
    NextDocumentExact(env, current, proposed, d);
    StoredAsAssembled(env, current.revision + 1, Field(ms, "primaryConnectionId"), ProposedRoutes(current, ms),
                      Field(ms, "connections"), d);
  }

  lemma StoredAsAssembled(env: Platform, revision: int, primary: Option<Json>, routes: Json, connections: Option<Json>, d: Document)
    requires ParseDocument(env, VersionTwo(revision, primary, routes, connections)) == Some(d)
    ensures Valid(env, d)
  {
    hide Clean, ParseDocument, DocumentOk, DocumentJson, NamesClean, VersionTwo, ExactKeys, V2_NAMES;
    var v := VersionTwo(revision, primary, routes, connections);
    VersionTwoFields(revision, primary, routes, connections);
    AssembledNamesClean(env, v, d);
    NormaliserIsIdempotent(env, v, d);
  }

  lemma AssembledNamesClean(env: Platform, v: Json, d: Document)
    requires ParseDocument(env, v) == Some(d) && v.JObject? && Field(v.members, "schemaVersion") == Some(JNumber(2.0))
    ensures NamesClean(env)
  {
    hide Clean, ParseDocument, DocumentOk, Field, ExactKeys, OrNull, V1_NAMES, V2_NAMES, ROUTE_NAMES, AreRecords;
    DocumentExact(env, v, d);
    var ms := v.members;
    FieldClean(env, ms, "schemaVersion");
    FieldClean(env, ms, "revision");
    FieldClean(env, ms, "primaryConnectionId");
    FieldClean(env, ms, "agentRoutes");
    FieldClean(env, ms, "connections");
    var routes := Field(ms, "agentRoutes").value;
    FieldClean(env, routes.members, "implement");
    FieldClean(env, routes.members, "review");
    FieldClean(env, routes.members, "repair");
  }

  /** A draft is accepted as it is exactly when, one revision after the current document, it may be stored. */
  lemma DraftExact(env: Platform, current: Document, draft: Document)
    ensures var next := draft.(revision := current.revision + 1);
      NextDocument(env, current, DocumentJson(draft)) == Some(next) <==> Valid(env, next)
  {
    hide Clean, ParseDocument, DocumentOk, Field, RoutesJson, RecordsJson, OrNull, VersionTwo, IsDocument;
    var next := draft.(revision := current.revision + 1);
    VersionTwoFields(draft.revision, Some(OrNull(draft.primary)), RoutesJson(draft.routes), Some(JArray(RecordsJson(draft.connections))));
    DraftObject(draft);
    RoutesObject(draft.routes);
    assert ProposedRoutes(current, DocumentJson(draft).members) == RoutesJson(draft.routes);
    assert NextDocument(env, current, DocumentJson(draft)) == ParseDocument(env, DocumentJson(next));
    StoredDocumentsAreFixed(env, next);
  }

  lemma DraftObject(d: Document)
    ensures DocumentJson(d).JObject?
  {
    hide RoutesJson, RecordsJson;
  }

  lemma RoutesObject(r: Routes)
    ensures RoutesJson(r).JObject?
  {
  }
}
