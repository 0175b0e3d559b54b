/** The edits of the connection lifecycle: what they refuse, what they change, and that they always pass revalidation. */
module Edits {
  import opened Options
  import opened Texts
  import opened Objects
  import JsonGrammar
  import opened Platform
  import opened Records
  import opened RegistryDocument

  datatype Assignment = Assignment(role: Role, id: Option<Text>)

  datatype Request = SetPrimary(id: Text) | Disconnect(id: Text) | SetRoutes(assignments: seq<Assignment>)

  datatype Edit = Unchanged | NotFound | Unavailable | Changed(draft: Document)

  /** `exactRecord`: an id of the wrong form is not looked up. */
  function ExactRecord(d: Document, id: Text): Option<Record> {
    if Matches(id, Identifier) && |id| <= 128 then Find(d.connections, id) else None
  }

  // ---- drafts

  /** `findIndex` and `splice`. */
  function Without(cs: seq<Record>, id: Text): seq<Record> {
    if cs == [] then [] else if cs[0].id == id then cs[1..] else [cs[0]] + Without(cs[1..], id)
  }

  function Cleared(route: Option<Text>, id: Text): Option<Text> { if route == Some(id) then None else route }

  function Disconnected(d: Document, id: Text): Document {
    d.(connections := Without(d.connections, id),
       primary := Cleared(d.primary, id),
       routes := Routes(Cleared(d.routes.implement, id), Cleared(d.routes.review, id), Cleared(d.routes.repair, id)))
  }

  /** The routes after the assignments, one by one. */
  function Assigned(routes: Routes, assignments: seq<Assignment>): Routes
    decreases |assignments|
  {
    if assignments == [] then routes
    else Assigned(routes.With(assignments[0].role, assignments[0].id), assignments[1..])
  }

  predicate DifferentRoles(assignments: seq<Assignment>) {
    forall j, k :: 0 <= j < k < |assignments| ==> assignments[j].role != assignments[k].role
  }

  /** The first assignment that names a missing or an unusable connection decides. */
  function RouteProblem(d: Document, assignments: seq<Assignment>): (problem: Option<Edit>)
    ensures problem.Some? ==> problem.value.NotFound? || problem.value.Unavailable?
  {
    if assignments == [] then None
    else if assignments[0].id.None? then RouteProblem(d, assignments[1..])
    else
      var r := ExactRecord(d, assignments[0].id.value);
      if r.None? then Some(NotFound)
      else if !Routable(r.value) then Some(Unavailable)
      else RouteProblem(d, assignments[1..])
  }

  /** The mutation callback of an operation, which edits the draft that the commit gives it. */
  function Callback(request: Request, d: Document): Edit {
    match request
    case SetPrimary(id) => if ExactRecord(d, id).None? then NotFound else Changed(d.(primary := Some(id)))
    case Disconnect(id) => if Find(d.connections, id).None? then NotFound else Changed(Disconnected(d, id))
    case SetRoutes(assignments) =>
      var problem := RouteProblem(d, assignments);
      if problem.Some? then problem.value else Changed(d.(routes := Assigned(d.routes, assignments)))
  }

  /** The tests of an operation on the document it has read, before it commits. */
  function Apply(request: Request, d: Document): Edit {
    match request
    case SetPrimary(id) =>
      if ExactRecord(d, id).None? then NotFound else if d.primary == Some(id) then Unchanged else Callback(request, d)
    case Disconnect(id) => if ExactRecord(d, id).None? then NotFound else Callback(request, d)
    case SetRoutes(assignments) =>
      var problem := RouteProblem(d, assignments);
      if problem.Some? then problem.value
      else if forall k :: 0 <= k < |assignments| ==> d.routes.Of(assignments[k].role) == assignments[k].id then Unchanged
      else Callback(request, d)
  }

  // ---- what an edit changes, and nothing else

  lemma {:induction false} WithoutOne(cs: seq<Record>, id: Text) returns (i: nat)
    requires Find(cs, id).Some?
    ensures i < |cs| && cs[i] == Find(cs, id).value && Without(cs, id) == cs[..i] + cs[i + 1..]
  {
    hide Find;
    FindStep(cs, id);
    if cs[0].id == id {
      i := 0;
      assert cs[..0] + cs[1..] == cs[1..];
    } else {
      var rest := cs[1..];
      var j := WithoutOne(rest, id);
      i := j + 1;
      Prepended(cs, j);
    }
  }

  lemma FindStep(cs: seq<Record>, id: Text)
    requires Find(cs, id).Some?
    ensures cs != [] && (if cs[0].id == id then Find(cs, id).value == cs[0] else Find(cs[1..], id) == Find(cs, id))
  {
  }

  lemma Prepended(cs: seq<Record>, j: nat)
    requires j + 1 < |cs|
    ensures [cs[0]] + (cs[1..][..j] + cs[1..][j + 1..]) == cs[..j + 1] + cs[j + 2..]
  {
    assert cs[1..][j + 1..] == cs[j + 2..];
    assert [cs[0]] + cs[1..][..j] == cs[..j + 1];
  }

  /** A disconnection removes one record, the one asked for, and clears exactly the references to it. */
  lemma DisconnectFrame(d: Document, id: Text) returns (i: nat)
    requires Apply(Disconnect(id), d).Changed? && UniqueIds(d.connections)
    ensures var e := Apply(Disconnect(id), d).draft;
      && i < |d.connections| && d.connections[i].id == id && e.connections == d.connections[..i] + d.connections[i + 1..]
      && (forall k :: 0 <= k < |e.connections| ==> e.connections[k].id != id)
      && e.primary == (if d.primary == Some(id) then None else d.primary)
      && (forall role: Role :: e.routes.Of(role) == if d.routes.Of(role) == Some(id) then None else d.routes.Of(role))
      && e.revision == d.revision
  {
    i := WithoutOne(d.connections, id);
  }

  lemma {:induction false} AssignedFrame(routes: Routes, assignments: seq<Assignment>, role: Role)
    requires DifferentRoles(assignments)
    ensures (forall k :: 0 <= k < |assignments| ==> assignments[k].role != role) ==> Assigned(routes, assignments).Of(role) == routes.Of(role)
    ensures forall k :: 0 <= k < |assignments| && assignments[k].role == role ==>
      Assigned(routes, assignments).Of(role) == assignments[k].id
    decreases |assignments|
  {
    if assignments != [] {
      AssignedFrame(routes.With(assignments[0].role, assignments[0].id), assignments[1..], role);
      forall k | 0 <= k < |assignments| && assignments[k].role == role
        ensures Assigned(routes, assignments).Of(role) == assignments[k].id
      {
        if k > 0 {
          assert assignments[1..][k - 1] == assignments[k];
        }
      }
    }
  }

  /** Setting routes changes the routes of exactly the roles asked for, to what was asked for. */
  lemma SetRoutesFrame(d: Document, assignments: seq<Assignment>, role: Role)
    requires Apply(SetRoutes(assignments), d).Changed? && DifferentRoles(assignments)
    ensures var e := Apply(SetRoutes(assignments), d).draft;
      && e == d.(routes := e.routes)
      && ((forall k :: 0 <= k < |assignments| ==> assignments[k].role != role) ==> e.routes.Of(role) == d.routes.Of(role))
      && (forall k :: 0 <= k < |assignments| && assignments[k].role == role ==> e.routes.Of(role) == assignments[k].id)
  {
    AssignedFrame(d.routes, assignments, role);
  }

  // ---- the request of `setAgentRoutes`

  /** An assignment as the caller gives it: its role is any text. */
  datatype RawAssignment = RawAssignment(role: Text, id: Option<Text>)

  function RoleNamed(word: Text): (role: Option<Role>)
    ensures forall r: Role :: role == Some(r) <==> word == A(r.Word())
  {
    LiteralsDiffer("implement", "review");
    LiteralsDiffer("implement", "repair");
    LiteralsDiffer("review", "repair");
    if word == A("implement") then Some(Implement)
    else if word == A("review") then Some(Review)
    else if word == A("repair") then Some(Repair)
    else None
  }

  /** The assignments name known roles, each at most once. */
  predicate Assignable(raw: seq<RawAssignment>) {
    && (forall k :: 0 <= k < |raw| ==> RoleNamed(raw[k].role).Some?)
    && (forall j, k :: 0 <= j < k < |raw| ==> raw[j].role != raw[k].role)
  }

  /** The same assignments, their roles read. */
  predicate SameAssignments(raw: seq<RawAssignment>, requested: seq<Assignment>) {
    |raw| == |requested| && forall k :: 0 <= k < |raw| ==> raw[k] == RawAssignment(A(requested[k].role.Word()), requested[k].id)
  }

  predicate SeenRoles(requested: seq<Assignment>, seen: set<Role>) {
    forall role: Role :: role in seen <==> exists k :: 0 <= k < |requested| && requested[k].role == role
  }

  /** The loop that fills the map of requested roles; a map of the source keeps the order of insertion. */
  method ReadAssignments(raw: seq<RawAssignment>) returns (r: Option<seq<Assignment>>)
    ensures r.Some? <==> Assignable(raw)
    ensures r.Some? ==> SameAssignments(raw, r.value) && DifferentRoles(r.value)
  {
    hide RoleNamed, SeenRoles, SameAssignments, DifferentRoles, Assignable;
    var requested: seq<Assignment>, seen: set<Role> := [], {};
    NothingRead();
    for k := 0 to |raw|
      invariant SameAssignments(raw[..k], requested) && DifferentRoles(requested) && Assignable(raw[..k]) && SeenRoles(requested, seen)
    {
      var role := RoleNamed(raw[k].role);
      if role.None? || role.value in seen {
        RefusedAssignment(raw, k, requested, seen);
        return None;
      }
      AcceptedAssignment(raw, k, requested, seen);
      requested, seen := requested + [Assignment(role.value, raw[k].id)], seen + {role.value};
    }
    assert raw[..|raw|] == raw;
    r := Some(requested);
  }

  lemma NothingRead()
    ensures SameAssignments([], []) && DifferentRoles([]) && Assignable([]) && SeenRoles([], {})
  {
  }

  lemma RefusedAssignment(raw: seq<RawAssignment>, k: nat, requested: seq<Assignment>, seen: set<Role>)
    requires k < |raw| && SameAssignments(raw[..k], requested) && SeenRoles(requested, seen)
    requires RoleNamed(raw[k].role).None? || RoleNamed(raw[k].role).value in seen
    ensures !Assignable(raw)
  {
    if RoleNamed(raw[k].role).Some? {
      var j :| 0 <= j < k && requested[j].role == RoleNamed(raw[k].role).value;
      assert raw[..k][j].role == raw[k].role;
    }
  }

  lemma AcceptedAssignment(raw: seq<RawAssignment>, k: nat, requested: seq<Assignment>, seen: set<Role>)
    requires k < |raw| && SameAssignments(raw[..k], requested) && DifferentRoles(requested) && Assignable(raw[..k])
    requires SeenRoles(requested, seen) && RoleNamed(raw[k].role).Some? && RoleNamed(raw[k].role).value !in seen
    ensures var role := RoleNamed(raw[k].role).value; var more := requested + [Assignment(role, raw[k].id)];
      SameAssignments(raw[..k + 1], more) && DifferentRoles(more) && Assignable(raw[..k + 1]) && SeenRoles(more, seen + {role})
  {
    hide RoleNamed, SeenRoles, SameAssignments, DifferentRoles, Assignable;
    var role := RoleNamed(raw[k].role).value;
    assert raw[..k + 1] == raw[..k] + [raw[k]];
    NewRole(raw[..k], requested, seen, raw[k]);
    MoreSeen(requested, seen, Assignment(role, raw[k].id));
    MoreAssignable(raw[..k], raw[k]);
    MoreSame(raw[..k], requested, raw[k]);
  }

  lemma NewRole(raw: seq<RawAssignment>, requested: seq<Assignment>, seen: set<Role>, next: RawAssignment)
    requires SameAssignments(raw, requested) && SeenRoles(requested, seen)
    requires RoleNamed(next.role).Some? && RoleNamed(next.role).value !in seen
    ensures forall j :: 0 <= j < |raw| ==> raw[j].role != next.role
    ensures forall j :: 0 <= j < |requested| ==> requested[j].role != RoleNamed(next.role).value
  {
    hide RoleNamed;
    forall j | 0 <= j < |raw| ensures raw[j].role != next.role {
      assert RoleNamed(raw[j].role) == Some(requested[j].role);
    }
  }

  lemma MoreAssignable(raw: seq<RawAssignment>, next: RawAssignment)
    requires Assignable(raw) && RoleNamed(next.role).Some? && forall j :: 0 <= j < |raw| ==> raw[j].role != next.role
    ensures Assignable(raw + [next])
  {
    hide RoleNamed;
  }

  lemma MoreSame(raw: seq<RawAssignment>, requested: seq<Assignment>, next: RawAssignment)
    requires SameAssignments(raw, requested) && RoleNamed(next.role).Some?
    ensures SameAssignments(raw + [next], requested + [Assignment(RoleNamed(next.role).value, next.id)])
  {
    hide RoleNamed;
  }

  lemma MoreSeen(requested: seq<Assignment>, seen: set<Role>, next: Assignment)
    requires SeenRoles(requested, seen) && DifferentRoles(requested)
    requires forall j :: 0 <= j < |requested| ==> requested[j].role != next.role
    ensures SeenRoles(requested + [next], seen + {next.role}) && DifferentRoles(requested + [next])
  {
    var more := requested + [next];
    forall r: Role | r in seen + {next.role} ensures exists j :: 0 <= j < |more| && more[j].role == r {
      if r == next.role {
        assert more[|requested|].role == r;
      } else {
        var j :| 0 <= j < |requested| && requested[j].role == r;
        assert more[j].role == r;
      }
    }
  }

  // ---- drafts of valid documents are valid

  lemma {:induction false} FindWithout(cs: seq<Record>, id: Text, other: Text)
    requires other != id
    ensures Find(Without(cs, id), other) == Find(cs, other)
  {
    if cs != [] && cs[0].id != id {
      FindWithout(cs[1..], id, other);
      assert ([cs[0]] + Without(cs[1..], id))[1..] == Without(cs[1..], id);
    }
  }

  lemma DisconnectedOk(env: Platform, d: Document, id: Text)
    requires DocumentOk(env, d) && Find(d.connections, id).Some?
    ensures DocumentOk(env, Disconnected(d, id))
    ensures forall k :: 0 <= k < |Without(d.connections, id)| ==> Without(d.connections, id)[k] in d.connections
  {
    hide RecordOk, Routable, Find, Without;
    var i := WithoutOne(d.connections, id);
    ClearedRoute(d.connections, d.routes.implement, id);
    ClearedRoute(d.connections, d.routes.review, id);
    ClearedRoute(d.connections, d.routes.repair, id);
    if d.primary.Some? && d.primary != Some(id) {
      FindWithout(d.connections, id, d.primary.value);
    }
  }

  lemma ClearedRoute(cs: seq<Record>, route: Option<Text>, id: Text)
    requires RouteOk(cs, route)
    ensures RouteOk(Without(cs, id), Cleared(route, id))
  {
    hide Find, Routable, Without;
    if route.Some? && route != Some(id) {
      FindWithout(cs, id, route.value);
    }
  }

  lemma {:induction false} AssignedOk(d: Document, routes: Routes, assignments: seq<Assignment>)
    requires RoutesOk(d.connections, routes) && RouteProblem(d, assignments).None?
    ensures RoutesOk(d.connections, Assigned(routes, assignments))
    decreases |assignments|
  {
    hide Find, Routable, Matches;
    if assignments != [] {
      AssignedOk(d, routes.With(assignments[0].role, assignments[0].id), assignments[1..]);
    }
  }

  lemma FoundIsClean(env: Platform, cs: seq<Record>, id: Text)
    requires RecordsClean(env, cs) && Find(cs, id).Some? && forall k :: 0 <= k < |cs| ==> RecordOk(env, cs[k])
    ensures !env.secret(id)
  {
    hide RecordOk, RecordJson, Clean;
    var k :| 0 <= k < |cs| && cs[k] == Find(cs, id).value;
    RecordIdClean(env, cs[k]);
  }

  lemma RecordIdClean(env: Platform, r: Record)
    requires RecordOk(env, r) && Clean(env, RecordJson(r))
    ensures !env.secret(r.id)
  {
    hide RecordOk, RecordJson, Clean, Field, ExactKeys, IsAgent, IsModel, AreTerms;
    RecordPrints(env, r);
    FieldClean(env, RecordJson(r).members, "id");
    JustText(env, r.id);
  }

  lemma JustText(env: Platform, t: Text)
    requires Clean(env, JsonGrammar.JString(t))
    ensures !env.secret(t)
  {
  }

  /** A valid document whose records hold no secret holds none at all, its references being ids of records. */
  lemma ReferencesAreClean(env: Platform, d: Document)
    requires DocumentOk(env, d) && RecordsClean(env, d.connections) && NamesClean(env)
    ensures Valid(env, d)
  {
    hide RecordOk, RecordJson, Clean, NamesClean, Find, DocumentJson, Routable;
    if d.primary.Some? {
      FoundIsClean(env, d.connections, d.primary.value);
    }
    RouteIsClean(env, d.connections, d.routes.implement);
    RouteIsClean(env, d.connections, d.routes.review);
    RouteIsClean(env, d.connections, d.routes.repair);
    DocumentClean(env, d);
  }

  lemma RouteIsClean(env: Platform, cs: seq<Record>, route: Option<Text>)
    requires RecordsClean(env, cs) && RouteOk(cs, route) && forall k :: 0 <= k < |cs| ==> RecordOk(env, cs[k])
    ensures OptionClean(env, route)
  {
    hide RecordOk, RecordJson, Clean, Find, Routable;
    if route.Some? {
      FoundIsClean(env, cs, route.value);
    }
  }

  lemma EditedOk(env: Platform, d: Document, request: Request)
    requires DocumentOk(env, d) && Apply(request, d).Changed?
    ensures DocumentOk(env, Apply(request, d).draft)
    ensures Apply(request, d).draft.revision == d.revision
    ensures forall r :: r in Apply(request, d).draft.connections ==> r in d.connections
  {
    hide RecordOk, Find, Routable, Matches, Without, Assigned;
    match request
    case SetPrimary(id) =>
    case Disconnect(id) => DisconnectedOk(env, d, id);
    case SetRoutes(assignments) => AssignedOk(d, d.routes, assignments);
  }

  /**
   From any valid document the draft of every lifecycle operation passes revalidation as it is,
   exactly when the revision can still be raised.
   */
  lemma EditIsAccepted(env: Platform, d: Document, request: Request)
    requires Valid(env, d) && Apply(request, d).Changed?
    ensures var next := Apply(request, d).draft.(revision := d.revision + 1);
      NextDocument(env, d, DocumentJson(Apply(request, d).draft)) == if d.revision < MAX_REVISION then Some(next) else None
    ensures d.revision < MAX_REVISION ==> Valid(env, Apply(request, d).draft.(revision := d.revision + 1))
  {
    hide RecordOk, RecordJson, Clean, NamesClean, Find, DocumentJson, Routable, NextDocument, Apply, UniqueIds, RoutesOk;
    var draft := Apply(request, d).draft;
    if d.revision < MAX_REVISION {
      EditedOk(env, d, request);
      CleanDocument(env, d);
      forall k | 0 <= k < |draft.connections| ensures Clean(env, RecordJson(draft.connections[k])) {
        assert draft.connections[k] in d.connections;
      }
      ReferencesAreClean(env, draft.(revision := d.revision + 1));
      DraftExact(env, d, draft);
    } else if NextDocument(env, d, DocumentJson(draft)).Some? {
      NextDocumentIsValid(env, d, DocumentJson(draft));
    }
  }
}
