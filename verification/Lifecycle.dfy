/** The lifecycle operations: bounded retry of optimistic commits against a registry that others change as well. */
module Lifecycle {
  import opened Options
  import opened Platform
  import opened RegistryDocument
  import opened Edits

  /** What a call on the registry comes to; `Refused` is the callback's own error. */
  datatype Reply = Stored(document: Document) | Conflict | Refused(edit: Edit) | Failure

  datatype Outcome = Saved(document: Document) | Already(document: Document) | Nothing | Invalid | Missing | PlanOnly | RegistryChanged | Cancelled | Failed

  const MAX_ATTEMPTS: nat := 3

  /**
   The registry as one user of it sees it: between and during the calls, others may install any
   number of valid documents, each of a higher revision.
   */
  class Registry {
    const env: Platform
    var document: Document
    var commits: nat      // commit calls of this user
    var installs: nat     // documents that those calls have installed

    ghost predicate Valid()
      reads this
    {
      RegistryDocument.Valid(env, document)
    }

    constructor (env: Platform, document: Document)
      requires RegistryDocument.Valid(env, document)
      ensures Valid() && this.env == env && this.document == document && commits == 0 && installs == 0
    {
      this.env, this.document, commits, installs := env, document, 0, 0;
    }

    method Interfere()
      requires Valid()
      modifies this`document
      ensures Valid() && (document == old(document) || document.revision > old(document.revision))
    {
      var other: Document := *;
      if RegistryDocument.Valid(env, other) && other.revision > document.revision {
        document := other;
      }
    }

    /** `migrateLegacyLocal`, whose own install counts as interference here. */
    method MigrateLegacyLocal() returns (r: Reply)
      requires Valid()
      modifies this`document
      ensures Valid() && (document == old(document) || document.revision > old(document.revision))
      ensures r.Stored? || r.Failure?
      ensures r.Stored? ==> r.document == document
    {
      Interfere();
      var fails: bool := *;
      r := if fails then Failure else Stored(document);
    }

    /**
     `commit`: after some interference it compares the revision, applies the callback to the
     document it finds, revalidates and installs the result.  It may fail before or after the install.
     */
    method Commit(expected: int, request: Request) returns (r: Reply, ghost before: Document)
      requires Valid()
      modifies this
      ensures Valid() && commits == old(commits) + 1
      ensures before == old(document) || before.revision > old(document.revision)
      ensures r.Conflict? ==> before.revision != expected
      ensures r.Refused? ==> before.revision == expected && Callback(request, before) == r.edit && !r.edit.Changed?
      ensures r.Stored? ==>
        && before.revision == expected && Callback(request, before).Changed? && RegistryDocument.Valid(env, before)
        && NextDocument(env, before, DocumentJson(Callback(request, before).draft)) == Some(r.document)
      ensures installs == old(installs) || (installs == old(installs) + 1 && (r.Stored? || r.Failure?))
      ensures r.Stored? ==> installs == old(installs) + 1
    {
      hide RegistryDocument.Valid, NextDocument, Callback, DocumentJson;
      commits := commits + 1;
      Interfere();
      before := document;
      var fails: bool := *;
      if fails {
        return Failure, before;
      }
      if document.revision != expected {
        return Conflict, before;
      }
      var edit := Callback(request, document);
      if !edit.Changed? {
        return Refused(edit), before;
      }
      var next := NextDocument(env, document, DocumentJson(edit.draft));
      fails := *;
      if next.None? || fails {
        return Failure, before;
      }
      NextDocumentIsValid(env, document, DocumentJson(edit.draft));
      document, installs := next.value, installs + 1;
      fails := *;
      r := if fails then Failure else Stored(next.value);
    }
  }

  /**
   `setPrimary`, `disconnect` and `setAgentRoutes`.  In every interleaving with others the
   operation commits at most three times, applies its edit at most once, and retries only after
   a revision conflict, which has written nothing.  When it reports success, the edit was
   applied, whole and alone, to the document it had read.
   */
  method Perform(registry: Registry, request: Request) returns (r: Outcome, ghost seen: Document)
    requires registry.Valid()
    modifies registry
    ensures registry.Valid() && registry.commits <= old(registry.commits) + MAX_ATTEMPTS
    ensures registry.installs <= old(registry.installs) + 1
    ensures registry.installs == old(registry.installs) || r.Saved? || r.Failed?
    ensures r.Saved? ==>
      && registry.installs == old(registry.installs) + 1
      && Valid(registry.env, seen) && Apply(request, seen).Changed?
      && r.document == Apply(request, seen).draft.(revision := seen.revision + 1)
    ensures !r.Nothing? && !r.Invalid?
    ensures r.RegistryChanged? ==> registry.commits == old(registry.commits) + MAX_ATTEMPTS
    ensures r.Already? ==> r.document == seen && Apply(request, seen) == Unchanged
    ensures r.Missing? ==> Apply(request, seen) == NotFound
    ensures r.PlanOnly? ==> Apply(request, seen) == Unavailable
  {
    hide RegistryDocument.Valid, NextDocument, Callback, DocumentJson, Find, Matches;
    seen := registry.document;
    for attempt := 0 to MAX_ATTEMPTS
      invariant registry.Valid() && registry.commits == old(registry.commits) + attempt
      invariant registry.installs == old(registry.installs)
    {
      var aborted: bool := *;
      if aborted {
        return Cancelled, seen;
      }
      var read := registry.MigrateLegacyLocal();
      if !read.Stored? {
        return Failed, seen;
      }
      var current := read.document;
      seen := current;
      match Apply(request, current) {
        case NotFound => return Missing, seen;
        case Unavailable => return PlanOnly, seen;
        case Unchanged => return Already(current), seen;
        case Changed(draft) =>
          var reply, before := registry.Commit(current.revision, request);
          match reply {
            case Stored(document) =>
              EditIsAccepted(registry.env, before, request);
              return Saved(document), seen;
            case Conflict =>
              if attempt == MAX_ATTEMPTS - 1 {
                return RegistryChanged, seen;
              }
            case Refused(edit) => assert false;
            case Failure => return Failed, seen;
          }
      }
    }
    return RegistryChanged, seen;
  }

  /** The requested roles with their routes in the document. */
  function RoutesOf(requested: seq<Assignment>, d: Document): seq<Assignment> {
    seq(|requested|, i requires 0 <= i < |requested| => Assignment(requested[i].role, d.routes.Of(requested[i].role)))
  }

  /** What a successful `setAgentRoutes` reads back from the committed document is what was asked for. */
  lemma RoutesReadBack(seen: Document, requested: seq<Assignment>, saved: Document)
    requires DifferentRoles(requested) && Apply(SetRoutes(requested), seen).Changed?
    requires saved == Apply(SetRoutes(requested), seen).draft.(revision := seen.revision + 1)
    ensures RoutesOf(requested, saved) == requested
  {
    hide Apply;
    forall k | 0 <= k < |requested| ensures saved.routes.Of(requested[k].role) == requested[k].id {
      SetRoutesFrame(seen, requested, requested[k].role);
    }
  }

  /**
   `setAgentRoutes`.  Unknown or repeated roles are refused, and an empty request is answered,
   without any access to the registry.  Success answers with what was asked for, in the order asked.
   */
  method SetAgentRoutes(registry: Registry, raw: seq<RawAssignment>) returns (r: Outcome, routes: seq<Assignment>, ghost seen: Document)
    requires registry.Valid()
    modifies registry
    ensures registry.Valid() && registry.commits <= old(registry.commits) + MAX_ATTEMPTS && registry.installs <= old(registry.installs) + 1
    ensures r.Invalid? <==> !Assignable(raw)
    ensures r.Nothing? <==> raw == []
    ensures r.Invalid? || r.Nothing? ==> unchanged(registry) && routes == []
    ensures r.Saved? ==>
      && registry.installs == old(registry.installs) + 1 && SameAssignments(raw, routes) && DifferentRoles(routes)
      && Valid(registry.env, seen) && Apply(SetRoutes(routes), seen).Changed?
      && r.document == Apply(SetRoutes(routes), seen).draft.(revision := seen.revision + 1)
    ensures r.Already? ==> SameAssignments(raw, routes) && registry.installs == old(registry.installs) && RoutesOf(routes, r.document) == routes
  {
    hide RegistryDocument.Valid, Apply, SameAssignments, DifferentRoles, Assignable;
    seen, routes := registry.document, [];
    var requested := ReadAssignments(raw);
    if requested.None? {
      EmptyIsAssignable(raw);
      return Invalid, [], seen;
    }
    if requested.value == [] {
      EmptyIsSame(raw, requested.value);
      return Nothing, [], seen;
    }
    EmptyIsSame(raw, requested.value);
    r, seen := Perform(registry, SetRoutes(requested.value));
    if r.Saved? {
      RoutesReadBack(seen, requested.value, r.document);
      routes := RoutesOf(requested.value, r.document);
    } else if r.Already? {
      UnchangedRoutes(seen, requested.value);
      routes := requested.value;
    }
  }

  lemma EmptyIsAssignable(raw: seq<RawAssignment>)
    ensures raw == [] ==> Assignable(raw)
  {
  }

  lemma EmptyIsSame(raw: seq<RawAssignment>, requested: seq<Assignment>)
    requires SameAssignments(raw, requested)
    ensures raw == [] <==> requested == []
  {
  }

  lemma UnchangedRoutes(d: Document, requested: seq<Assignment>)
    requires Apply(SetRoutes(requested), d) == Unchanged
    ensures RoutesOf(requested, d) == requested
  {
  }
}
