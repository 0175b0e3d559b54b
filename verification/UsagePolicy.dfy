/** Provider usage policies: the recursive evaluator, and which claims make a binding. */
module UsagePolicy {
  import opened Options
  import opened Texts
  import opened Billing
  import opened Platform
  import opened PolicyBinding

  datatype Condition =
    | Entitlement(claimId: Text, allowed: seq<ClaimValue>)
    | Selected(modes: seq<Mode>)
    | Every(conditions: seq<Condition>)

  datatype Decision = Allowed | Denied | Conditional

  /** `when` names some fields of the run context and their values. */
  datatype Rule = Rule(when: map<Text, Text>, decision: Decision, condition: Option<Condition>)

  datatype Usage = Usage(defaultAllowed: bool, rules: seq<Rule>)

  // ---- the evaluator

  /** `claimIds`. */
  function ClaimIds(c: Condition): seq<Text> {
    match c
    case Entitlement(id, _) => [id]
    case Selected(_) => []
    case Every(cs) => ClaimIdsOfAll(cs)
  }

  function ClaimIdsOfAll(cs: seq<Condition>): seq<Text> {
    if cs == [] then [] else ClaimIds(cs[0]) + ClaimIdsOfAll(cs[1..])
  }

  function RuleClaims(rules: seq<Rule>): seq<Text> {
    if rules == [] then []
    else (if rules[0].condition.None? then [] else ClaimIds(rules[0].condition.value)) + RuleClaims(rules[1..])
  }

  /** The claims that the policy asks about. */
  function Required(policy: Usage): set<Text> { set id | id in RuleClaims(policy.rules) }

  predicate ContextMatches(expected: map<Text, Text>, actual: map<Text, Text>) {
    forall f :: f in expected ==> f in actual && actual[f] == expected[f]
  }

  /** `conditionSatisfied`. */
  predicate Satisfied(c: Condition, claims: map<Text, ClaimValue>, mode: Mode) {
    match c
    case Selected(modes) => mode in modes
    case Entitlement(id, allowed) => id in claims && claims[id] in allowed
    case Every(cs) => forall k :: 0 <= k < |cs| ==> Satisfied(cs[k], claims, mode)
  }

  predicate RuleAllows(rule: Rule, claims: map<Text, ClaimValue>, mode: Mode) {
    rule.decision == Allowed || (rule.decision == Conditional && rule.condition.Some? && Satisfied(rule.condition.value, claims, mode))
  }

  /** `new Map(claims.map(...))`: the last claim of an id counts. */
  function ClaimMap(claims: seq<Claim>): map<Text, ClaimValue> {
    if claims == [] then map[] else ClaimMap(claims[..|claims| - 1])[claims[|claims| - 1].id := claims[|claims| - 1].value]
  }

  /** `providerUsagePolicyAllows`: the matching rules must all allow; without any, the default decides. */
  predicate Allows(policy: Usage, claims: map<Text, ClaimValue>, mode: Mode, context: map<Text, Text>) {
    if forall k :: 0 <= k < |policy.rules| ==> !ContextMatches(policy.rules[k].when, context) then policy.defaultAllowed
    else forall k :: 0 <= k < |policy.rules| && ContextMatches(policy.rules[k].when, context) ==> RuleAllows(policy.rules[k], claims, mode)
  }

  predicate AgreeOn(a: map<Text, ClaimValue>, b: map<Text, ClaimValue>, ids: seq<Text>) {
    forall id :: id in ids ==> (id in a <==> id in b) && (id in a ==> a[id] == b[id])
  }

  lemma {:induction false} ClaimIdsWithin(cs: seq<Condition>, k: nat, id: Text)
    requires k < |cs| && id in ClaimIds(cs[k])
    ensures id in ClaimIdsOfAll(cs)
  {
    if k > 0 {
      ClaimIdsWithin(cs[1..], k - 1, id);
    }
  }

  lemma {:induction false} SatisfiedDepends(c: Condition, a: map<Text, ClaimValue>, b: map<Text, ClaimValue>, mode: Mode)
    requires AgreeOn(a, b, ClaimIds(c))
    ensures Satisfied(c, a, mode) <==> Satisfied(c, b, mode)
    decreases c
  {
    match c
    case Every(cs) =>
      forall k | 0 <= k < |cs| ensures Satisfied(cs[k], a, mode) <==> Satisfied(cs[k], b, mode) {
        forall id | id in ClaimIds(cs[k]) ensures (id in a <==> id in b) && (id in a ==> a[id] == b[id]) {
          ClaimIdsWithin(cs, k, id);
        }
        SatisfiedDepends(cs[k], a, b, mode);
      }
    case _ =>
  }

  lemma {:induction false} RuleClaimsWithin(rules: seq<Rule>, k: nat, id: Text)
    requires k < |rules| && rules[k].condition.Some? && id in ClaimIds(rules[k].condition.value)
    ensures id in RuleClaims(rules)
  {
    if k > 0 {
      RuleClaimsWithin(rules[1..], k - 1, id);
    }
  }

  /** The decision depends on no claims but the required ones. */
  lemma DecisionDependsOnRequired(policy: Usage, a: map<Text, ClaimValue>, b: map<Text, ClaimValue>, mode: Mode, context: map<Text, Text>)
    requires AgreeOn(a, b, RuleClaims(policy.rules))
    ensures Allows(policy, a, mode, context) <==> Allows(policy, b, mode, context)
  {
    forall k | 0 <= k < |policy.rules| ensures RuleAllows(policy.rules[k], a, mode) <==> RuleAllows(policy.rules[k], b, mode) {
      var rule := policy.rules[k];
      if rule.condition.Some? {
        forall id | id in ClaimIds(rule.condition.value) ensures (id in a <==> id in b) && (id in a ==> a[id] == b[id]) {
          RuleClaimsWithin(policy.rules, k, id);
        }
        SatisfiedDepends(rule.condition.value, a, b, mode);
      }
    }
  }

  // ---- sorting by an order

  type Order = (Text, Text) -> bool

  ghost predicate StrictOrder(before: Order) {
    && (forall x :: !before(x, x))
    && (forall x, y, z :: before(x, y) && before(y, z) ==> before(x, z))
    && (forall x, y :: x != y ==> before(x, y) || before(y, x))
  }

  predicate SortedBy(before: Order, s: seq<Text>) { forall i, j :: 0 <= i < j < |s| ==> before(s[i], s[j]) }

  function Insert(before: Order, x: Text, s: seq<Text>): seq<Text> {
    if s == [] || before(x, s[0]) then [x] + s else [s[0]] + Insert(before, x, s[1..])
  }

  function Sort(before: Order, s: seq<Text>): seq<Text> {
    if s == [] then [] else Insert(before, s[0], Sort(before, s[1..]))
  }

  lemma {:induction false} InsertMembers(before: Order, x: Text, s: seq<Text>, y: Text)
    ensures y in Insert(before, x, s) <==> y == x || y in s
  {
    if s != [] && !before(x, s[0]) {
      InsertMembers(before, x, s[1..], y);
      assert s == [s[0]] + s[1..];
    }
  }

  lemma {:induction false} InsertSorts(before: Order, x: Text, s: seq<Text>)
    requires StrictOrder(before) && SortedBy(before, s) && x !in s
    ensures SortedBy(before, Insert(before, x, s))
  {
    if s == [] {
    } else if before(x, s[0]) {
      forall j | 0 <= j < |s| ensures before(x, s[j]) {
        assert j > 0 ==> before(s[0], s[j]);
      }
    } else {
      InsertSorts(before, x, s[1..]);
      var rest := Insert(before, x, s[1..]);
      HasFirst(s);
      forall j | 0 <= j < |rest| ensures before(s[0], rest[j]) {
        InsertMembers(before, x, s[1..], rest[j]);
        if rest[j] != x {
          FirstBeforeRest(before, s, rest[j]);
        }
      }
      SortedCons(before, s[0], rest);
    }
  }

  lemma FirstBeforeRest(before: Order, s: seq<Text>, y: Text)
    requires SortedBy(before, s) && s != [] && y in s[1..]
    ensures before(s[0], y)
  {
    var i :| 0 <= i < |s[1..]| && s[1..][i] == y;
    assert s[i + 1] == y;
  }

  lemma SortedCons(before: Order, x: Text, s: seq<Text>)
    requires SortedBy(before, s) && forall j :: 0 <= j < |s| ==> before(x, s[j])
    ensures SortedBy(before, [x] + s)
  {
  }

  lemma {:induction false} SortSorts(before: Order, s: seq<Text>)
    requires StrictOrder(before) && Unique(s)
    ensures SortedBy(before, Sort(before, s)) && forall y :: y in Sort(before, s) <==> y in s
  {
    if s != [] {
      SortSorts(before, s[1..]);
      assert s == [s[0]] + s[1..];
      assert s[0] !in s[1..];
      InsertSorts(before, s[0], Sort(before, s[1..]));
      forall y ensures y in Sort(before, s) <==> y in s {
        InsertMembers(before, s[0], Sort(before, s[1..]), y);
      }
    }
  }

  /** There is one sorted list of given members. */
  lemma {:induction false} SortedIsUnique(before: Order, a: seq<Text>, b: seq<Text>)
    requires StrictOrder(before) && SortedBy(before, a) && SortedBy(before, b) && forall x :: x in a <==> x in b
    ensures a == b
    decreases |a|
  {
    if a == [] {
      if b != [] {
        HasFirst(b);
      }
    } else {
      HasFirst(a);
      SameFirst(before, a, b);
      forall x ensures x in a[1..] <==> x in b[1..] {
        RestMembers(before, a, x);
        RestMembers(before, b, x);
      }
      SortedIsUnique(before, a[1..], b[1..]);
      assert a == [a[0]] + a[1..] && b == [b[0]] + b[1..];
    }
  }

  lemma SameFirst(before: Order, a: seq<Text>, b: seq<Text>)
    requires StrictOrder(before) && SortedBy(before, a) && SortedBy(before, b) && a != [] && b != []
    requires forall x :: x in a <==> x in b
    ensures a[0] == b[0]
  {
    HasFirst(a);
    HasFirst(b);
    FirstIsLeast(before, b, a[0]);
    FirstIsLeast(before, a, b[0]);
  }

  lemma HasFirst(s: seq<Text>)
    requires s != []
    ensures s[0] in s
  {
  }

  lemma FirstIsLeast(before: Order, s: seq<Text>, x: Text)
    requires SortedBy(before, s) && x in s
    ensures s[0] == x || before(s[0], x)
  {
    var i :| 0 <= i < |s| && s[i] == x;
  }

  lemma RestMembers(before: Order, s: seq<Text>, x: Text)
    requires StrictOrder(before) && SortedBy(before, s) && s != []
    ensures x in s[1..] <==> x in s && x != s[0]
  {
    if x in s[1..] {
      FirstBeforeRest(before, s, x);
    }
    if x in s && x != s[0] {
      var i :| 0 <= i < |s| && s[i] == x;
      assert s[1..][i - 1] == x;
    }
  }

  // ---- bindings

  /** `CLAIM_ID`. */
  predicate IsClaimId(t: Text) {
    && 0 < |t| <= 128 && (IsDigit(t[0]) || 97 <= t[0] <= 122)
    && forall k :: 0 < k < |t| ==> IsDigit(t[k]) || 97 <= t[k] <= 122 || t[k] == 46 || t[k] == 95 || t[k] == 45
  }

  function Ids(claims: seq<Claim>): seq<Text> { seq(|claims|, i requires 0 <= i < |claims| => claims[i].id) }

  /** Every id is well-formed and none repeats. */
  predicate IdsOk(claims: seq<Claim>) { (forall k :: 0 <= k < |claims| ==> IsClaimId(claims[k].id)) && Unique(Ids(claims)) }

  /** The loop of `createProviderPolicyBinding` over the claims. */
  method CheckClaims(claims: seq<Claim>) returns (ok: bool)
    ensures ok <==> IdsOk(claims)
  {
    var seen: set<Text> := {};
    for i := 0 to |claims|
      invariant forall k :: 0 <= k < i ==> IsClaimId(claims[k].id)
      invariant Unique(Ids(claims)[..i])
      invariant forall id :: id in seen <==> id in Ids(claims)[..i]
    {
      if !IsClaimId(claims[i].id) || claims[i].id in seen {
        if claims[i].id in seen {
          var j :| 0 <= j < i && Ids(claims)[..i][j] == claims[i].id;
          assert Ids(claims)[j] == Ids(claims)[i];
        }
        return false;
      }
      seen := seen + {claims[i].id};
      assert Ids(claims)[..i + 1] == Ids(claims)[..i] + [claims[i].id];
    }
    assert Ids(claims)[..|claims|] == Ids(claims);
    return true;
  }

  /** Without repetition, in the given order of the first occurrences: `[...new Set(ids)]`. */
  function Distinct(ids: seq<Text>): (r: seq<Text>)
    ensures Unique(r) && forall x :: x in r <==> x in ids
  {
    if ids == [] then [] else
    var front, last := Distinct(ids[..|ids| - 1]), ids[|ids| - 1];
    if last in front then front else front + [last]
  }

  /** `requiredProviderPolicyClaimIds`, sorted by code units. */
  function RequiredIds(policy: Usage): seq<Text> { Sort(Less, Distinct(RuleClaims(policy.rules))) }

  function InsertClaim(before: Order, c: Claim, cs: seq<Claim>): seq<Claim> {
    if cs == [] || before(c.id, cs[0].id) then [c] + cs else [cs[0]] + InsertClaim(before, c, cs[1..])
  }

  /** The claims sorted by id. */
  function SortClaims(before: Order, cs: seq<Claim>): seq<Claim> {
    if cs == [] then [] else InsertClaim(before, cs[0], SortClaims(before, cs[1..]))
  }

  lemma NoIds()
    ensures Ids([]) == []
  {
  }

  lemma IdsCons(c: Claim, cs: seq<Claim>)
    ensures Ids([c] + cs) == [c.id] + Ids(cs)
  {
  }

  lemma {:induction false} InsertClaimIds(before: Order, c: Claim, cs: seq<Claim>)
    ensures Ids(InsertClaim(before, c, cs)) == Insert(before, c.id, Ids(cs))
  {
    hide Ids;
    if cs == [] {
      NoIds();
      IdsCons(c, cs);
    } else {
      IdsCons(cs[0], cs[1..]);
      assert cs == [cs[0]] + cs[1..] && Ids(cs)[1..] == Ids(cs[1..]);
      if before(c.id, cs[0].id) {
        IdsCons(c, cs);
      } else {
        InsertClaimIds(before, c, cs[1..]);
        IdsCons(cs[0], InsertClaim(before, c, cs[1..]));
      }
    }
  }

  lemma {:induction false} InsertClaimKeeps(before: Order, c: Claim, cs: seq<Claim>)
    ensures multiset(InsertClaim(before, c, cs)) == multiset(cs) + multiset{c}
  {
    if cs != [] && !before(c.id, cs[0].id) {
      InsertClaimKeeps(before, c, cs[1..]);
      assert cs == [cs[0]] + cs[1..];
    }
  }

  /** Sorting the claims sorts their ids. */
  lemma {:induction false} SortClaimsIds(before: Order, cs: seq<Claim>)
    ensures Ids(SortClaims(before, cs)) == Sort(before, Ids(cs))
  {
    hide InsertClaim, Insert;
    if cs != [] {
      SortClaimsIds(before, cs[1..]);
      InsertClaimIds(before, cs[0], SortClaims(before, cs[1..]));
      IdsCons(cs[0], cs[1..]);
      assert cs == [cs[0]] + cs[1..] && Ids(cs)[1..] == Ids(cs[1..]);
    }
  }

  /** Sorting keeps the claims. */
  lemma {:induction false} SortClaimsKeeps(before: Order, cs: seq<Claim>)
    ensures multiset(SortClaims(before, cs)) == multiset(cs)
  {
    hide InsertClaim;
    if cs != [] {
      SortClaimsKeeps(before, cs[1..]);
      InsertClaimKeeps(before, cs[0], SortClaims(before, cs[1..]));
      assert cs == [cs[0]] + cs[1..];
    }
  }

  datatype Outcome = NoBinding | Bound(binding: Binding) | Refused

  /** `createProviderPolicyBinding`; `locale` is the order of `localeCompare`, `context` may be missing. */
  function CreateBinding(policy: Usage, claims: seq<Claim>, mode: Mode, context: Option<map<Text, Text>>, at: Text, locale: Order)
    : Outcome
  {
    if policy.rules == [] then (if claims == [] then NoBinding else Refused)
    else if context.None? || !IdsOk(claims) then Refused
    else
      var normalized := SortClaims(locale, claims);
      if Ids(normalized) != RequiredIds(policy) then Refused
      else if Allows(policy, ClaimMap(normalized), mode, context.value) then Bound(Binding(normalized, at))
      else Refused
  }

  /** The two orders agree on the ids: what makes the comparison of the sorted lists a comparison of the sets. */
  predicate OrdersAgree(locale: Order, ids: seq<Text>) {
    forall x, y :: x in ids && y in ids ==> (locale(x, y) <==> Less(x, y))
  }

  lemma {:induction false} LessIsStrict(x: Text, y: Text, z: Text)
    ensures !Less(x, x) && (x != y ==> Less(x, y) || Less(y, x))
    ensures Less(x, y) && Less(y, z) ==> Less(x, z)
    decreases |x|
  {
    if x != [] && y != [] {
      LessIsStrict(x[1..], y[1..], if z == [] then [] else z[1..]);
      assert x == [x[0]] + x[1..] && y == [y[0]] + y[1..];
    } else if x != [] {
      LessIsStrict(x[1..], [], []);
    }
  }

  lemma LessIsStrictOrder()
    ensures StrictOrder(Less)
  {
    hide Less;
    forall x: Text, y: Text, z: Text
      ensures !Less(x, x) && (x != y ==> Less(x, y) || Less(y, x)) && (Less(x, y) && Less(y, z) ==> Less(x, z))
    {
      LessIsStrict(x, y, z);
    }
  }

  /** The sorted lists are equal exactly when the claims are the required ones and the two orders agree on them. */
  lemma SameListsExact(policy: Usage, claims: seq<Claim>, locale: Order)
    requires StrictOrder(locale) && IdsOk(claims)
    ensures Sort(locale, Ids(claims)) == RequiredIds(policy) <==>
      (forall id :: id in Ids(claims) <==> id in RuleClaims(policy.rules)) && OrdersAgree(locale, Ids(claims))
  {
    hide Less, Sort, Distinct, IsClaimId;
    var ids, required := Ids(claims), Distinct(RuleClaims(policy.rules));
    LessIsStrictOrder();
    SortSorts(locale, ids);
    SortSorts(Less, required);
    var sorted := Sort(locale, ids);
    if sorted == RequiredIds(policy) {
      SortedByBoth(locale, sorted);
    }
    if (forall id :: id in ids <==> id in RuleClaims(policy.rules)) && OrdersAgree(locale, ids) {
      forall i, j | 0 <= i < j < |sorted| ensures Less(sorted[i], sorted[j]) {
        assert sorted[i] in sorted && sorted[j] in sorted && locale(sorted[i], sorted[j]);
      }
      SortedIsUnique(Less, sorted, Sort(Less, required));
    }
  }

  lemma SortedByBoth(locale: Order, s: seq<Text>)
    requires StrictOrder(locale) && StrictOrder(Less) && SortedBy(locale, s) && SortedBy(Less, s)
    ensures OrdersAgree(locale, s)
  {
    hide Less;
    forall x, y | x in s && y in s ensures locale(x, y) <==> Less(x, y) {
      var i :| 0 <= i < |s| && s[i] == x;
      var j :| 0 <= j < |s| && s[j] == y;
      assert i < j ==> locale(s[i], s[j]) && Less(s[i], s[j]);
      assert j < i ==> locale(s[j], s[i]) && Less(s[j], s[i]);
    }
  }

  /** With different ids, the order of the claims does not matter to the map. */
  lemma {:induction false} ClaimMapHas(cs: seq<Claim>, c: Claim)
    requires Unique(Ids(cs)) && c in cs
    ensures c.id in ClaimMap(cs) && ClaimMap(cs)[c.id] == c.value
  {
    var n := |cs| - 1;
    assert Ids(cs)[..n] == Ids(cs[..n]);
    if cs[n] != c {
      assert c in cs[..n];
      ClaimMapHas(cs[..n], c);
      var k :| 0 <= k < n && cs[k] == c;
      assert Ids(cs)[k] != Ids(cs)[n];
    }
  }

  lemma {:induction false} ClaimMapOnly(cs: seq<Claim>, id: Text)
    ensures id in ClaimMap(cs) ==> exists k :: 0 <= k < |cs| && cs[k].id == id
  {
    if cs != [] && id in ClaimMap(cs) && cs[|cs| - 1].id != id {
      ClaimMapOnly(cs[..|cs| - 1], id);
      var k :| 0 <= k < |cs[..|cs| - 1]| && cs[..|cs| - 1][k].id == id;
      assert cs[k].id == id;
    }
  }

  lemma ClaimMapPermuted(a: seq<Claim>, b: seq<Claim>)
    requires multiset(a) == multiset(b) && Unique(Ids(a)) && Unique(Ids(b))
    ensures ClaimMap(a) == ClaimMap(b)
  {
    hide ClaimMap, Ids, Unique;
    forall id ensures (id in ClaimMap(a) <==> id in ClaimMap(b)) && (id in ClaimMap(a) ==> ClaimMap(a)[id] == ClaimMap(b)[id]) {
      OneSide(a, b, id);
      OneSide(b, a, id);
    }
  }

  lemma OneSide(a: seq<Claim>, b: seq<Claim>, id: Text)
    requires multiset(a) == multiset(b) && Unique(Ids(a)) && Unique(Ids(b))
    ensures id in ClaimMap(a) ==> id in ClaimMap(b) && ClaimMap(a)[id] == ClaimMap(b)[id]
  {
    hide ClaimMap, Ids, Unique;
    if id in ClaimMap(a) {
      ClaimMapOnly(a, id);
      var k :| 0 <= k < |a| && a[k].id == id;
      assert a[k] in multiset(a) && a[k] in multiset(b);
      ClaimMapHas(a, a[k]);
      ClaimMapHas(b, a[k]);
    }
  }

  lemma NormalizedFacts(claims: seq<Claim>, locale: Order)
    requires StrictOrder(locale) && IdsOk(claims)
    ensures var normalized := SortClaims(locale, claims);
      && Ids(normalized) == Sort(locale, Ids(claims)) && SortedBy(locale, Ids(normalized))
      && multiset(normalized) == multiset(claims) && ClaimMap(normalized) == ClaimMap(claims)
  {
    hide Sort, SortClaims, ClaimMap, Ids, IsClaimId;
    SortClaimsIds(locale, claims);
    SortClaimsKeeps(locale, claims);
    SortSorts(locale, Ids(claims));
    SortedUnique(locale, Sort(locale, Ids(claims)));
    ClaimMapPermuted(SortClaims(locale, claims), claims);
  }

  lemma SortedUnique(before: Order, s: seq<Text>)
    requires StrictOrder(before) && SortedBy(before, s)
    ensures Unique(s)
  {
  }

  /**
   When a binding is made: the policy has rules, there is a context, the ids are well-formed and
   without repetition, they are exactly the required ones, the two orders agree on them, and the
   policy allows the run with these claims.
   */
  lemma BindingExact(policy: Usage, claims: seq<Claim>, mode: Mode, context: Option<map<Text, Text>>, at: Text, locale: Order)
    requires StrictOrder(locale)
    ensures CreateBinding(policy, claims, mode, context, at, locale).Bound? <==>
      && policy.rules != [] && context.Some? && IdsOk(claims)
      && (forall id :: id in Ids(claims) <==> id in RuleClaims(policy.rules)) && OrdersAgree(locale, Ids(claims))
      && Allows(policy, ClaimMap(claims), mode, context.value)
  {
    hide Less, Sort, SortClaims, Distinct, IdsOk, Allows, ClaimMap, RuleClaims, Ids;
    if IdsOk(claims) {
      SameListsExact(policy, claims, locale);
      NormalizedFacts(claims, locale);
    }
  }

  /** A binding holds the given claims, in the ascending order of ids that the registry demands of a stored binding. */
  lemma BindingIsCanonical(policy: Usage, claims: seq<Claim>, mode: Mode, context: Option<map<Text, Text>>, at: Text, env: Platform)
    requires StrictOrder(env.precedes) && CreateBinding(policy, claims, mode, context, at, env.precedes).Bound?
    ensures var b := CreateBinding(policy, claims, mode, context, at, env.precedes).binding;
      && multiset(b.claims) == multiset(claims) && b.acknowledgedAt == at
      && Ascending(env, b.claims) && DifferentIds(b.claims)
  {
    hide Less, Sort, SortClaims, Distinct, Allows, ClaimMap, RuleClaims, IsClaimId;
    NormalizedFacts(claims, env.precedes);
    var b := CreateBinding(policy, claims, mode, context, at, env.precedes).binding;
    SortedUnique(env.precedes, Ids(b.claims));
    forall k | 0 < k < |b.claims| ensures env.precedes(b.claims[k - 1].id, b.claims[k].id) {
      assert Ids(b.claims)[k - 1] == b.claims[k - 1].id && Ids(b.claims)[k] == b.claims[k].id;
    }
    forall j, k | 0 <= j < k < |b.claims| ensures b.claims[j].id != b.claims[k].id {
      assert Ids(b.claims)[j] != Ids(b.claims)[k];
    }
  }

  const DASHED := A("a-b")
  const UNDERSCORED := A("a_b")

  /**
   A policy that asks for `a-b` and `a_b` and allows everything: where `localeCompare` puts the
   underscore before the hyphen, even the complete claims are refused.
   */
  lemma OrdersMayDisagree(locale: Order, mode: Mode, context: map<Text, Text>, at: Text)
    requires StrictOrder(locale) && locale(UNDERSCORED, DASHED)
    ensures var condition := Every([Entitlement(DASHED, [Flag(true)]), Entitlement(UNDERSCORED, [Flag(true)])]);
      var policy := Usage(true, [Rule(map[], Allowed, Some(condition))]);
      var claims := [Claim(DASHED, Flag(true)), Claim(UNDERSCORED, Flag(true))];
      && IdsOk(claims) && Required(policy) == {DASHED, UNDERSCORED} && Allows(policy, ClaimMap(claims), mode, context)
      && CreateBinding(policy, claims, mode, Some(context), at, locale) == Refused
  {
    hide Sort, SortClaims, Distinct, Allows, ClaimMap, RuleClaims, IdsOk, Less;
    var condition := Every([Entitlement(DASHED, [Flag(true)]), Entitlement(UNDERSCORED, [Flag(true)])]);
    var policy := Usage(true, [Rule(map[], Allowed, Some(condition))]);
    var claims := [Claim(DASHED, Flag(true)), Claim(UNDERSCORED, Flag(true))];
    TwoClaims(condition, policy, claims);
    TwoClaimsAllowed(condition, policy, claims, mode, context);
    BindingExact(policy, claims, mode, Some(context), at, locale);
    assert Ids(claims)[0] == DASHED && Ids(claims)[1] == UNDERSCORED;
    assert locale(UNDERSCORED, DASHED) && !Less(UNDERSCORED, DASHED) by { DashFirst(); }
  }

  lemma TwoClaimsAllowed(condition: Condition, policy: Usage, claims: seq<Claim>, mode: Mode, context: map<Text, Text>)
    requires condition == Every([Entitlement(DASHED, [Flag(true)]), Entitlement(UNDERSCORED, [Flag(true)])])
    requires policy == Usage(true, [Rule(map[], Allowed, Some(condition))])
    requires claims == [Claim(DASHED, Flag(true)), Claim(UNDERSCORED, Flag(true))]
    ensures Allows(policy, ClaimMap(claims), mode, context)
  {
    hide Less;
  }

  lemma DashFirst()
    ensures Less(DASHED, UNDERSCORED) && !Less(UNDERSCORED, DASHED) && DASHED != UNDERSCORED
    ensures IsClaimId(DASHED) && IsClaimId(UNDERSCORED)
  {
    assert DASHED[0] == UNDERSCORED[0] && DASHED[1] == 45 && UNDERSCORED[1] == 95;
    assert DASHED[1..][0] == 45 && UNDERSCORED[1..][0] == 95;
  }

  lemma TwoClaims(condition: Condition, policy: Usage, claims: seq<Claim>)
    requires condition == Every([Entitlement(DASHED, [Flag(true)]), Entitlement(UNDERSCORED, [Flag(true)])])
    requires policy == Usage(true, [Rule(map[], Allowed, Some(condition))])
    requires claims == [Claim(DASHED, Flag(true)), Claim(UNDERSCORED, Flag(true))]
    ensures RuleClaims(policy.rules) == [DASHED, UNDERSCORED] && IdsOk(claims)
  {
    hide Less, IsClaimId;
    DashFirst();
    var cs := condition.conditions;
    assert ClaimIdsOfAll(cs[1..][1..]) == [];
    assert ClaimIdsOfAll(cs[1..]) == [UNDERSCORED] + [];
    assert ClaimIdsOfAll(cs) == [DASHED] + [UNDERSCORED];
    assert RuleClaims(policy.rules[1..]) == [];
  }
}
