/**
 The entitlement claims that a user has acknowledged for a provider: `ProviderPolicyBindingV1`
 as the registry stores it.  The ids of the claims are different and in ascending order;
 the order is a parameter of the platform, because the source leaves it to
 `localeCompare`.
 */
module PolicyBinding {
  import opened Options
  import opened Texts
  import opened JsonGrammar
  import opened JsonText
  import opened Objects
  import opened Platform

  datatype ClaimValue = Flag(flag: bool) | Count(count: int) | Wording(text: Text)
  datatype Claim = Claim(id: Text, value: ClaimValue)
  datatype Binding = Binding(claims: seq<Claim>, acknowledgedAt: Text)

  const MAX_CLAIMS := 32

  const CLAIM_NAMES: seq<string> := ["id", "value"]
  const BINDING_NAMES: seq<string> := ["schemaVersion", "claims", "acknowledgedAt"]

  function ValueJson(v: ClaimValue): Json {
    match v
    case Flag(flag) => JBool(flag)
    case Count(count) => JNumber(count as real)
    case Wording(text) => JString(text)
  }

  function ClaimJson(c: Claim): Json { JObject(Object(CLAIM_NAMES, [Some(JString(c.id)), Some(ValueJson(c.value))])) }

  function ClaimsJson(cs: seq<Claim>): seq<Json> { seq(|cs|, i requires 0 <= i < |cs| => ClaimJson(cs[i])) }

  function BindingValues(b: Binding): seq<Option<Json>> {
    [Some(JNumber(1.0)), Some(JArray(ClaimsJson(b.claims))), Some(JString(b.acknowledgedAt))]
  }

  function BindingJson(b: Binding): Json { JObject(Object(BINDING_NAMES, BindingValues(b))) }

  predicate ValueOk(env: Platform, v: ClaimValue) {
    && (v.Count? ==> -MAX_SAFE_INTEGER <= v.count <= MAX_SAFE_INTEGER)
    && (v.Wording? ==> TextOk(env, v.text, CLAIM))
  }

  predicate ClaimOk(env: Platform, c: Claim) { TextOk(env, c.id, IDENTIFIER) && ValueOk(env, c.value) }

  predicate Ascending(env: Platform, cs: seq<Claim>) {
    forall k {:trigger cs[k]} :: 0 < k < |cs| ==> env.precedes(cs[k - 1].id, cs[k].id)
  }

  predicate DifferentIds(cs: seq<Claim>) { forall j, k :: 0 <= j < k < |cs| ==> cs[j].id != cs[k].id }

  predicate BindingOk(env: Platform, b: Binding) {
    && |b.claims| <= MAX_CLAIMS && (forall k :: 0 <= k < |b.claims| ==> ClaimOk(env, b.claims[k]))
    && DifferentIds(b.claims) && Ascending(env, b.claims) && TimeOk(env, b.acknowledgedAt)
  }

  predicate IsClaim(v: Json, c: Claim) {
    && v.JObject? && ExactKeys(v.members, CLAIM_NAMES, {})
    && Field(v.members, "id") == Some(JString(c.id)) && Field(v.members, "value") == Some(ValueJson(c.value))
  }

  predicate AreClaims(items: seq<Json>, cs: seq<Claim>) {
    |items| == |cs| && forall k :: 0 <= k < |items| ==> IsClaim(items[k], cs[k])
  }

  /** `v` is an object with exactly the members of the binding. */
  predicate IsBinding(v: Json, b: Binding) {
    && v.JObject? && ExactKeys(v.members, BINDING_NAMES, {})
    && Field(v.members, "schemaVersion") == Some(JNumber(1.0))
    && Field(v.members, "acknowledgedAt") == Some(JString(b.acknowledgedAt))
    && Field(v.members, "claims").Some? && Field(v.members, "claims").value.JArray?
    && AreClaims(Field(v.members, "claims").value.items, b.claims)
  }

  /** `parseProviderPolicyClaimValue`. */
  function ParseValue(env: Platform, v: Json): Option<ClaimValue> {
    match v
    case JBool(flag) => Some(Flag(flag))
    case JNumber(n) => if IsSafe(n) then Some(Count(n.Floor)) else None
    case JString(t) => if TextOk(env, t, CLAIM) then Some(Wording(t)) else None
    case _ => None
  }

  function ParseClaim(env: Platform, v: Json): Option<Claim> {
    if !v.JObject? || !ExactKeys(v.members, CLAIM_NAMES, {}) then None else
    var id :- TextField(env, v.members, "id", IDENTIFIER);
    var stored :- Field(v.members, "value");
    var value :- ParseValue(env, stored);
    Some(Claim(id, value))
  }

  function ClaimReader(env: Platform): Json -> Option<Claim> { (v: Json) => ParseClaim(env, v) }

  /** `parseProviderPolicyBinding`. */
  function ParseBinding(env: Platform, v: Json): Option<Binding> {
    if !v.JObject? || !ExactKeys(v.members, BINDING_NAMES, {}) then None else
    var ms := v.members;
    var claims :- Field(ms, "claims");
    if Field(ms, "schemaVersion") != Some(JNumber(1.0)) || !claims.JArray? || |claims.items| > MAX_CLAIMS then None else
    var cs :- ReadAll(claims.items, ClaimReader(env));
    if !DifferentIds(cs) || !Ascending(env, cs) then None else
    var acknowledgedAt :- TimeField(env, ms, "acknowledgedAt");
    Some(Binding(cs, acknowledgedAt))
  }

  lemma ValueExact(env: Platform, v: Json, c: ClaimValue)
    ensures ParseValue(env, v) == Some(c) <==> ValueOk(env, c) && v == ValueJson(c)
  {
    hide TextOk;
  }

  lemma ClaimExact(env: Platform, v: Json, c: Claim)
    ensures ParseClaim(env, v) == Some(c) <==> ClaimOk(env, c) && IsClaim(v, c)
  {
    hide TextOk, ExactKeys, Field, ParseValue, ValueOk, ValueJson;
    if v.JObject? && Field(v.members, "value").Some? {
      ValueExact(env, Field(v.members, "value").value, c.value);
      var parsed := ParseValue(env, Field(v.members, "value").value);
      if parsed.Some? {
        ValueExact(env, Field(v.members, "value").value, parsed.value);
      }
    }
  }

  lemma ClaimsExact(env: Platform, items: seq<Json>, cs: seq<Claim>)
    ensures ReadAll(items, ClaimReader(env)) == Some(cs)
       <==> AreClaims(items, cs) && forall k :: 0 <= k < |cs| ==> ClaimOk(env, cs[k])
  {
    hide ParseClaim, ClaimOk, IsClaim, ReadAll;
    var read := ClaimReader(env);
    if |cs| == |items| {
      forall k | 0 <= k < |cs| ensures read(items[k]) == Some(cs[k]) <==> ClaimOk(env, cs[k]) && IsClaim(items[k], cs[k]) {
        ClaimExact(env, items[k], cs[k]);
      }
      if AreClaims(items, cs) && forall k :: 0 <= k < |cs| ==> ClaimOk(env, cs[k]) {
        ReadAllComplete(items, read, cs);
      }
    }
  }

  /** The parser accepts exactly the objects with the members of a well-formed binding, and reads that binding. */
  lemma BindingExact(env: Platform, v: Json, b: Binding)
    ensures ParseBinding(env, v) == Some(b) <==> BindingOk(env, b) && IsBinding(v, b)
  {
    hide TextOk, ExactKeys, Field, ParseClaim, ClaimOk, AreClaims, ReadAll, Ascending, DifferentIds, BINDING_NAMES;
    if v.JObject? && Field(v.members, "claims").Some? && Field(v.members, "claims").value.JArray? {
      var items := Field(v.members, "claims").value.items;
      ClaimsExact(env, items, b.claims);
      assert AreClaims(items, b.claims) ==> |items| == |b.claims| by { AreClaimsLength(items, b.claims); }
    }
  }

  lemma AreClaimsLength(items: seq<Json>, cs: seq<Claim>)
    ensures AreClaims(items, cs) ==> |items| == |cs|
  {
  }

  // ---- printing

  lemma NamesOk()
    ensures Different(CLAIM_NAMES) && Different(BINDING_NAMES)
  {
  }

  lemma ClaimPrints(c: Claim)
    ensures IsClaim(ClaimJson(c), c)
  {
    hide Object, Field, ExactKeys, ValueJson;
    var values := [Some(JString(c.id)), Some(ValueJson(c.value))];
    NamesOk();
    ObjectExact(CLAIM_NAMES, values, {});
    assert Field(Object(CLAIM_NAMES, values), CLAIM_NAMES[0]) == values[0];
    assert Field(Object(CLAIM_NAMES, values), CLAIM_NAMES[1]) == values[1];
  }

  lemma BindingPrints(b: Binding)
    ensures IsBinding(BindingJson(b), b)
  {
    hide Object, Field, ExactKeys, IsClaim, ClaimJson;
    var ms, values := Object(BINDING_NAMES, BindingValues(b)), BindingValues(b);
    NamesOk();
    ObjectExact(BINDING_NAMES, values, {});
    assert Field(ms, BINDING_NAMES[0]) == values[0] && Field(ms, BINDING_NAMES[1]) == values[1];
    assert Field(ms, BINDING_NAMES[2]) == values[2];
    forall k | 0 <= k < |b.claims| ensures IsClaim(ClaimsJson(b.claims)[k], b.claims[k]) {
      ClaimPrints(b.claims[k]);
    }
  }

  lemma ClaimClean(env: Platform, v: Json, c: Claim)
    requires IsClaim(v, c) && Clean(env, v)
    ensures Clean(env, ClaimJson(c))
  {
    hide Object, Field, ExactKeys, Clean, ValueJson;
    AgreeClean(env, v.members, CLAIM_NAMES, [Some(JString(c.id)), Some(ValueJson(c.value))]);
    ObjectClean(env, CLAIM_NAMES, [Some(JString(c.id)), Some(ValueJson(c.value))]);
  }

  lemma BindingClean(env: Platform, v: Json, b: Binding)
    requires IsBinding(v, b) && Clean(env, v)
    ensures Clean(env, BindingJson(b))
  {
    hide Object, Field, ExactKeys, IsClaim, ClaimJson, Clean;
    FieldClean(env, v.members, "schemaVersion");
    FieldClean(env, v.members, "claims");
    FieldClean(env, v.members, "acknowledgedAt");
    ClaimsClean(env, Field(v.members, "claims").value.items, b.claims);
    ObjectClean(env, BINDING_NAMES, BindingValues(b));
  }

  lemma ClaimsClean(env: Platform, items: seq<Json>, cs: seq<Claim>)
    requires AreClaims(items, cs) && Clean(env, JArray(items))
    ensures Clean(env, JArray(ClaimsJson(cs)))
  {
    hide IsClaim, ClaimJson;
    forall k | 0 <= k < |cs| ensures Clean(env, ClaimsJson(cs)[k]) {
      ClaimClean(env, items[k], cs[k]);
    }
  }

  lemma ClaimFits(env: Platform, c: Claim)
    requires ClaimOk(env, c)
    ensures Fits(ClaimJson(c), 2)
  {
    hide Object;
    NamesOk();
    ObjectFits(CLAIM_NAMES, [Some(JString(c.id)), Some(ValueJson(c.value))], 1);
  }

  lemma BindingFits(env: Platform, b: Binding)
    requires BindingOk(env, b)
    ensures Fits(BindingJson(b), 4)
  {
    hide Object, Fits, ClaimOk, ClaimJson, TextOk;
    NamesOk();
    forall k | 0 <= k < |b.claims| ensures Fits(ClaimsJson(b.claims)[k], 2) {
      ClaimFits(env, b.claims[k]);
    }
    ArrayFits(ClaimsJson(b.claims), 2);
    NumberFits(1, 3);
    TextFits(b.acknowledgedAt, 3) by { assert TextOk(env, b.acknowledgedAt, TIMESTAMP); TextOkIsText(env, b.acknowledgedAt, TIMESTAMP); }
    var values := BindingValues(b);
    assert OptionFits(values[0], 3) && OptionFits(values[1], 3) && OptionFits(values[2], 3);
    ObjectFits(BINDING_NAMES, values, 3);
  }
}
