/**
 Connection records: their three kinds, when one is valid, and how it is written and read.
 For each part of a record there is a predicate that says when it is valid, a relation
 between JSON values and the parts they present, and a lemma that the parser accepts exactly
 the presentations of valid parts.
 */
module Records {
  import opened Options
  import opened Texts
  import opened JsonGrammar
  import opened JsonText
  import opened Objects
  import opened Platform
  import opened Billing
  import opened PolicyBinding

  datatype Effort = NoEffort | Minimal | Low | Medium | High | XHigh | Maximal | Ultra {
    function Word(): string {
      match this
      case NoEffort => "none"
      case Minimal => "minimal"
      case Low => "low"
      case Medium => "medium"
      case High => "high"
      case XHigh => "xhigh"
      case Maximal => "max"
      case Ultra => "ultra"
    }

    function Json(): Json { JString(A(Word())) }
  }

  datatype Adapter = OpenAiResponses | AnthropicMessages | GeminiGenerateContent | OpenAiChatCompletions {
    function Word(): string {
      match this
      case OpenAiResponses => "openai-responses"
      case AnthropicMessages => "anthropic-messages"
      case GeminiGenerateContent => "gemini-generate-content"
      case OpenAiChatCompletions => "openai-chat-completions"
    }

    function Json(): Json { JString(A(Word())) }
  }

  /** `VerifiedModelLimits`. */
  datatype Limits = Limits(input: int, output: Option<int>, verifiedAt: Text)

  /** What a delegated connection says about the agent it hands work to. */
  datatype Agent = Agent(
    providerId: Text, adapterId: Text, name: Text, account: Text, organization: Option<Text>, modelId: Text,
    effort: Option<Effort>, profile: Option<Text>, fingerprint: Text, policyRevision: Text)

  /** What an environment connection says about its model provider. */
  datatype Model = Model(
    providerId: Text, adapter: Adapter, name: Text, modelId: Text, effort: Option<Effort>, limits: Option<Limits>,
    variable: Text, fingerprint: Text, policyRevision: Text, binding: Option<Binding>)

  /** The billing terms of a connection and its dates; `checkedAt` is `verifiedAt` or `configuredAt`. */
  datatype Terms = Terms(policy: Policy, selection: Selection, checkedAt: Text, createdAt: Text, updatedAt: Text)

  datatype Record =
    | Local(id: Text, name: Text, baseUrl: Text, modelId: Text, createdAt: Text, updatedAt: Text)
    | Delegated(id: Text, agent: Agent, terms: Terms)
    | Environment(id: Text, model: Model, terms: Terms)

  // ---- words

  function ReadEffort(v: Json): (r: Option<Effort>)
    ensures forall e: Effort :: r == Some(e) <==> v == e.Json()
  {
    LiteralsDiffer(NoEffort.Word(), High.Word());
    LiteralsDiffer(Low.Word(), Maximal.Word());
    LiteralsDiffer(XHigh.Word(), Ultra.Word());
    if v == NoEffort.Json() then Some(NoEffort)
    else if v == Minimal.Json() then Some(Minimal)
    else if v == Low.Json() then Some(Low)
    else if v == Medium.Json() then Some(Medium)
    else if v == High.Json() then Some(High)
    else if v == XHigh.Json() then Some(XHigh)
    else if v == Maximal.Json() then Some(Maximal)
    else if v == Ultra.Json() then Some(Ultra)
    else None
  }

  function ReadAdapter(v: Json): (r: Option<Adapter>)
    ensures forall a: Adapter :: r == Some(a) <==> v == a.Json()
  {
    LiteralsDiffer(GeminiGenerateContent.Word(), OpenAiChatCompletions.Word());
    if v == OpenAiResponses.Json() then Some(OpenAiResponses)
    else if v == AnthropicMessages.Json() then Some(AnthropicMessages)
    else if v == GeminiGenerateContent.Json() then Some(GeminiGenerateContent)
    else if v == OpenAiChatCompletions.Json() then Some(OpenAiChatCompletions)
    else None
  }

  function OptionalEffort(e: Option<Effort>): Option<Json> { if e.None? then None else Some(e.value.Json()) }

  /** A reasoning effort that may be absent: an absent one is read as None. */
  function EffortField(ms: seq<Member>, name: string): Option<Option<Effort>> {
    if Field(ms, name).None? then Some(None) else
    var e := ReadEffort(Field(ms, name).value);
    if e.None? then None else Some(e)
  }

  lemma EffortFieldExact(ms: seq<Member>, name: string, e: Option<Effort>)
    ensures EffortField(ms, name) == Some(e) <==> Field(ms, name) == OptionalEffort(e)
  {
    hide Field, Effort.Json;
  }

  function AdapterField(ms: seq<Member>, name: string): (r: Option<Adapter>)
    ensures forall a: Adapter :: r == Some(a) <==> Field(ms, name) == Some(a.Json())
  {
    if Field(ms, name).None? then None else ReadAdapter(Field(ms, name).value)
  }

  // ---- model limits

  const LIMITS_NAMES: seq<string> := ["source", "maxInputTokens", "maxOutputTokens", "verifiedAt"]
  const CATALOG := "authenticated_provider_catalog"

  predicate IsTokens(n: int) { 0 < n <= MAX_SAFE_INTEGER }

  function TokensJson(n: Option<int>): Json { if n.None? then JNull else JNumber(n.value as real) }

  function LimitsValues(l: Limits): seq<Option<Json>> {
    [Some(JString(A(CATALOG))), Some(JNumber(l.input as real)), Some(TokensJson(l.output)), Some(JString(l.verifiedAt))]
  }

  function LimitsJson(l: Limits): Json { JObject(Object(LIMITS_NAMES, LimitsValues(l))) }

  predicate LimitsOk(env: Platform, l: Limits) {
    IsTokens(l.input) && (l.output.Some? ==> IsTokens(l.output.value)) && TimeOk(env, l.verifiedAt)
  }

  predicate IsLimits(v: Json, l: Limits) {
    && v.JObject? && ExactKeys(v.members, LIMITS_NAMES, {})
    && Field(v.members, "source") == Some(JString(A(CATALOG)))
    && Field(v.members, "maxInputTokens") == Some(JNumber(l.input as real))
    && Field(v.members, "maxOutputTokens") == Some(TokensJson(l.output))
    && Field(v.members, "verifiedAt") == Some(JString(l.verifiedAt))
  }

  function ReadTokens(v: Json): (r: Option<int>)
    ensures forall n: int :: r == Some(n) <==> IsTokens(n) && v == JNumber(n as real)
  {
    if v.JNumber? && IsSafe(v.number) && IsTokens(v.number.Floor) then Some(v.number.Floor) else None
  }

  function ParseLimits(env: Platform, v: Json): Option<Limits> {
    if !v.JObject? || !ExactKeys(v.members, LIMITS_NAMES, {}) then None else
    var ms := v.members;
    var input, output := Field(ms, "maxInputTokens"), Field(ms, "maxOutputTokens");
    if Field(ms, "source") != Some(JString(A(CATALOG))) || input.None? || output.None? then None else
    var most, reply := ReadTokens(input.value), ReadTokens(output.value);
    if most.None? || (output.value != JNull && reply.None?) then None else
    var verifiedAt := TimeField(env, ms, "verifiedAt");
    if verifiedAt.None? then None else Some(Limits(most.value, reply, verifiedAt.value))
  }

  lemma LimitsExact(env: Platform, v: Json, l: Limits)
    ensures ParseLimits(env, v) == Some(l) <==> LimitsOk(env, l) && IsLimits(v, l)
  {
    hide TextOk, ExactKeys, Field, LIMITS_NAMES, CATALOG, IsTokens, IsSafe;
  }

  lemma LimitsPrints(l: Limits)
    ensures IsLimits(LimitsJson(l), l)
  {
    hide Object, Field, ExactKeys, CATALOG, TokensJson;
    var ms, values := Object(LIMITS_NAMES, LimitsValues(l)), LimitsValues(l);
    LimitsNamesOk();
    ObjectExact(LIMITS_NAMES, values, {});
    assert Field(ms, LIMITS_NAMES[0]) == values[0] && Field(ms, LIMITS_NAMES[1]) == values[1];
    assert Field(ms, LIMITS_NAMES[2]) == values[2] && Field(ms, LIMITS_NAMES[3]) == values[3];
  }

  lemma LimitsNamesOk()
    ensures Different(LIMITS_NAMES)
  {
  }

  lemma LimitsClean(env: Platform, v: Json, l: Limits)
    requires IsLimits(v, l) && Clean(env, v)
    ensures Clean(env, LimitsJson(l))
  {
    hide Object, Field, ExactKeys, Clean, CATALOG, TokensJson;
    AgreeClean(env, v.members, LIMITS_NAMES, LimitsValues(l));
    ObjectClean(env, LIMITS_NAMES, LimitsValues(l));
  }

  lemma LimitsFits(env: Platform, l: Limits)
    requires LimitsOk(env, l)
    ensures Fits(LimitsJson(l), 2)
  {
    hide Object, Different, CATALOG, TextOk;
    LimitsNamesOk();
    TextOkIsText(env, l.verifiedAt, TIMESTAMP);
    ObjectFits(LIMITS_NAMES, LimitsValues(l), 1);
  }

  // ---- local connections

  const LOCAL_KIND := "local_openai_compatible"
  const LOCAL_PROVIDER := "local-openai-compatible"
  const LOCAL_ADAPTER := "openai-chat-completions"

  const LOCAL_NAMES: seq<string> :=
    ["kind", "id", "providerId", "adapterId", "label", "baseUrl", "modelId", "createdAt", "updatedAt"]

  function LocalValues(r: Record): seq<Option<Json>>
    requires r.Local?
  {
    [Some(JString(A(LOCAL_KIND))), Some(JString(r.id)), Some(JString(A(LOCAL_PROVIDER))), Some(JString(A(LOCAL_ADAPTER))),
     Some(JString(r.name)), Some(JString(r.baseUrl)), Some(JString(r.modelId)),
     Some(JString(r.createdAt)), Some(JString(r.updatedAt))]
  }

  predicate LocalOk(env: Platform, r: Record)
    requires r.Local?
  {
    && TextOk(env, r.id, IDENTIFIER) && TextOk(env, r.name, LABEL) && TextOk(env, r.modelId, LONG_LABEL)
    && TextOk(env, r.baseUrl, URL) && env.normalUrl(r.baseUrl) == Some(r.baseUrl)
    && TimeOk(env, r.createdAt) && TimeOk(env, r.updatedAt) && NotAfter(r.createdAt, r.updatedAt)
  }

  predicate IsLocal(ms: seq<Member>, r: Record)
    requires r.Local?
  {
    && ExactKeys(ms, LOCAL_NAMES, {})
    && Field(ms, "kind") == Some(JString(A(LOCAL_KIND)))
    && Field(ms, "id") == Some(JString(r.id))
    && Field(ms, "providerId") == Some(JString(A(LOCAL_PROVIDER)))
    && Field(ms, "adapterId") == Some(JString(A(LOCAL_ADAPTER)))
    && Field(ms, "label") == Some(JString(r.name))
    && Field(ms, "baseUrl") == Some(JString(r.baseUrl))
    && Field(ms, "modelId") == Some(JString(r.modelId))
    && Field(ms, "createdAt") == Some(JString(r.createdAt))
    && Field(ms, "updatedAt") == Some(JString(r.updatedAt))
  }

  /** `parseLocal`. */
  function ParseLocal(env: Platform, ms: seq<Member>): Option<Record> {
    if !ExactKeys(ms, LOCAL_NAMES, {}) then None
    else if Field(ms, "kind") != Some(JString(A(LOCAL_KIND))) || Field(ms, "providerId") != Some(JString(A(LOCAL_PROVIDER)))
      || Field(ms, "adapterId") != Some(JString(A(LOCAL_ADAPTER))) then None else
    var input := TextField(env, ms, "baseUrl", URL);
    if input.None? || env.normalUrl(input.value) != input then None else
    var createdAt, updatedAt := TimeField(env, ms, "createdAt"), TimeField(env, ms, "updatedAt");
    if createdAt.None? || updatedAt.None? || Less(updatedAt.value, createdAt.value) then None else
    var id, name := TextField(env, ms, "id", IDENTIFIER), TextField(env, ms, "label", LABEL);
    var modelId := TextField(env, ms, "modelId", LONG_LABEL);
    if id.None? || name.None? || modelId.None? then None
    else Some(Local(id.value, name.value, input.value, modelId.value, createdAt.value, updatedAt.value))
  }

  lemma LocalExact(env: Platform, ms: seq<Member>, r: Record)
    requires r.Local?
    ensures ParseLocal(env, ms) == Some(r) <==> LocalOk(env, r) && IsLocal(ms, r)
  {
    hide TextOk, ExactKeys, Field, LOCAL_NAMES, LOCAL_KIND, LOCAL_PROVIDER, LOCAL_ADAPTER, Less;
  }

  lemma LocalNamesOk()
    ensures Different(LOCAL_NAMES)
  {
  }

  lemma LocalPrints(r: Record)
    requires r.Local?
    ensures IsLocal(Object(LOCAL_NAMES, LocalValues(r)), r)
  {
    hide Object, Field, ExactKeys, LOCAL_KIND, LOCAL_PROVIDER, LOCAL_ADAPTER;
    var ms, values := Object(LOCAL_NAMES, LocalValues(r)), LocalValues(r);
    LocalNamesOk();
    ObjectExact(LOCAL_NAMES, values, {});
    assert Field(ms, LOCAL_NAMES[0]) == values[0] && Field(ms, LOCAL_NAMES[1]) == values[1];
    assert Field(ms, LOCAL_NAMES[2]) == values[2] && Field(ms, LOCAL_NAMES[3]) == values[3];
    assert Field(ms, LOCAL_NAMES[4]) == values[4] && Field(ms, LOCAL_NAMES[5]) == values[5];
    assert Field(ms, LOCAL_NAMES[6]) == values[6] && Field(ms, LOCAL_NAMES[7]) == values[7];
    assert Field(ms, LOCAL_NAMES[8]) == values[8];
  }

  lemma LocalClean(env: Platform, ms: seq<Member>, r: Record)
    requires r.Local? && IsLocal(ms, r) && Clean(env, JObject(ms))
    ensures Clean(env, JObject(Object(LOCAL_NAMES, LocalValues(r))))
  {
    hide Object, Field, ExactKeys, Clean, LOCAL_KIND, LOCAL_PROVIDER, LOCAL_ADAPTER;
    AgreeClean(env, ms, LOCAL_NAMES, LocalValues(r));
    ObjectClean(env, LOCAL_NAMES, LocalValues(r));
  }

  lemma LocalFits(env: Platform, r: Record)
    requires r.Local? && LocalOk(env, r)
    ensures Fits(JObject(Object(LOCAL_NAMES, LocalValues(r))), 2)
  {
    hide Object, Different, LOCAL_KIND, LOCAL_PROVIDER, LOCAL_ADAPTER;
    LocalNamesOk();
    ObjectFits(LOCAL_NAMES, LocalValues(r), 1);
  }

  // ---- billing terms and dates

  const DELEGATED_TERMS: seq<string> := ["billingPolicy", "billingSelection", "verifiedAt", "createdAt", "updatedAt"]
  const ENVIRONMENT_TERMS: seq<string> := ["billingPolicy", "billingSelection", "configuredAt", "createdAt", "updatedAt"]

  function TermsValues(t: Terms): seq<Option<Json>> {
    [Some(PolicyJson(t.policy)), Some(SelectionJson(t.selection)),
     Some(JString(t.checkedAt)), Some(JString(t.createdAt)), Some(JString(t.updatedAt))]
  }

  /** The policy makes sense, the selection is one it offers, and every date lies between creation and last update. */
  predicate TermsOk(env: Platform, t: Terms) {
    && PolicyOk(env, t.policy) && SelectionOk(env, t.selection, t.policy)
    && TimeOk(env, t.checkedAt) && TimeOk(env, t.createdAt) && TimeOk(env, t.updatedAt)
    && NotAfter(t.createdAt, t.updatedAt) && Between(t.checkedAt, t.createdAt, t.updatedAt)
    && Between(t.selection.acknowledgedAt, t.createdAt, t.updatedAt)
  }

  ghost predicate AreTerms(ms: seq<Member>, t: Terms, checkedAt: string) {
    && Field(ms, "billingPolicy").Some? && IsPolicy(Field(ms, "billingPolicy").value, t.policy)
    && Field(ms, "billingSelection").Some? && IsSelection(Field(ms, "billingSelection").value, t.selection)
    && Field(ms, checkedAt) == Some(JString(t.checkedAt))
    && Field(ms, "createdAt") == Some(JString(t.createdAt))
    && Field(ms, "updatedAt") == Some(JString(t.updatedAt))
  }

  function ParseTerms(env: Platform, ms: seq<Member>, checkedName: string): Option<Terms> {
    var createdAt, updatedAt := TimeField(env, ms, "createdAt"), TimeField(env, ms, "updatedAt");
    var checkedAt := TimeField(env, ms, checkedName);
    var policyValue, selectionValue := Field(ms, "billingPolicy"), Field(ms, "billingSelection");
    if createdAt.None? || updatedAt.None? || checkedAt.None? || policyValue.None? || selectionValue.None? then None else
    var policy := ParsePolicy(env, policyValue.value);
    if policy.None? then None else
    var selection := ParseSelection(env, selectionValue.value, policy.value);
    if selection.None? then None
    else if || Less(updatedAt.value, createdAt.value)
       || Less(checkedAt.value, createdAt.value) || Less(updatedAt.value, checkedAt.value)
       || Less(selection.value.acknowledgedAt, createdAt.value) || Less(updatedAt.value, selection.value.acknowledgedAt) then None
    else Some(Terms(policy.value, selection.value, checkedAt.value, createdAt.value, updatedAt.value))
  }

  lemma TermsExact(env: Platform, ms: seq<Member>, t: Terms, checkedAt: string)
    ensures ParseTerms(env, ms, checkedAt) == Some(t) <==> TermsOk(env, t) && AreTerms(ms, t, checkedAt)
  {
    hide ParsePolicy, ParseSelection, PolicyOk, SelectionOk, IsPolicy, IsSelection, Field, Less, TextOk;
    if Field(ms, "billingPolicy").Some? && Field(ms, "billingSelection").Some? {
      PolicyExact(env, Field(ms, "billingPolicy").value, t.policy);
      if PolicyOk(env, t.policy) {
        SelectionExact(env, Field(ms, "billingSelection").value, t.selection, t.policy);
      }
    }
  }

  lemma TermsPrint(env: Platform, ms: seq<Member>, t: Terms, names: seq<string>)
    requires names == DELEGATED_TERMS || names == ENVIRONMENT_TERMS
    requires |names| == |TermsValues(t)| && Agree(ms, names, TermsValues(t)) && TermsOk(env, t)
    ensures AreTerms(ms, t, names[2])
  {
    hide Field, PolicyOk, SelectionOk, IsPolicy, IsSelection, PolicyJson, SelectionJson, TimeOk;
    PolicyPrints(t.policy);
    SelectionPrints(env, t.selection, t.policy);
    var values := TermsValues(t);
    assert Field(ms, names[0]) == values[0] && Field(ms, names[1]) == values[1] && Field(ms, names[2]) == values[2];
    assert Field(ms, names[3]) == values[3] && Field(ms, names[4]) == values[4];
  }

  lemma TermsClean(env: Platform, ms: seq<Member>, t: Terms, names: seq<string>)
    requires names == DELEGATED_TERMS || names == ENVIRONMENT_TERMS
    requires |names| == |TermsValues(t)| && AreTerms(ms, t, names[2]) && Clean(env, JObject(ms))
    ensures CleanMembers(env, names, TermsValues(t))
  {
    hide Field, IsPolicy, IsSelection, PolicyJson, SelectionJson, Clean;
    FieldClean(env, ms, "billingPolicy");
    FieldClean(env, ms, "billingSelection");
    FieldClean(env, ms, names[2]);
    FieldClean(env, ms, "createdAt");
    FieldClean(env, ms, "updatedAt");
    PolicyClean(env, Field(ms, "billingPolicy").value, t.policy);
    SelectionClean(env, Field(ms, "billingSelection").value, t.selection);
  }

  lemma TimeFits(env: Platform, t: Text, limit: nat)
    requires TimeOk(env, t) && limit > 0
    ensures Fits(JString(t), limit)
  {
  }

  lemma TermsFit(env: Platform, t: Terms)
    requires TermsOk(env, t)
    ensures AllFit(TermsValues(t), 4)
  {
    hide Fits, PolicyOk, SelectionOk, PolicyJson, SelectionJson, TimeOk;
    PolicyFits(env, t.policy);
    SelectionFits(env, t.selection, t.policy);
    FitsDeeper(PolicyJson(t.policy), 3, 4);
    FitsDeeper(SelectionJson(t.selection), 3, 4);
    TimeFits(env, t.checkedAt, 4);
    TimeFits(env, t.createdAt, 4);
    TimeFits(env, t.updatedAt, 4);
  }

  // ---- delegated connections

  const DELEGATED_KIND := "delegated_agent"

  const AGENT_NAMES: seq<string> :=
    ["providerId", "adapterId", "label", "accountLabel", "organizationLabel", "modelId",
     "reasoningEffort", "runtimeCapabilityProfileRevision", "accountSubjectFingerprint", "policyRevision"]

  const AGENT_OPTIONAL: set<string> := {"reasoningEffort", "runtimeCapabilityProfileRevision"}

  function AgentValues(a: Agent): seq<Option<Json>> {
    [Some(JString(a.providerId)), Some(JString(a.adapterId)), Some(JString(a.name)), Some(JString(a.account)),
     Some(OrNull(a.organization)), Some(JString(a.modelId)), OptionalEffort(a.effort), OrAbsent(a.profile),
     Some(JString(a.fingerprint)), Some(JString(a.policyRevision))]
  }

  predicate AgentOk(env: Platform, a: Agent) {
    && TextOk(env, a.providerId, IDENTIFIER) && TextOk(env, a.adapterId, IDENTIFIER)
    && TextOk(env, a.name, LABEL) && TextOk(env, a.account, LABEL)
    && (a.organization.Some? ==> TextOk(env, a.organization.value, LABEL))
    && TextOk(env, a.modelId, LONG_LABEL) && (a.profile.Some? ==> TextOk(env, a.profile.value, PROFILE))
    && TextOk(env, a.fingerprint, FINGERPRINT) && TextOk(env, a.policyRevision, LABEL)
  }

  predicate IsAgent(ms: seq<Member>, a: Agent) {
    && Field(ms, "providerId") == Some(JString(a.providerId))
    && Field(ms, "adapterId") == Some(JString(a.adapterId))
    && Field(ms, "label") == Some(JString(a.name))
    && Field(ms, "accountLabel") == Some(JString(a.account))
    && Field(ms, "organizationLabel") == Some(OrNull(a.organization))
    && Field(ms, "modelId") == Some(JString(a.modelId))
    && Field(ms, "reasoningEffort") == OptionalEffort(a.effort)
    && Field(ms, "runtimeCapabilityProfileRevision") == OrAbsent(a.profile)
    && Field(ms, "accountSubjectFingerprint") == Some(JString(a.fingerprint))
    && Field(ms, "policyRevision") == Some(JString(a.policyRevision))
  }

  function ParseAgent(env: Platform, ms: seq<Member>): Option<Agent> {
    var providerId, adapterId := TextField(env, ms, "providerId", IDENTIFIER), TextField(env, ms, "adapterId", IDENTIFIER);
    var name, account := TextField(env, ms, "label", LABEL), TextField(env, ms, "accountLabel", LABEL);
    var organization := NullableField(env, ms, "organizationLabel", LABEL);
    var modelId, effort := TextField(env, ms, "modelId", LONG_LABEL), EffortField(ms, "reasoningEffort");
    var profile := OptionalField(env, ms, "runtimeCapabilityProfileRevision", PROFILE);
    var fingerprint := TextField(env, ms, "accountSubjectFingerprint", FINGERPRINT);
    var policyRevision := TextField(env, ms, "policyRevision", LABEL);
    if || providerId.None? || adapterId.None? || name.None? || account.None? || organization.None? || modelId.None?
       || effort.None? || profile.None? || fingerprint.None? || policyRevision.None? then None
    else Some(Agent(providerId.value, adapterId.value, name.value, account.value, organization.value, modelId.value,
                    effort.value, profile.value, fingerprint.value, policyRevision.value))
  }

  lemma ParsedAgent(env: Platform, ms: seq<Member>, a: Agent)
    requires ParseAgent(env, ms) == Some(a)
    ensures AgentOk(env, a) && IsAgent(ms, a)
  {
    hide TextOk, Field, TextField, NullableField, OptionalField, EffortField, OrNull, OrAbsent, OptionalEffort;
    EffortFieldExact(ms, "reasoningEffort", a.effort);
  }

  lemma AgentParses(env: Platform, ms: seq<Member>, a: Agent)
    requires AgentOk(env, a) && IsAgent(ms, a)
    ensures ParseAgent(env, ms) == Some(a)
  {
    hide TextOk, Field, EffortField, OptionalEffort;
    EffortFieldExact(ms, "reasoningEffort", a.effort);
  }

  lemma AgentAgrees(ms: seq<Member>, a: Agent)
    ensures Agree(ms, AGENT_NAMES, AgentValues(a)) <==> IsAgent(ms, a)
  {
    hide Field, OptionalEffort, OrNull, OrAbsent;
    var values := AgentValues(a);
    if Agree(ms, AGENT_NAMES, values) {
      assert Field(ms, AGENT_NAMES[0]) == values[0] && Field(ms, AGENT_NAMES[1]) == values[1];
      assert Field(ms, AGENT_NAMES[2]) == values[2] && Field(ms, AGENT_NAMES[3]) == values[3];
      assert Field(ms, AGENT_NAMES[4]) == values[4] && Field(ms, AGENT_NAMES[5]) == values[5];
      assert Field(ms, AGENT_NAMES[6]) == values[6] && Field(ms, AGENT_NAMES[7]) == values[7];
      assert Field(ms, AGENT_NAMES[8]) == values[8] && Field(ms, AGENT_NAMES[9]) == values[9];
    }
  }

  lemma AgentFits(env: Platform, a: Agent)
    requires AgentOk(env, a)
    ensures AllFit(AgentValues(a), 4)
  {
  }

  // ---- environment connections

  const ENVIRONMENT_KIND := "environment_model_provider"

  const MODEL_NAMES: seq<string> :=
    ["providerId", "adapterId", "label", "modelId", "reasoningEffort", "modelLimits",
     "credentialEnvironmentVariable", "credentialIdentityFingerprint", "policyRevision", "policyBinding"]

  const MODEL_OPTIONAL: set<string> := {"reasoningEffort", "modelLimits", "policyBinding"}

  function LimitsOption(l: Option<Limits>): Option<Json> { if l.None? then None else Some(LimitsJson(l.value)) }

  function BindingOption(b: Option<Binding>): Option<Json> { if b.None? then None else Some(BindingJson(b.value)) }

  function ModelValues(m: Model): seq<Option<Json>> {
    [Some(JString(m.providerId)), Some(m.adapter.Json()), Some(JString(m.name)), Some(JString(m.modelId)),
     OptionalEffort(m.effort), LimitsOption(m.limits), Some(JString(m.variable)), Some(JString(m.fingerprint)),
     Some(JString(m.policyRevision)), BindingOption(m.binding)]
  }

  /** The pieces of a text between underscores. */
  function Segments(t: Text): (segments: seq<Text>)
    ensures |segments| > 0
  {
    if t == [] then [[]] else
    var rest := Segments(t[1..]);
    if t[0] == 95 then [[]] + rest else [[t[0]] + rest[0]] + rest[1..]
  }

  /** `credentialEnvironmentVariable`: one of the segments says that the variable holds a credential. */
  predicate NamesCredential(t: Text) {
    A("KEY") in Segments(t) || A("TOKEN") in Segments(t) || A("SECRET") in Segments(t)
  }

  predicate IsResponsesModel(t: Text) { t == A("gpt-5.6-luna") || t == A("gpt-5.6-sol") || t == A("gpt-5.6-terra") }

  /** A reasoning effort is recorded only for the models whose efforts are known, and minimal and ultra are not among them. */
  predicate EffortOk(m: Model) {
    m.effort.Some? ==>
      && m.providerId == A("openai-api") && m.adapter.OpenAiResponses? && IsResponsesModel(m.modelId)
      && m.effort.value != Minimal && m.effort.value != Ultra
  }

  predicate ModelOk(env: Platform, m: Model) {
    && TextOk(env, m.providerId, IDENTIFIER) && TextOk(env, m.name, LABEL) && TextOk(env, m.modelId, MODEL)
    && EffortOk(m) && (m.limits.Some? ==> LimitsOk(env, m.limits.value))
    && TextOk(env, m.variable, VARIABLE) && NamesCredential(m.variable)
    && TextOk(env, m.fingerprint, FINGERPRINT) && TextOk(env, m.policyRevision, LABEL)
    && (m.binding.Some? ==> BindingOk(env, m.binding.value))
  }

  predicate OptionIsLimits(v: Option<Json>, l: Option<Limits>) {
    if l.None? then v.None? else v.Some? && IsLimits(v.value, l.value)
  }

  predicate OptionIsBinding(v: Option<Json>, b: Option<Binding>) {
    if b.None? then v.None? else v.Some? && IsBinding(v.value, b.value)
  }

  predicate IsModel(ms: seq<Member>, m: Model) {
    && Field(ms, "providerId") == Some(JString(m.providerId))
    && Field(ms, "adapterId") == Some(m.adapter.Json())
    && Field(ms, "label") == Some(JString(m.name))
    && Field(ms, "modelId") == Some(JString(m.modelId))
    && Field(ms, "reasoningEffort") == OptionalEffort(m.effort)
    && OptionIsLimits(Field(ms, "modelLimits"), m.limits)
    && Field(ms, "credentialEnvironmentVariable") == Some(JString(m.variable))
    && Field(ms, "credentialIdentityFingerprint") == Some(JString(m.fingerprint))
    && Field(ms, "policyRevision") == Some(JString(m.policyRevision))
    && OptionIsBinding(Field(ms, "policyBinding"), m.binding)
  }

  function OptionalLimits(env: Platform, v: Option<Json>): Option<Option<Limits>> {
    if v.None? then Some(None) else
    var l := ParseLimits(env, v.value);
    if l.None? then None else Some(l)
  }

  function OptionalBinding(env: Platform, v: Option<Json>): Option<Option<Binding>> {
    if v.None? then Some(None) else
    var b := ParseBinding(env, v.value);
    if b.None? then None else Some(b)
  }

  lemma OptionalLimitsExact(env: Platform, v: Option<Json>, l: Option<Limits>)
    ensures OptionalLimits(env, v) == Some(l) <==> (l.Some? ==> LimitsOk(env, l.value)) && OptionIsLimits(v, l)
  {
    hide ParseLimits, LimitsOk, IsLimits;
    if v.Some? && l.Some? {
      LimitsExact(env, v.value, l.value);
    }
  }

  lemma OptionalBindingExact(env: Platform, v: Option<Json>, b: Option<Binding>)
    ensures OptionalBinding(env, v) == Some(b) <==> (b.Some? ==> BindingOk(env, b.value)) && OptionIsBinding(v, b)
  {
    hide ParseBinding, BindingOk, IsBinding;
    if v.Some? && b.Some? {
      BindingExact(env, v.value, b.value);
    }
  }

  function ParseModel(env: Platform, ms: seq<Member>): Option<Model> {
    var adapter, effort := AdapterField(ms, "adapterId"), EffortField(ms, "reasoningEffort");
    var providerId, modelId := TextField(env, ms, "providerId", IDENTIFIER), TextField(env, ms, "modelId", MODEL);
    var binding, limits := OptionalBinding(env, Field(ms, "policyBinding")), OptionalLimits(env, Field(ms, "modelLimits"));
    var name, variable := TextField(env, ms, "label", LABEL), TextField(env, ms, "credentialEnvironmentVariable", VARIABLE);
    var fingerprint := TextField(env, ms, "credentialIdentityFingerprint", FINGERPRINT);
    var policyRevision := TextField(env, ms, "policyRevision", LABEL);
    if || adapter.None? || effort.None? || providerId.None? || modelId.None? || binding.None? || limits.None?
       || name.None? || variable.None? || fingerprint.None? || policyRevision.None? || !NamesCredential(variable.value) then None else
    var m := Model(providerId.value, adapter.value, name.value, modelId.value, effort.value, limits.value, variable.value,
                   fingerprint.value, policyRevision.value, binding.value);
    if EffortOk(m) then Some(m) else None
  }

  lemma ParsedModel(env: Platform, ms: seq<Member>, m: Model)
    requires ParseModel(env, ms) == Some(m)
    ensures ModelOk(env, m) && IsModel(ms, m)
  {
    hide TextOk, Field, TextField, EffortField, AdapterField, OptionalEffort, OptionalLimits, OptionalBinding, OptionIsLimits,
      OptionIsBinding, LimitsOk, BindingOk, NamesCredential, Adapter.Json;
    EffortFieldExact(ms, "reasoningEffort", m.effort);
    OptionalLimitsExact(env, Field(ms, "modelLimits"), m.limits);
    OptionalBindingExact(env, Field(ms, "policyBinding"), m.binding);
  }

  lemma ModelParses(env: Platform, ms: seq<Member>, m: Model)
    requires ModelOk(env, m) && IsModel(ms, m)
    ensures ParseModel(env, ms) == Some(m)
  {
    hide TextOk, Field, EffortField, AdapterField, OptionalEffort, OptionalLimits, OptionalBinding, OptionIsLimits,
      OptionIsBinding, LimitsOk, BindingOk, NamesCredential, Adapter.Json, EffortOk;
    EffortFieldExact(ms, "reasoningEffort", m.effort);
    OptionalLimitsExact(env, Field(ms, "modelLimits"), m.limits);
    OptionalBindingExact(env, Field(ms, "policyBinding"), m.binding);
  }

  lemma ModelPrints(ms: seq<Member>, m: Model)
    requires Agree(ms, MODEL_NAMES, ModelValues(m))
    ensures IsModel(ms, m)
  {
    hide Field, OptionalEffort, Adapter.Json, IsLimits, IsBinding, LimitsJson, BindingJson;
    var values := ModelValues(m);
    assert Field(ms, MODEL_NAMES[0]) == values[0] && Field(ms, MODEL_NAMES[1]) == values[1];
    assert Field(ms, MODEL_NAMES[2]) == values[2] && Field(ms, MODEL_NAMES[3]) == values[3];
    assert Field(ms, MODEL_NAMES[4]) == values[4] && Field(ms, MODEL_NAMES[5]) == values[5];
    assert Field(ms, MODEL_NAMES[6]) == values[6] && Field(ms, MODEL_NAMES[7]) == values[7];
    assert Field(ms, MODEL_NAMES[8]) == values[8] && Field(ms, MODEL_NAMES[9]) == values[9];
    if m.limits.Some? {
      LimitsPrints(m.limits.value);
    }
    if m.binding.Some? {
      BindingPrints(m.binding.value);
    }
  }

  predicate CleanMember(env: Platform, name: string, value: Option<Json>) {
    value.Some? ==> !env.forbiddenKey(A(name)) && Clean(env, value.value)
  }

  lemma MemberClean(env: Platform, ms: seq<Member>, name: string)
    requires Clean(env, JObject(ms))
    ensures CleanMember(env, name, Field(ms, name))
  {
    if Field(ms, name).Some? {
      FieldClean(env, ms, name);
    }
  }

  lemma LimitsMemberClean(env: Platform, ms: seq<Member>, l: Option<Limits>)
    requires Clean(env, JObject(ms)) && OptionIsLimits(Field(ms, "modelLimits"), l)
    ensures CleanMember(env, "modelLimits", LimitsOption(l))
  {
    hide Field, IsLimits, LimitsJson, Clean;
    if l.Some? {
      FieldClean(env, ms, "modelLimits");
      LimitsClean(env, Field(ms, "modelLimits").value, l.value);
    }
  }

  lemma BindingMemberClean(env: Platform, ms: seq<Member>, b: Option<Binding>)
    requires Clean(env, JObject(ms)) && OptionIsBinding(Field(ms, "policyBinding"), b)
    ensures CleanMember(env, "policyBinding", BindingOption(b))
  {
    hide Field, IsBinding, BindingJson, Clean;
    if b.Some? {
      FieldClean(env, ms, "policyBinding");
      BindingClean(env, Field(ms, "policyBinding").value, b.value);
    }
  }

  lemma ModelClean(env: Platform, ms: seq<Member>, m: Model)
    requires IsModel(ms, m) && Clean(env, JObject(ms))
    ensures CleanMembers(env, MODEL_NAMES, ModelValues(m))
  {
    hide Field, OptionalEffort, Adapter.Json, OptionIsLimits, OptionIsBinding, LimitsOption, BindingOption, Clean;
    MemberClean(env, ms, "providerId");
    MemberClean(env, ms, "adapterId");
    MemberClean(env, ms, "label");
    MemberClean(env, ms, "modelId");
    MemberClean(env, ms, "reasoningEffort");
    MemberClean(env, ms, "credentialEnvironmentVariable");
    MemberClean(env, ms, "credentialIdentityFingerprint");
    MemberClean(env, ms, "policyRevision");
    LimitsMemberClean(env, ms, m.limits);
    BindingMemberClean(env, ms, m.binding);
  }

  lemma ModelFits(env: Platform, m: Model)
    requires ModelOk(env, m)
    ensures AllFit(ModelValues(m), 4)
  {
    hide Fits, LimitsJson, BindingJson, TextOk, LimitsOk, BindingOk, Adapter.Json, OptionalEffort;
    ModelTextsFit(env, m);
    if m.limits.Some? {
      LimitsFits(env, m.limits.value);
      FitsDeeper(LimitsJson(m.limits.value), 2, 4);
    }
    if m.binding.Some? {
      BindingFits(env, m.binding.value);
    }
  }

  lemma ModelTextsFit(env: Platform, m: Model)
    requires ModelOk(env, m)
    ensures Fits(JString(m.providerId), 4) && Fits(m.adapter.Json(), 4) && Fits(JString(m.name), 4) && Fits(JString(m.modelId), 4)
    ensures OptionFits(OptionalEffort(m.effort), 4) && Fits(JString(m.variable), 4) && Fits(JString(m.fingerprint), 4)
    ensures Fits(JString(m.policyRevision), 4)
  {
  }

  // ---- records

  const HEAD_NAMES: seq<string> := ["kind", "id"]
  const DELEGATED_NAMES := HEAD_NAMES + AGENT_NAMES + DELEGATED_TERMS
  const ENVIRONMENT_NAMES := HEAD_NAMES + MODEL_NAMES + ENVIRONMENT_TERMS

  function HeadValues(kind: string, id: Text): seq<Option<Json>> { [Some(JString(A(kind))), Some(JString(id))] }

  function RecordNames(r: Record): seq<string> {
    match r
    case Local(_, _, _, _, _, _) => LOCAL_NAMES
    case Delegated(_, _, _) => DELEGATED_NAMES
    case Environment(_, _, _) => ENVIRONMENT_NAMES
  }

  function RecordValues(r: Record): (values: seq<Option<Json>>)
    ensures |values| == |RecordNames(r)|
  {
    match r
    case Local(_, _, _, _, _, _) => LocalValues(r)
    case Delegated(id, agent, terms) => HeadValues(DELEGATED_KIND, id) + AgentValues(agent) + TermsValues(terms)
    case Environment(id, model, terms) => HeadValues(ENVIRONMENT_KIND, id) + ModelValues(model) + TermsValues(terms)
  }

  /** The members in the order in which the parsers build the record, which is the order they are written in. */
  function RecordJson(r: Record): Json {
    JObject(Object(RecordNames(r), RecordValues(r)))
  }

  /** The claims were acknowledged together with the billing selection, and limits were read while the record existed. */
  predicate EnvironmentDatesOk(m: Model, t: Terms) {
    && (m.binding.Some? ==> m.binding.value.acknowledgedAt == t.selection.acknowledgedAt)
    && (m.limits.Some? ==> Between(m.limits.value.verifiedAt, t.createdAt, t.updatedAt))
  }

  predicate RecordOk(env: Platform, r: Record) {
    match r
    case Local(_, _, _, _, _, _) => LocalOk(env, r)
    case Delegated(id, agent, terms) => TextOk(env, id, IDENTIFIER) && AgentOk(env, agent) && TermsOk(env, terms)
    case Environment(id, model, terms) =>
      TextOk(env, id, IDENTIFIER) && ModelOk(env, model) && TermsOk(env, terms) && EnvironmentDatesOk(model, terms)
  }

  predicate IsHead(ms: seq<Member>, kind: string, id: Text) {
    Field(ms, "kind") == Some(JString(A(kind))) && Field(ms, "id") == Some(JString(id))
  }

  ghost predicate IsDelegated(ms: seq<Member>, id: Text, agent: Agent, terms: Terms) {
    && ExactKeys(ms, DELEGATED_NAMES, AGENT_OPTIONAL) && IsHead(ms, DELEGATED_KIND, id)
    && IsAgent(ms, agent) && AreTerms(ms, terms, "verifiedAt")
  }

  ghost predicate IsEnvironment(ms: seq<Member>, id: Text, model: Model, terms: Terms) {
    && ExactKeys(ms, ENVIRONMENT_NAMES, MODEL_OPTIONAL) && IsHead(ms, ENVIRONMENT_KIND, id)
    && IsModel(ms, model) && AreTerms(ms, terms, "configuredAt")
  }

  /** `v` is an object with exactly the members of the record, in any order. */
  ghost predicate IsRecord(v: Json, r: Record) {
    v.JObject? &&
    match r
    case Local(_, _, _, _, _, _) => IsLocal(v.members, r)
    case Delegated(id, agent, terms) => IsDelegated(v.members, id, agent, terms)
    case Environment(id, model, terms) => IsEnvironment(v.members, id, model, terms)
  }

  /** `parseDelegated`. */
  function ParseDelegated(env: Platform, ms: seq<Member>): Option<Record> {
    if !ExactKeys(ms, DELEGATED_NAMES, AGENT_OPTIONAL) || Field(ms, "kind") != Some(JString(A(DELEGATED_KIND))) then None else
    var id, agent, terms := TextField(env, ms, "id", IDENTIFIER), ParseAgent(env, ms), ParseTerms(env, ms, "verifiedAt");
    if id.None? || agent.None? || terms.None? then None else Some(Delegated(id.value, agent.value, terms.value))
  }

  /** The date tests of `parseEnvironmentModelProviderConnectionRecord` beyond those of the terms. */
  predicate MisdatedModel(m: Model, t: Terms) {
    || (m.binding.Some? && (|| Less(m.binding.value.acknowledgedAt, t.createdAt)
                            || Less(t.updatedAt, m.binding.value.acknowledgedAt)
                            || m.binding.value.acknowledgedAt != t.selection.acknowledgedAt))
    || (m.limits.Some? && (Less(m.limits.value.verifiedAt, t.createdAt) || Less(t.updatedAt, m.limits.value.verifiedAt)))
  }

  /** `parseEnvironmentModelProviderConnectionRecord`. */
  function ParseEnvironment(env: Platform, ms: seq<Member>): Option<Record> {
    if !Clean(env, JObject(ms)) || !ExactKeys(ms, ENVIRONMENT_NAMES, MODEL_OPTIONAL)
      || Field(ms, "kind") != Some(JString(A(ENVIRONMENT_KIND))) then None else
    var id, model, terms := TextField(env, ms, "id", IDENTIFIER), ParseModel(env, ms), ParseTerms(env, ms, "configuredAt");
    if id.None? || model.None? || terms.None? || MisdatedModel(model.value, terms.value) then None
    else Some(Environment(id.value, model.value, terms.value))
  }

  /** `parseConnection`. */
  function ParseRecord(env: Platform, v: Json): Option<Record> {
    if !v.JObject? then None
    else if Field(v.members, "kind") == Some(JString(A(LOCAL_KIND))) then ParseLocal(env, v.members)
    else if Field(v.members, "kind") == Some(JString(A(DELEGATED_KIND))) then ParseDelegated(env, v.members)
    else if Field(v.members, "kind") == Some(JString(A(ENVIRONMENT_KIND))) then ParseEnvironment(env, v.members)
    else None
  }

  lemma DelegatedExact(env: Platform, ms: seq<Member>, id: Text, agent: Agent, terms: Terms)
    ensures ParseDelegated(env, ms) == Some(Delegated(id, agent, terms))
      <==> RecordOk(env, Delegated(id, agent, terms)) && IsDelegated(ms, id, agent, terms)
  {
    hide TextOk, ExactKeys, Field, DELEGATED_NAMES, AGENT_OPTIONAL, DELEGATED_KIND, ParseAgent, ParseTerms, AgentOk, IsAgent,
      TermsOk, AreTerms;
    TermsExact(env, ms, terms, "verifiedAt");
    if ParseAgent(env, ms) == Some(agent) {
      ParsedAgent(env, ms, agent);
    }
    if AgentOk(env, agent) && IsAgent(ms, agent) {
      AgentParses(env, ms, agent);
    }
  }

  lemma EnvironmentDatesExact(env: Platform, m: Model, t: Terms)
    requires TermsOk(env, t)
    ensures MisdatedModel(m, t) <==> !EnvironmentDatesOk(m, t)
  {
    hide PolicyOk, SelectionOk, TimeOk, Less;
  }

  lemma EnvironmentExact(env: Platform, ms: seq<Member>, id: Text, model: Model, terms: Terms)
    requires Clean(env, JObject(ms))
    ensures ParseEnvironment(env, ms) == Some(Environment(id, model, terms))
      <==> RecordOk(env, Environment(id, model, terms)) && IsEnvironment(ms, id, model, terms)
  {
    hide TextOk, ExactKeys, Field, ENVIRONMENT_NAMES, MODEL_OPTIONAL, ENVIRONMENT_KIND, ParseModel, ParseTerms, ModelOk, IsModel,
      TermsOk, AreTerms, MisdatedModel, EnvironmentDatesOk, Clean;
    TermsExact(env, ms, terms, "configuredAt");
    if TermsOk(env, terms) {
      EnvironmentDatesExact(env, model, terms);
    }
    if ParseModel(env, ms) == Some(model) {
      ParsedModel(env, ms, model);
    }
    if ModelOk(env, model) && IsModel(ms, model) {
      ModelParses(env, ms, model);
    }
  }

  lemma KindsDiffer()
    ensures A(LOCAL_KIND) != A(DELEGATED_KIND) && A(LOCAL_KIND) != A(ENVIRONMENT_KIND) && A(DELEGATED_KIND) != A(ENVIRONMENT_KIND)
  {
  }

  /** The parser accepts exactly the objects with the members of a valid record, and reads that record. */
  lemma RecordExact(env: Platform, v: Json, r: Record)
    requires Clean(env, v)
    ensures ParseRecord(env, v) == Some(r) <==> RecordOk(env, r) && IsRecord(v, r)
  {
    hide TextOk, ExactKeys, Field, LOCAL_KIND, DELEGATED_KIND, ENVIRONMENT_KIND, LocalOk, AgentOk, ModelOk, TermsOk,
      ParseTerms, ParseModel, ParseAgent, IsAgent, IsModel, AreTerms, EnvironmentDatesOk, Clean, TextField, TimeField,
      LOCAL_NAMES, DELEGATED_NAMES, ENVIRONMENT_NAMES;
    KindsDiffer();
    if v.JObject? {
      match r
      case Local(_, _, _, _, _, _) => LocalExact(env, v.members, r);
      case Delegated(id, agent, terms) => DelegatedExact(env, v.members, id, agent, terms);
      case Environment(id, model, terms) => EnvironmentExact(env, v.members, id, model, terms);
    }
  }

  lemma RecordNamesOk()
    ensures Different(LOCAL_NAMES) && Different(DELEGATED_NAMES) && Different(ENVIRONMENT_NAMES)
  {
  }

  lemma DelegatedOptional(id: Text, agent: Agent, terms: Terms)
    ensures OnlyOptional(DELEGATED_NAMES, RecordValues(Delegated(id, agent, terms)), AGENT_OPTIONAL)
  {
    hide PolicyJson, SelectionJson, OptionalEffort, OrNull;
  }

  lemma EnvironmentOptional(id: Text, model: Model, terms: Terms)
    ensures OnlyOptional(ENVIRONMENT_NAMES, RecordValues(Environment(id, model, terms)), MODEL_OPTIONAL)
  {
    hide PolicyJson, SelectionJson, Adapter.Json;
  }

  lemma HeadPrints(ms: seq<Member>, kind: string, id: Text)
    requires |HEAD_NAMES| == |HeadValues(kind, id)| && Agree(ms, HEAD_NAMES, HeadValues(kind, id))
    ensures IsHead(ms, kind, id)
  {
    hide Field;
    assert Field(ms, HEAD_NAMES[0]) == HeadValues(kind, id)[0] && Field(ms, HEAD_NAMES[1]) == HeadValues(kind, id)[1];
  }

  lemma DelegatedPrints(env: Platform, id: Text, agent: Agent, terms: Terms)
    requires RecordOk(env, Delegated(id, agent, terms))
    ensures IsRecord(RecordJson(Delegated(id, agent, terms)), Delegated(id, agent, terms))
  {
    hide Object, Field, ExactKeys, AGENT_OPTIONAL, AgentOk, TermsOk, IsAgent, AreTerms, Agree, OnlyOptional, Different,
      AgentValues, TermsValues, HeadValues, AGENT_NAMES, DELEGATED_TERMS, HEAD_NAMES, DELEGATED_KIND, IsHead;
    var r := Delegated(id, agent, terms);
    var ms := Object(DELEGATED_NAMES, RecordValues(r));
    var head, values := HeadValues(DELEGATED_KIND, id), AgentValues(agent);
    RecordNamesOk();
    SectionLengths(id, DELEGATED_KIND, terms);
    AgentLength(agent);
    DelegatedOptional(id, agent, terms);
    ObjectExact(DELEGATED_NAMES, RecordValues(r), AGENT_OPTIONAL);
    AgreeConcat(ms, HEAD_NAMES + AGENT_NAMES, head + values, DELEGATED_TERMS, TermsValues(terms));
    AgreeConcat(ms, HEAD_NAMES, head, AGENT_NAMES, values);
    HeadPrints(ms, DELEGATED_KIND, id);
    AgentAgrees(ms, agent);
    TermsPrint(env, ms, terms, DELEGATED_TERMS);
  }

  lemma EnvironmentPrints(env: Platform, id: Text, model: Model, terms: Terms)
    requires RecordOk(env, Environment(id, model, terms))
    ensures IsRecord(RecordJson(Environment(id, model, terms)), Environment(id, model, terms))
  {
    hide Object, Field, ExactKeys, MODEL_OPTIONAL, ModelOk, TermsOk, IsModel, AreTerms, Agree, OnlyOptional, Different,
      ModelValues, TermsValues, HeadValues, MODEL_NAMES, ENVIRONMENT_TERMS, HEAD_NAMES, ENVIRONMENT_KIND, IsHead, EnvironmentDatesOk;
    var r := Environment(id, model, terms);
    var ms := Object(ENVIRONMENT_NAMES, RecordValues(r));
    var head, values := HeadValues(ENVIRONMENT_KIND, id), ModelValues(model);
    RecordNamesOk();
    SectionLengths(id, ENVIRONMENT_KIND, terms);
    ModelLength(model);
    EnvironmentOptional(id, model, terms);
    ObjectExact(ENVIRONMENT_NAMES, RecordValues(r), MODEL_OPTIONAL);
    AgreeConcat(ms, HEAD_NAMES + MODEL_NAMES, head + values, ENVIRONMENT_TERMS, TermsValues(terms));
    AgreeConcat(ms, HEAD_NAMES, head, MODEL_NAMES, values);
    HeadPrints(ms, ENVIRONMENT_KIND, id);
    ModelPrints(ms, model);
    TermsPrint(env, ms, terms, ENVIRONMENT_TERMS);
  }

  lemma RecordPrints(env: Platform, r: Record)
    requires RecordOk(env, r)
    ensures IsRecord(RecordJson(r), r)
  {
    hide RecordOk, RecordJson, IsRecord;
    match r
    case Local(_, _, _, _, _, _) => LocalRecordPrints(r);
    case Delegated(id, agent, terms) => DelegatedPrints(env, id, agent, terms);
    case Environment(id, model, terms) => EnvironmentPrints(env, id, model, terms);
  }

  lemma LocalRecordPrints(r: Record)
    requires r.Local?
    ensures IsRecord(RecordJson(r), r)
  {
    hide LocalValues, LOCAL_NAMES, Object, IsLocal;
    LocalPrints(r);
  }

  lemma SectionLengths(id: Text, kind: string, terms: Terms)
    ensures |HeadValues(kind, id)| == |HEAD_NAMES|
    ensures |TermsValues(terms)| == |DELEGATED_TERMS| == |ENVIRONMENT_TERMS|
    ensures DELEGATED_TERMS[2] == "verifiedAt" && ENVIRONMENT_TERMS[2] == "configuredAt"
  {
  }

  lemma AgentLength(agent: Agent)
    ensures |AgentValues(agent)| == |AGENT_NAMES|
  {
  }

  lemma ModelLength(model: Model)
    ensures |ModelValues(model)| == |MODEL_NAMES|
  {
  }

  lemma HeadClean(env: Platform, ms: seq<Member>, kind: string, id: Text)
    requires Clean(env, JObject(ms)) && IsHead(ms, kind, id) && |HEAD_NAMES| == |HeadValues(kind, id)|
    ensures CleanMembers(env, HEAD_NAMES, HeadValues(kind, id))
  {
    hide Field, Clean;
    AgreeClean(env, ms, HEAD_NAMES, HeadValues(kind, id));
  }

  lemma CleanConcat(env: Platform, n1: seq<string>, v1: seq<Option<Json>>, n2: seq<string>, v2: seq<Option<Json>>)
    requires |n1| == |v1| && |n2| == |v2| && CleanMembers(env, n1, v1) && CleanMembers(env, n2, v2)
    ensures CleanMembers(env, n1 + n2, v1 + v2)
  {
  }

  lemma DelegatedClean(env: Platform, ms: seq<Member>, id: Text, agent: Agent, terms: Terms)
    requires IsDelegated(ms, id, agent, terms) && Clean(env, JObject(ms))
    ensures Clean(env, RecordJson(Delegated(id, agent, terms)))
  {
    hide Object, Field, ExactKeys, AGENT_OPTIONAL, IsAgent, AreTerms, CleanMembers, AgentValues, TermsValues, HeadValues,
      AGENT_NAMES, DELEGATED_TERMS, HEAD_NAMES, DELEGATED_KIND, IsHead, Agree;
    var head, values := HeadValues(DELEGATED_KIND, id), AgentValues(agent);
    SectionLengths(id, DELEGATED_KIND, terms);
    AgentLength(agent);
    HeadClean(env, ms, DELEGATED_KIND, id);
    AgentAgrees(ms, agent);
    AgreeClean(env, ms, AGENT_NAMES, values);
    TermsClean(env, ms, terms, DELEGATED_TERMS);
    CleanConcat(env, HEAD_NAMES, head, AGENT_NAMES, values);
    CleanConcat(env, HEAD_NAMES + AGENT_NAMES, head + values, DELEGATED_TERMS, TermsValues(terms));
    ObjectClean(env, DELEGATED_NAMES, RecordValues(Delegated(id, agent, terms)));
  }

  lemma EnvironmentClean(env: Platform, ms: seq<Member>, id: Text, model: Model, terms: Terms)
    requires IsEnvironment(ms, id, model, terms) && Clean(env, JObject(ms))
    ensures Clean(env, RecordJson(Environment(id, model, terms)))
  {
    hide Object, Field, ExactKeys, MODEL_OPTIONAL, IsModel, AreTerms, CleanMembers, ModelValues, TermsValues, HeadValues,
      MODEL_NAMES, ENVIRONMENT_TERMS, HEAD_NAMES, ENVIRONMENT_KIND, IsHead, Agree;
    var head, values := HeadValues(ENVIRONMENT_KIND, id), ModelValues(model);
    SectionLengths(id, ENVIRONMENT_KIND, terms);
    ModelLength(model);
    HeadClean(env, ms, ENVIRONMENT_KIND, id);
    ModelClean(env, ms, model);
    TermsClean(env, ms, terms, ENVIRONMENT_TERMS);
    CleanConcat(env, HEAD_NAMES, head, MODEL_NAMES, values);
    CleanConcat(env, HEAD_NAMES + MODEL_NAMES, head + values, ENVIRONMENT_TERMS, TermsValues(terms));
    ObjectClean(env, ENVIRONMENT_NAMES, RecordValues(Environment(id, model, terms)));
  }

  /** The record read from an object that holds no secret is written without secrets. */
  lemma RecordClean(env: Platform, v: Json, r: Record)
    requires IsRecord(v, r) && Clean(env, v)
    ensures Clean(env, RecordJson(r))
  {
    hide RecordJson, IsLocal, IsDelegated, IsEnvironment, Clean;
    match r
    case Local(_, _, _, _, _, _) => LocalRecordClean(env, v.members, r);
    case Delegated(id, agent, terms) => DelegatedClean(env, v.members, id, agent, terms);
    case Environment(id, model, terms) => EnvironmentClean(env, v.members, id, model, terms);
  }

  lemma LocalRecordClean(env: Platform, ms: seq<Member>, r: Record)
    requires r.Local? && IsLocal(ms, r) && Clean(env, JObject(ms))
    ensures Clean(env, RecordJson(r))
  {
    hide LocalValues, LOCAL_NAMES, Object, IsLocal, Clean;
    LocalClean(env, ms, r);
  }

  lemma AllFitConcat(a: seq<Option<Json>>, b: seq<Option<Json>>, limit: nat)
    requires AllFit(a, limit) && AllFit(b, limit)
    ensures AllFit(a + b, limit)
  {
  }

  lemma HeadFits(env: Platform, kind: string, id: Text)
    requires TextOk(env, id, IDENTIFIER)
    ensures AllFit(HeadValues(kind, id), 4)
  {
  }

  lemma DelegatedFits(env: Platform, id: Text, agent: Agent, terms: Terms)
    requires RecordOk(env, Delegated(id, agent, terms))
    ensures Fits(RecordJson(Delegated(id, agent, terms)), 5)
  {
    hide Object, AgentOk, TermsOk, AllFit, AgentValues, TermsValues, HeadValues, AGENT_NAMES, DELEGATED_TERMS, HEAD_NAMES,
      DELEGATED_KIND, TextOk, Different;
    RecordNamesOk();
    HeadFits(env, DELEGATED_KIND, id);
    AgentFits(env, agent);
    TermsFit(env, terms);
    AllFitConcat(HeadValues(DELEGATED_KIND, id), AgentValues(agent), 4);
    AllFitConcat(HeadValues(DELEGATED_KIND, id) + AgentValues(agent), TermsValues(terms), 4);
    ObjectFits(DELEGATED_NAMES, RecordValues(Delegated(id, agent, terms)), 4);
  }

  lemma EnvironmentFits(env: Platform, id: Text, model: Model, terms: Terms)
    requires RecordOk(env, Environment(id, model, terms))
    ensures Fits(RecordJson(Environment(id, model, terms)), 5)
  {
    hide Object, ModelOk, TermsOk, AllFit, ModelValues, TermsValues, HeadValues, MODEL_NAMES, ENVIRONMENT_TERMS, HEAD_NAMES,
      ENVIRONMENT_KIND, TextOk, Different, EnvironmentDatesOk;
    RecordNamesOk();
    HeadFits(env, ENVIRONMENT_KIND, id);
    ModelFits(env, model);
    TermsFit(env, terms);
    AllFitConcat(HeadValues(ENVIRONMENT_KIND, id), ModelValues(model), 4);
    AllFitConcat(HeadValues(ENVIRONMENT_KIND, id) + ModelValues(model), TermsValues(terms), 4);
    ObjectFits(ENVIRONMENT_NAMES, RecordValues(Environment(id, model, terms)), 4);
  }

  lemma RecordFits(env: Platform, r: Record)
    requires RecordOk(env, r)
    ensures Fits(RecordJson(r), 5)
  {
    hide RecordOk, RecordJson, Fits;
    match r
    case Local(_, _, _, _, _, _) => LocalRecordFits(env, r);
    case Delegated(id, agent, terms) => DelegatedFits(env, id, agent, terms);
    case Environment(id, model, terms) => EnvironmentFits(env, id, model, terms);
  }

  lemma LocalRecordFits(env: Platform, r: Record)
    requires r.Local? && RecordOk(env, r)
    ensures Fits(RecordJson(r), 5)
  {
    hide LocalValues, LOCAL_NAMES, Object, LocalOk, Fits;
    LocalFits(env, r);
    FitsDeeper(RecordJson(r), 2, 5);
  }
}
