/**
 The billing policy of a connection and the selection the user made under it: who may be
 charged, in which order, and who decides.  A selection is read under the policy of the
 same record; its sources may come in any order and are returned in the order of the
 policy.
 */
module Billing {
  import opened Options
  import opened Texts
  import opened JsonGrammar
  import opened JsonText
  import opened Objects
  import opened Platform

  datatype Source = MeteredApi | IncludedSubscription | PrepaidCredits | CloudAccount | LocalCompute {
    function Word(): string {
      match this
      case MeteredApi => "metered_api"
      case IncludedSubscription => "included_subscription"
      case PrepaidCredits => "prepaid_credits"
      case CloudAccount => "cloud_account"
      case LocalCompute => "local_compute"
    }

    function Json(): Json { JString(A(Word())) }
  }

  datatype Mode = ProviderDefault | StrictPrimaryOnly | AllowDeclaredAdditional {
    function Word(): string {
      match this
      case ProviderDefault => "provider_default"
      case StrictPrimaryOnly => "strict_primary_only"
      case AllowDeclaredAdditional => "allow_declared_additional"
    }

    function Json(): Json { JString(A(Word())) }
  }

  datatype Fallback = NoFallback | UserConfigured | Automatic | Unknown {
    function Word(): string {
      match this
      case NoFallback => "none"
      case UserConfigured => "user_configured"
      case Automatic => "automatic"
      case Unknown => "unknown"
    }

    function Json(): Json { JString(A(Word())) }
  }

  datatype Policy = Policy(
    revision: Text,
    disclosureRevision: Text,
    primary: Source,
    additional: seq<Source>,
    fallback: Fallback,
    selections: seq<Mode>)

  datatype Selection = Selection(
    mode: Mode,
    policyRevision: Text,
    disclosureRevision: Text,
    allowed: seq<Source>,
    acknowledgedAt: Text)

  // ---- words

  function ReadSource(v: Json): (r: Option<Source>)
    ensures forall s: Source :: r == Some(s) <==> v == s.Json()
  {
    LiteralsDiffer(CloudAccount.Word(), LocalCompute.Word());
    if v == MeteredApi.Json() then Some(MeteredApi)
    else if v == IncludedSubscription.Json() then Some(IncludedSubscription)
    else if v == PrepaidCredits.Json() then Some(PrepaidCredits)
    else if v == CloudAccount.Json() then Some(CloudAccount)
    else if v == LocalCompute.Json() then Some(LocalCompute)
    else None
  }

  function ReadMode(v: Json): (r: Option<Mode>)
    ensures forall m: Mode :: r == Some(m) <==> v == m.Json()
  {
    if v == ProviderDefault.Json() then Some(ProviderDefault)
    else if v == StrictPrimaryOnly.Json() then Some(StrictPrimaryOnly)
    else if v == AllowDeclaredAdditional.Json() then Some(AllowDeclaredAdditional)
    else None
  }

  function ReadFallback(v: Json): (r: Option<Fallback>)
    ensures forall f: Fallback :: r == Some(f) <==> v == f.Json()
  {
    if v == NoFallback.Json() then Some(NoFallback)
    else if v == UserConfigured.Json() then Some(UserConfigured)
    else if v == Automatic.Json() then Some(Automatic)
    else if v == Unknown.Json() then Some(Unknown)
    else None
  }

  function SourceField(ms: seq<Member>, name: string): (r: Option<Source>)
    ensures r.Some? ==> Field(ms, name) == Some(r.value.Json())
  {
    var v :- Field(ms, name);
    ReadSource(v)
  }

  function ModeField(ms: seq<Member>, name: string): (r: Option<Mode>)
    ensures r.Some? ==> Field(ms, name) == Some(r.value.Json())
  {
    var v :- Field(ms, name);
    ReadMode(v)
  }

  function FallbackField(ms: seq<Member>, name: string): (r: Option<Fallback>)
    ensures r.Some? ==> Field(ms, name) == Some(r.value.Json())
  {
    var v :- Field(ms, name);
    ReadFallback(v)
  }

  // ---- arrays of words

  predicate Unique<T(==)>(s: seq<T>) { forall j, k :: 0 <= j < k < |s| ==> s[j] != s[k] }

  /** The items of an array read one by one, none of them twice: `uniqueEnumArray`. */
  function UniqueWords<T(==)>(items: seq<Json>, read: Json -> Option<T>): (r: Option<seq<T>>)
    ensures r.Some? ==> |r.value| == |items| && Unique(r.value)
    ensures r.Some? ==> forall k :: 0 <= k < |items| ==> read(items[k]) == Some(r.value[k])
  {
    if items == [] then Some([]) else
    var n := |items| - 1;
    var front :- UniqueWords(items[..n], read);
    var last :- read(items[n]);
    if last in front then None else Some(front + [last])
  }

  lemma {:induction false} UniqueWordsComplete<T>(items: seq<Json>, read: Json -> Option<T>, words: seq<T>)
    requires |words| == |items| && Unique(words)
    requires forall k :: 0 <= k < |items| ==> read(items[k]) == Some(words[k])
    ensures UniqueWords(items, read) == Some(words)
  {
    if items != [] {
      var n := |items| - 1;
      UniqueWordsComplete(items[..n], read, words[..n]);
      assert words == words[..n] + [words[n]];
    }
  }

  /** The loop of `uniqueEnumArray`, which stops at the first entry that is unknown or already seen. */
  method ReadUniqueWords<T(==)>(items: seq<Json>, read: Json -> Option<T>) returns (r: Option<seq<T>>)
    ensures r == UniqueWords(items, read)
  {
    var result: seq<T>, seen: set<T> := [], {};
    for i := 0 to |items|
      invariant UniqueWords(items[..i], read) == Some(result)
      invariant forall t :: t in seen <==> t in result
    {
      assert items[..i + 1][..i] == items[..i];
      var entry := read(items[i]);
      if entry.None? || entry.value in seen {
        PrefixRejected(items, read, i + 1);
        return None;
      }
      seen, result := seen + {entry.value}, result + [entry.value];
    }
    assert items[..|items|] == items;
    return Some(result);
  }

  lemma {:induction false} PrefixRejected<T>(items: seq<Json>, read: Json -> Option<T>, n: nat)
    requires n <= |items| && UniqueWords(items[..n], read).None?
    ensures UniqueWords(items, read).None?
    decreases |items|
  {
    if n == |items| {
      assert items[..n] == items;
    } else {
      assert items[..|items| - 1][..n] == items[..n];
      PrefixRejected(items[..|items| - 1], read, n);
    }
  }

  function WordsField<T(==)>(ms: seq<Member>, name: string, maximum: nat, read: Json -> Option<T>): (r: Option<seq<T>>)
    ensures r.Some? ==> Field(ms, name).Some? && Lists(Field(ms, name).value, r.value, read) && |r.value| <= maximum
  {
    var v :- Field(ms, name);
    if !v.JArray? || |v.items| > maximum then None else UniqueWords(v.items, read)
  }

  /** `v` is an array that reads as `words`, without repetition. */
  predicate Lists<T(==)>(v: Json, words: seq<T>, read: Json -> Option<T>) {
    && v.JArray? && |v.items| == |words| && Unique(words)
    && forall k :: 0 <= k < |words| ==> read(v.items[k]) == Some(words[k])
  }

  lemma WordsFieldComplete<T>(ms: seq<Member>, name: string, maximum: nat, read: Json -> Option<T>, words: seq<T>)
    requires Field(ms, name).Some? && Lists(Field(ms, name).value, words, read) && |words| <= maximum
    ensures WordsField(ms, name, maximum, read) == Some(words)
  {
    UniqueWordsComplete(Field(ms, name).value.items, read, words);
  }

  function SourcesJson(sources: seq<Source>): Json { JArray(seq(|sources|, i requires 0 <= i < |sources| => sources[i].Json())) }

  function ModesJson(modes: seq<Mode>): Json { JArray(seq(|modes|, i requires 0 <= i < |modes| => modes[i].Json())) }

  // ---- policies

  const SOURCES := 5
  const MODES := 3

  const POLICY_NAMES: seq<string> :=
    ["revision", "disclosureRevision", "primarySource", "possibleAdditionalSources", "providerFallback", "availableSelections"]

  function PolicyValues(p: Policy): seq<Option<Json>> {
    [Some(JString(p.revision)), Some(JString(p.disclosureRevision)), Some(p.primary.Json()),
     Some(SourcesJson(p.additional)), Some(p.fallback.Json()), Some(ModesJson(p.selections))]
  }

  function PolicyJson(p: Policy): Json { JObject(Object(POLICY_NAMES, PolicyValues(p))) }

  /** `v` is an object with exactly the members of the policy. */
  predicate IsPolicy(v: Json, p: Policy) {
    && v.JObject? && ExactKeys(v.members, POLICY_NAMES, {})
    && Field(v.members, "revision") == Some(JString(p.revision))
    && Field(v.members, "disclosureRevision") == Some(JString(p.disclosureRevision))
    && Field(v.members, "primarySource") == Some(p.primary.Json())
    && Field(v.members, "possibleAdditionalSources") == Some(SourcesJson(p.additional))
    && Field(v.members, "providerFallback") == Some(p.fallback.Json())
    && Field(v.members, "availableSelections") == Some(ModesJson(p.selections))
  }

  /** A policy that makes sense: who pays besides the primary source agrees with the fallback and the choices on offer. */
  predicate PolicyOk(env: Platform, p: Policy) {
    && TextOk(env, p.revision, LABEL) && TextOk(env, p.disclosureRevision, LABEL)
    && Unique(p.additional) && |p.additional| <= SOURCES && p.primary !in p.additional
    && Unique(p.selections) && 0 < |p.selections| <= MODES
    && p.fallback != Unknown
    && (p.fallback == NoFallback <==> p.additional == [])
    && (AllowDeclaredAdditional in p.selections <==> p.additional != [])
    && (p.fallback == Automatic ==> StrictPrimaryOnly !in p.selections)
    && (ProviderDefault in p.selections ==> p.fallback == Automatic)
  }

  /** The combinations that `parseBillingPolicy` rejects, test by test. */
  predicate Inconsistent(fallback: Fallback, additional: seq<Source>, selections: seq<Mode>) {
    || fallback == Unknown
    || (fallback == Automatic && StrictPrimaryOnly in selections)
    || (fallback == NoFallback && |additional| > 0)
    || ((fallback == UserConfigured || fallback == Automatic) && |additional| == 0)
    || (|additional| > 0 && AllowDeclaredAdditional !in selections)
    || (|additional| == 0 && AllowDeclaredAdditional in selections)
    || (ProviderDefault in selections && fallback != Automatic)
  }

  function ParsePolicy(env: Platform, v: Json): Option<Policy>
  {
    if !v.JObject? || !ExactKeys(v.members, POLICY_NAMES, {}) then None else
    var ms := v.members;
    var primary, fallback := SourceField(ms, "primarySource"), FallbackField(ms, "providerFallback");
    var additional := WordsField(ms, "possibleAdditionalSources", SOURCES, ReadSource);
    var selections := WordsField(ms, "availableSelections", MODES, ReadMode);
    if primary.None? || fallback.None? || additional.None? || selections.None? then None
    else if primary.value in additional.value || |selections.value| == 0 then None
    else if Inconsistent(fallback.value, additional.value, selections.value) then None else
    var revision, disclosure := TextField(env, ms, "revision", LABEL), TextField(env, ms, "disclosureRevision", LABEL);
    if revision.None? || disclosure.None? then None
    else Some(Policy(revision.value, disclosure.value, primary.value, additional.value, fallback.value, selections.value))
  }

  lemma SourcesListed(v: Json, sources: seq<Source>)
    ensures Lists(v, sources, ReadSource) <==> Unique(sources) && v == SourcesJson(sources)
  {
    hide ReadSource, Unique;
    if Lists(v, sources, ReadSource) {
      assert v.items == SourcesJson(sources).items;
    }
  }

  lemma ModesListed(v: Json, modes: seq<Mode>)
    ensures Lists(v, modes, ReadMode) <==> Unique(modes) && v == ModesJson(modes)
  {
    hide ReadMode, Unique;
    if Lists(v, modes, ReadMode) {
      assert v.items == ModesJson(modes).items;
    }
  }

  /** The parser accepts exactly the objects with the members of a policy that makes sense, and reads that policy. */
  lemma PolicyExact(env: Platform, v: Json, p: Policy)
    ensures ParsePolicy(env, v) == Some(p) <==> PolicyOk(env, p) && IsPolicy(v, p)
  {
    hide POLICY_NAMES, Source.Json, Mode.Json, Fallback.Json, ExactKeys, Field, TextOk, ReadSource, ReadMode, ReadFallback, Lists, Unique, SourcesJson, ModesJson;
    if ParsePolicy(env, v) == Some(p) {
      ParsedPolicy(env, v, p);
    }
    if PolicyOk(env, p) && IsPolicy(v, p) {
      PolicyParses(env, v, p);
    }
  }

  lemma ParsedPolicy(env: Platform, v: Json, p: Policy)
    requires ParsePolicy(env, v) == Some(p)
    ensures PolicyOk(env, p) && IsPolicy(v, p)
  {
    hide POLICY_NAMES, Source.Json, Mode.Json, Fallback.Json, ExactKeys, Field, TextOk, ReadSource, ReadMode, ReadFallback, Lists, Unique, SourcesJson, ModesJson, UniqueWords;
    SourcesListed(Field(v.members, "possibleAdditionalSources").value, p.additional);
    ModesListed(Field(v.members, "availableSelections").value, p.selections);
  }

  lemma PolicyParses(env: Platform, v: Json, p: Policy)
    requires PolicyOk(env, p) && IsPolicy(v, p)
    ensures ParsePolicy(env, v) == Some(p)
  {
    hide POLICY_NAMES, Source.Json, Mode.Json, Fallback.Json, ExactKeys, Field, TextOk, ReadSource, ReadMode, ReadFallback, Lists, Unique, SourcesJson, ModesJson, UniqueWords, WordsField;
    var ms := v.members;
    SourcesListed(SourcesJson(p.additional), p.additional);
    ModesListed(ModesJson(p.selections), p.selections);
    WordsFieldComplete(ms, "possibleAdditionalSources", SOURCES, ReadSource, p.additional);
    WordsFieldComplete(ms, "availableSelections", MODES, ReadMode, p.selections);
  }

  lemma PolicyPrints(p: Policy)
    ensures IsPolicy(PolicyJson(p), p)
  {
    hide Object, Field, ExactKeys, Source.Json, Mode.Json, Fallback.Json, SourcesJson, ModesJson;
    var ms, values := Object(POLICY_NAMES, PolicyValues(p)), PolicyValues(p);
    ObjectExact(POLICY_NAMES, values, {});
    assert Field(ms, POLICY_NAMES[0]) == values[0] && Field(ms, POLICY_NAMES[1]) == values[1];
    assert Field(ms, POLICY_NAMES[2]) == values[2] && Field(ms, POLICY_NAMES[3]) == values[3];
    assert Field(ms, POLICY_NAMES[4]) == values[4] && Field(ms, POLICY_NAMES[5]) == values[5];
  }

  /** From an accepted presentation to the canonical one: still free of secrets, and printable. */
  lemma PolicyClean(env: Platform, v: Json, p: Policy)
    requires IsPolicy(v, p) && Clean(env, v)
    ensures Clean(env, PolicyJson(p))
  {
    hide Object, Field, ExactKeys, Clean, Source.Json, Mode.Json, Fallback.Json, SourcesJson, ModesJson;
    AgreeClean(env, v.members, POLICY_NAMES, PolicyValues(p));
    ObjectClean(env, POLICY_NAMES, PolicyValues(p));
  }

  lemma WordsFit(words: seq<Json>, limit: nat)
    requires limit > 0 && forall k :: 0 <= k < |words| ==> words[k].JString? && IsText(words[k].text)
    ensures Fits(JArray(words), limit + 1)
  {
    ArrayFits(words, limit);
  }

  lemma PolicyFits(env: Platform, p: Policy)
    requires PolicyOk(env, p)
    ensures Fits(PolicyJson(p), 3)
  {
    hide Object, Fits, Source.Json, Mode.Json, Fallback.Json, SourcesJson, ModesJson, TextOk;
    var values := PolicyValues(p);
    PolicyNamesOk();
    PolicyTextsFit(env, p);
    assert OptionFits(values[0], 2) && OptionFits(values[1], 2) && OptionFits(values[2], 2);
    assert OptionFits(values[3], 2) && OptionFits(values[4], 2) && OptionFits(values[5], 2);
    ObjectFits(POLICY_NAMES, values, 2);
  }

  lemma PolicyNamesOk()
    ensures Different(POLICY_NAMES)
  {
  }

  lemma PolicyTextsFit(env: Platform, p: Policy)
    requires PolicyOk(env, p)
    ensures Fits(JString(p.revision), 2) && Fits(JString(p.disclosureRevision), 2)
    ensures Fits(p.primary.Json(), 2) && Fits(p.fallback.Json(), 2)
    ensures Fits(SourcesJson(p.additional), 2) && Fits(ModesJson(p.selections), 2)
  {
    WordsFit(SourcesJson(p.additional).items, 1);
    WordsFit(ModesJson(p.selections).items, 1);
  }

  // ---- selections

  const SELECTION_NAMES: seq<string> := ["mode", "policyRevision", "disclosureRevision", "allowedSources", "acknowledgedAt"]

  function SelectionValues(s: Selection): seq<Option<Json>> {
    [Some(s.mode.Json()), Some(JString(s.policyRevision)), Some(JString(s.disclosureRevision)),
     Some(SourcesJson(s.allowed)), Some(JString(s.acknowledgedAt))]
  }

  function SelectionJson(s: Selection): Json { JObject(Object(SELECTION_NAMES, SelectionValues(s))) }

  /** The sources that a choice lets the provider charge, primary first, in the order of the policy. */
  function Chargeable(p: Policy, mode: Mode): seq<Source> {
    if mode.StrictPrimaryOnly? then [p.primary] else [p.primary] + p.additional
  }

  predicate SelectionOk(env: Platform, s: Selection, p: Policy) {
    && s.policyRevision == p.revision && s.disclosureRevision == p.disclosureRevision
    && s.mode in p.selections && s.allowed == Chargeable(p, s.mode) && TimeOk(env, s.acknowledgedAt)
  }

  /** `v` is an object with exactly the members of the selection; its allowed sources may stand in any order. */
  ghost predicate IsSelection(v: Json, s: Selection) {
    && v.JObject? && ExactKeys(v.members, SELECTION_NAMES, {})
    && Field(v.members, "mode") == Some(s.mode.Json())
    && Field(v.members, "policyRevision") == Some(JString(s.policyRevision))
    && Field(v.members, "disclosureRevision") == Some(JString(s.disclosureRevision))
    && Field(v.members, "acknowledgedAt") == Some(JString(s.acknowledgedAt))
    && Field(v.members, "allowedSources").Some? && ListsInAnyOrder(Field(v.members, "allowedSources").value, s.allowed)
  }

  ghost predicate ListsInAnyOrder(v: Json, sources: seq<Source>) {
    exists listed: seq<Source> :: Unique(listed) && v == SourcesJson(listed) && multiset(listed) == multiset(sources)
  }

  /** The tests of `parseBillingSelection` on the allowed sources. */
  predicate Acceptable(allowed: seq<Source>, p: Policy, mode: Mode) {
    var declared := [p.primary] + p.additional;
    var all := |allowed| == |declared| && forall s :: s in declared ==> s in allowed;
    && |allowed| > 0 && p.primary in allowed
    && (forall s :: s in allowed ==> s in declared)
    && (mode.StrictPrimaryOnly? ==> |allowed| == 1 && allowed[0] == p.primary)
    && (mode.AllowDeclaredAdditional? || mode.ProviderDefault? ==> all)
  }

  /** `parseBillingSelection`, for a policy that has been accepted. */
  function ParseSelection(env: Platform, v: Json, p: Policy): Option<Selection> {
    if !v.JObject? || !ExactKeys(v.members, SELECTION_NAMES, {}) then None else
    var ms := v.members;
    var mode := ModeField(ms, "mode");
    var revision, disclosure := TextField(env, ms, "policyRevision", LABEL), TextField(env, ms, "disclosureRevision", LABEL);
    if mode.None? || revision.None? || disclosure.None? then None
    else if revision.value != p.revision || disclosure.value != p.disclosureRevision || mode.value !in p.selections then None else
    var allowed := WordsField(ms, "allowedSources", SOURCES, ReadSource);
    if allowed.None? || !Acceptable(allowed.value, p, mode.value) then None else
    var acknowledgedAt := TimeField(env, ms, "acknowledgedAt");
    if acknowledgedAt.None? then None
    else Some(Selection(mode.value, revision.value, disclosure.value, Chargeable(p, mode.value), acknowledgedAt.value))
  }

  lemma {:induction false} UniqueMultiset<T>(s: seq<T>, x: T)
    requires Unique(s)
    ensures multiset(s)[x] == if x in s then 1 else 0
  {
    if s != [] {
      assert s == [s[0]] + s[1..];
      UniqueMultiset(s[1..], x);
    }
  }

  /** Two lists without repetition and with the same members are permutations, so equally long. */
  lemma SameMembers<T>(a: seq<T>, b: seq<T>)
    requires Unique(a) && Unique(b) && forall x :: x in a <==> x in b
    ensures multiset(a) == multiset(b) && |a| == |b|
  {
    forall x: T ensures multiset(a)[x] == multiset(b)[x] {
      UniqueMultiset(a, x);
      UniqueMultiset(b, x);
    }
    assert multiset(a) == multiset(b) && |multiset(a)| == |multiset(b)|;
  }

  /** The tests on the allowed sources accept exactly the permutations of what may be charged. */
  lemma AcceptableExact(env: Platform, allowed: seq<Source>, p: Policy, mode: Mode)
    requires Unique(allowed) && PolicyOk(env, p)
    ensures Acceptable(allowed, p, mode) <==> multiset(allowed) == multiset(Chargeable(p, mode))
  {
    var chargeable := Chargeable(p, mode);
    assert Unique(chargeable);
    if Acceptable(allowed, p, mode) {
      SameMembers(allowed, chargeable);
    }
    if multiset(allowed) == multiset(chargeable) {
      forall x ensures x in allowed <==> x in chargeable {
        assert x in allowed <==> x in multiset(allowed);
        assert x in chargeable <==> x in multiset(chargeable);
      }
      SameMembers(allowed, chargeable);
      assert p.primary in chargeable;
    }
  }

  /**
   Under an accepted policy the parser accepts exactly the objects with the members of a
   selection that the policy offers, and reads its allowed sources in the order of the policy.
   */
  lemma SelectionExact(env: Platform, v: Json, s: Selection, p: Policy)
    requires PolicyOk(env, p)
    ensures ParseSelection(env, v, p) == Some(s) <==> SelectionOk(env, s, p) && IsSelection(v, s)
  {
    hide PolicyOk, ParseSelection, SelectionOk, IsSelection;
    if ParseSelection(env, v, p) == Some(s) {
      ParsedSelection(env, v, s, p);
    }
    if SelectionOk(env, s, p) && IsSelection(v, s) {
      SelectionParses(env, v, s, p);
    }
  }

  lemma ParsedSelection(env: Platform, v: Json, s: Selection, p: Policy)
    requires PolicyOk(env, p) && ParseSelection(env, v, p) == Some(s)
    ensures SelectionOk(env, s, p) && IsSelection(v, s)
  {
    hide SELECTION_NAMES, Mode.Json, PolicyOk, ExactKeys, Field, TextOk, TimeOk, Acceptable, Unique, SourcesJson, Chargeable, ReadSource;
    var listed := WordsField(v.members, "allowedSources", SOURCES, ReadSource).value;
    AcceptableExact(env, listed, p, s.mode);
    SourcesListed(Field(v.members, "allowedSources").value, listed);
  }

  lemma SelectionParses(env: Platform, v: Json, s: Selection, p: Policy)
    requires PolicyOk(env, p) && SelectionOk(env, s, p) && IsSelection(v, s)
    ensures ParseSelection(env, v, p) == Some(s)
  {
    hide SELECTION_NAMES, Mode.Json, ExactKeys, Field, TextOk, Acceptable, Unique, SourcesJson, Chargeable, ReadSource,
      ReadMode, WordsField;
    var listed: seq<Source> :| Unique(listed) && Field(v.members, "allowedSources").value == SourcesJson(listed)
      && multiset(listed) == multiset(s.allowed);
    AcceptableExact(env, listed, p, s.mode);
    SourcesListed(SourcesJson(listed), listed);
    ChargeableLength(p, s.mode, listed);
    WordsFieldComplete(v.members, "allowedSources", SOURCES, ReadSource, listed);
  }

  lemma ChargeableLength(p: Policy, mode: Mode, listed: seq<Source>)
    requires multiset(listed) == multiset(Chargeable(p, mode)) && p.primary !in p.additional && Unique(p.additional)
    ensures |listed| <= SOURCES
  {
    assert |listed| == |multiset(listed)| == |Chargeable(p, mode)|;
    FewSources([p.primary] + p.additional);
  }

  /** There are only five sources, so a list without repetition has at most five. */
  lemma FewSources(sources: seq<Source>)
    requires Unique(sources)
    ensures |sources| <= SOURCES
  {
    var all := multiset{MeteredApi, IncludedSubscription, PrepaidCredits, CloudAccount, LocalCompute};
    forall s: Source ensures multiset(sources)[s] <= all[s] {
      UniqueMultiset(sources, s);
      assert s.MeteredApi? || s.IncludedSubscription? || s.PrepaidCredits? || s.CloudAccount? || s.LocalCompute?;
    }
    assert all == multiset(sources) + (all - multiset(sources));
    assert |all| == |multiset(sources)| + |all - multiset(sources)|;
  }

  lemma SelectionNamesOk()
    ensures Different(SELECTION_NAMES)
  {
  }

  lemma SelectionPrints(env: Platform, s: Selection, p: Policy)
    requires PolicyOk(env, p) && SelectionOk(env, s, p)
    ensures IsSelection(SelectionJson(s), s)
  {
    hide PolicyOk, Object, Field, ExactKeys, Mode.Json, SourcesJson, TextOk, TimeOk;
    var ms, values := Object(SELECTION_NAMES, SelectionValues(s)), SelectionValues(s);
    SelectionNamesOk();
    ObjectExact(SELECTION_NAMES, values, {});
    assert Field(ms, SELECTION_NAMES[0]) == values[0] && Field(ms, SELECTION_NAMES[1]) == values[1];
    assert Field(ms, SELECTION_NAMES[2]) == values[2] && Field(ms, SELECTION_NAMES[3]) == values[3];
    assert Field(ms, SELECTION_NAMES[4]) == values[4];
    assert Unique(s.allowed) by { ChargeableUnique(env, p, s.mode); }
  }

  lemma ChargeableUnique(env: Platform, p: Policy, mode: Mode)
    requires PolicyOk(env, p)
    ensures Unique(Chargeable(p, mode))
  {
  }

  lemma SelectionClean(env: Platform, v: Json, s: Selection)
    requires IsSelection(v, s) && Clean(env, v)
    ensures Clean(env, SelectionJson(s))
  {
    hide Object, Field, ExactKeys, Clean, Mode.Json, SourcesJson, ListsInAnyOrder;
    var ms, values := v.members, SelectionValues(s);
    AllowedClean(env, ms, s);
    FieldClean(env, ms, "mode");
    FieldClean(env, ms, "policyRevision");
    FieldClean(env, ms, "disclosureRevision");
    FieldClean(env, ms, "acknowledgedAt");
    ObjectClean(env, SELECTION_NAMES, values);
  }

  lemma AllowedClean(env: Platform, ms: seq<Member>, s: Selection)
    requires Clean(env, JObject(ms)) && Field(ms, "allowedSources").Some?
    requires ListsInAnyOrder(Field(ms, "allowedSources").value, s.allowed)
    ensures Clean(env, SourcesJson(s.allowed)) && !env.forbiddenKey(A("allowedSources"))
  {
    hide Field, Source.Json;
    FieldClean(env, ms, "allowedSources");
    var listed: seq<Source> :| Field(ms, "allowedSources").value == SourcesJson(listed) && multiset(listed) == multiset(s.allowed);
    forall k | 0 <= k < |s.allowed| ensures Clean(env, s.allowed[k].Json()) {
      assert s.allowed[k] in multiset(listed);
      var j :| 0 <= j < |listed| && listed[j] == s.allowed[k];
      assert Clean(env, SourcesJson(listed).items[j]);
    }
  }

  lemma SelectionFits(env: Platform, s: Selection, p: Policy)
    requires PolicyOk(env, p) && SelectionOk(env, s, p)
    ensures Fits(SelectionJson(s), 3)
  {
    hide Object, Fits, Mode.Json, SourcesJson, TextOk, TimeOk;
    var values := SelectionValues(s);
    SelectionNamesOk();
    SelectionTextsFit(env, s, p);
    assert OptionFits(values[0], 2) && OptionFits(values[1], 2) && OptionFits(values[2], 2);
    assert OptionFits(values[3], 2) && OptionFits(values[4], 2);
    ObjectFits(SELECTION_NAMES, values, 2);
  }

  lemma SelectionTextsFit(env: Platform, s: Selection, p: Policy)
    requires PolicyOk(env, p) && SelectionOk(env, s, p)
    ensures Fits(s.mode.Json(), 2) && Fits(JString(s.policyRevision), 2) && Fits(JString(s.disclosureRevision), 2)
    ensures Fits(SourcesJson(s.allowed), 2) && Fits(JString(s.acknowledgedAt), 2)
  {
    WordsFit(SourcesJson(s.allowed).items, 1);
  }

  // ---- what the rules come to

  /**
   What an accepted policy offers, by its fallback: without one only the strict choice;
   one that the user configures always lets the declared sources be charged, and may add the
   strict choice; an automatic one never offers the strict choice.
   */
  lemma SelectionsByFallback(env: Platform, p: Policy)
    requires PolicyOk(env, p)
    ensures p.fallback == NoFallback ==> p.selections == [StrictPrimaryOnly]
    ensures p.fallback == UserConfigured <==> AllowDeclaredAdditional in p.selections && p.fallback != Automatic
    ensures p.fallback == UserConfigured ==> ProviderDefault !in p.selections
    ensures p.fallback == Automatic ==> AllowDeclaredAdditional in p.selections && StrictPrimaryOnly !in p.selections
  {
    assert |p.selections| > 1 ==> p.selections[0] != p.selections[1];
    if p.fallback == NoFallback {
      forall k | 0 <= k < |p.selections| ensures p.selections[k] == StrictPrimaryOnly {
        assert p.selections[k] in p.selections;
      }
    }
  }

  /** Whoever may charge the user was declared by the policy; a second payer was agreed to, or chosen by the provider. */
  lemma ChargedWasDeclared(env: Platform, s: Selection, p: Policy, source: Source)
    requires PolicyOk(env, p) && SelectionOk(env, s, p) && source in s.allowed && source != p.primary
    ensures source in p.additional && s.mode != StrictPrimaryOnly && p.fallback in {UserConfigured, Automatic}
  {
    assert p.additional != [];
  }
}
