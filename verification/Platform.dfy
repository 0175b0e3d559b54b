/**
 What the registry validators take from the language runtime and from other
 packages, as one record of total functions, and the string fields tested with it.
 The functions are arbitrary: a lemma that needs one of them to behave in some way
 says so in its hypotheses.
 */
module Platform {
  import opened Options
  import opened Texts
  import opened JsonGrammar
  import opened Objects

  datatype Platform = Platform(
    unsafeDisplay: Text -> bool,          // some code point in the categories Cc, Cf, Cs, Zl or Zp
    trimmed: Text -> bool,                // `trim` changes nothing
    canonicalTime: Text -> bool,          // `Date.parse` succeeds and `toISOString` gives the text back
    normalUrl: Text -> Option<Text>,      // `normalizeLoopbackOpenAIBaseUrl`, None where it throws
    precedes: (Text, Text) -> bool,       // `localeCompare` is negative
    secret: Text -> bool,                 // `looksLikeSecretValue`
    forbiddenKey: Text -> bool)           // `isForbiddenNonSecretKey`

  datatype Pattern = Anything | Identifier | Fingerprint | Variable

  /** The options of `boundedString` and `boundedUtf8String`. */
  datatype Shape = Shape(maximum: nat, utf8: bool, trim: bool, pattern: Pattern)

  const IDENTIFIER := Shape(128, false, true, Identifier)
  const LABEL := Shape(256, false, true, Anything)
  const LONG_LABEL := Shape(512, false, true, Anything)
  const URL := Shape(2048, false, false, Anything)
  const PROFILE := Shape(256, false, true, Identifier)
  const FINGERPRINT := Shape(71, false, true, Fingerprint)
  const VARIABLE := Shape(128, false, true, Variable)
  const MODEL := Shape(256, true, true, Anything)
  const CLAIM := Shape(256, true, false, Anything)
  const TIMESTAMP := Shape(32, false, false, Anything)

  predicate IsAlphanumeric(c: Unit) { IsDigit(c) || IsUpper(c) || 97 <= c <= 122 }

  predicate Matches(t: Text, pattern: Pattern) {
    match pattern
    case Anything => true
    case Identifier =>
      |t| > 0 && IsAlphanumeric(t[0])
      && forall k :: 0 < k < |t| ==> IsAlphanumeric(t[k]) || t[k] == 46 || t[k] == 95 || t[k] == 58 || t[k] == 45
    case Fingerprint =>
      |t| == 71 && t[..7] == A("sha256:") && forall k :: 7 <= k < 71 ==> IsDigit(t[k]) || 97 <= t[k] <= 102
    case Variable =>
      0 < |t| <= 128 && IsUpper(t[0]) && forall k :: 0 < k < |t| ==> IsUpper(t[k]) || IsDigit(t[k]) || t[k] == 95
  }

  /** `boundedString` and `boundedUtf8String`; that a text consists of code units is not tested but always so. */
  predicate TextOk(env: Platform, t: Text, shape: Shape) {
    && IsText(t) && 0 < |t| <= shape.maximum && !env.unsafeDisplay(t)
    && (shape.trim ==> env.trimmed(t)) && Matches(t, shape.pattern)
    && (shape.utf8 ==> Utf8Length(t) <= shape.maximum)
  }

  lemma TextOkIsText(env: Platform, t: Text, shape: Shape)
    requires TextOk(env, t, shape)
    ensures IsText(t)
  {
  }

  predicate TimeOk(env: Platform, t: Text) { TextOk(env, t, TIMESTAMP) && env.canonicalTime(t) }

  /** `!(a > b)` on timestamps. */
  predicate NotAfter(a: Text, b: Text) { !Less(b, a) }

  predicate Between(t: Text, low: Text, high: Text) { NotAfter(low, t) && NotAfter(t, high) }

  function TextField(env: Platform, ms: seq<Member>, name: string, shape: Shape): (r: Option<Text>)
    ensures r.Some? ==> Field(ms, name) == Some(JString(r.value)) && TextOk(env, r.value, shape)
  {
    var v :- Field(ms, name);
    if v.JString? && TextOk(env, v.text, shape) then Some(v.text) else None
  }

  function TimeField(env: Platform, ms: seq<Member>, name: string): (r: Option<Text>)
    ensures r.Some? ==> Field(ms, name) == Some(JString(r.value)) && TimeOk(env, r.value)
  {
    var t :- TextField(env, ms, name, TIMESTAMP);
    if env.canonicalTime(t) then Some(t) else None
  }

  /** A text or null: the value null is read as None. */
  function NullableField(env: Platform, ms: seq<Member>, name: string, shape: Shape): (r: Option<Option<Text>>)
    ensures r.Some? ==> Field(ms, name) == Some(OrNull(r.value)) && (r.value.Some? ==> TextOk(env, r.value.value, shape))
  {
    var v :- Field(ms, name);
    if v == JNull then Some(None) else
    var t :- TextField(env, ms, name, shape);
    Some(Some(t))
  }

  function OrNull(t: Option<Text>): Json { if t.None? then JNull else JString(t.value) }

  /** A text that may be absent: an absent one is read as None. */
  function OptionalField(env: Platform, ms: seq<Member>, name: string, shape: Shape): (r: Option<Option<Text>>)
    ensures r.Some? ==> Field(ms, name) == OrAbsent(r.value) && (r.value.Some? ==> TextOk(env, r.value.value, shape))
  {
    if Field(ms, name).None? then Some(None) else
    var t :- TextField(env, ms, name, shape);
    Some(Some(t))
  }

  function OrAbsent(t: Option<Text>): Option<Json> { if t.None? then None else Some(JString(t.value)) }

  /** `rejectSecretMaterial` raises nothing. */
  predicate Clean(env: Platform, v: Json) {
    match v
    case JString(t) => !env.secret(t)
    case JArray(items) => forall k :: 0 <= k < |items| ==> Clean(env, items[k])
    case JObject(ms) => forall k :: 0 <= k < |ms| ==> !env.forbiddenKey(ms[k].key) && Clean(env, ms[k].value)
    case _ => true
  }

  lemma {:induction false} FieldClean(env: Platform, ms: seq<Member>, name: string)
    requires Clean(env, JObject(ms)) && Field(ms, name).Some?
    ensures Clean(env, Field(ms, name).value) && !env.forbiddenKey(A(name))
  {
    if ms[0].key == A(name) {
      assert Clean(env, ms[0].value);
    } else {
      forall k | 0 <= k < |ms[1..]| ensures !env.forbiddenKey(ms[1..][k].key) && Clean(env, ms[1..][k].value) {
        assert ms[1..][k] == ms[k + 1];
      }
      FieldClean(env, ms[1..], name);
    }
  }

  /** The members of an object literal have permitted names and clean values. */
  predicate CleanMembers(env: Platform, names: seq<string>, values: seq<Option<Json>>)
    requires |names| == |values|
  {
    forall i :: 0 <= i < |names| && values[i].Some? ==> !env.forbiddenKey(A(names[i])) && Clean(env, values[i].value)
  }

  lemma ObjectClean(env: Platform, names: seq<string>, values: seq<Option<Json>>)
    requires |names| == |values| && CleanMembers(env, names, values)
    ensures Clean(env, JObject(Object(names, values)))
  {
    var ms := Object(names, values);
    forall k | 0 <= k < |ms| ensures !env.forbiddenKey(ms[k].key) && Clean(env, ms[k].value) {
      var i := ObjectMember(names, values, k);
    }
  }

  /** Members copied from a clean object are clean. */
  lemma AgreeClean(env: Platform, ms: seq<Member>, names: seq<string>, values: seq<Option<Json>>)
    requires |names| == |values| && Clean(env, JObject(ms)) && Agree(ms, names, values)
    ensures CleanMembers(env, names, values)
  {
    forall i | 0 <= i < |names| && values[i].Some? ensures !env.forbiddenKey(A(names[i])) && Clean(env, values[i].value) {
      FieldClean(env, ms, names[i]);
    }
  }
}
