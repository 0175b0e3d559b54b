/** The metadata in a lock file: how a claim is written and how a contender reads it. */
module LockFile {
  import opened Options
  import opened Texts
  import opened JsonGrammar
  import opened StrictParser
  import opened JsonText
  import opened Objects

  type Content = Text

  datatype Metadata = Metadata(pid: int, token: Text, createdAt: int)

  /** How lock metadata is tested, written and read. */
  datatype Format = Format(valid: Metadata -> bool, render: Metadata -> Content, parse: Content -> Option<Metadata>)

  /** What the lock protocol asks of a format: valid metadata reads back, and is never written as nothing. */
  ghost predicate ReadsBack(format: Format) {
    forall m :: format.valid(m) ==> format.parse(format.render(m)) == Some(m) && |format.render(m)| > 0
  }

  const NAMES: seq<string> := ["version", "pid", "token", "createdAt"]

  /** `/^[0-9a-f-]{36}$/u`, which every random UUID matches. */
  predicate IsToken(t: Text) {
    |t| == 36 && forall k :: 0 <= k < |t| ==> IsDigit(t[k]) || 97 <= t[k] <= 102 || t[k] == 45
  }

  predicate IsPositive(n: int) { 0 < n <= MAX_SAFE_INTEGER }

  predicate Valid(m: Metadata) { IsPositive(m.pid) && IsToken(m.token) && IsPositive(m.createdAt) }

  function Values(m: Metadata): seq<Option<Json>> {
    [Some(JNumber(1.0)), Some(JNumber(m.pid as real)), Some(JString(m.token)), Some(JNumber(m.createdAt as real))]
  }

  /** The line that `#acquireLock` writes into its claim. */
  function Render(m: Metadata): Content {
    Stringify(JObject(Object(NAMES, Values(m))), [], []) + [10]
  }

  function PositiveField(ms: seq<Member>, name: string): (r: Option<int>)
    ensures r.Some? ==> IsPositive(r.value)
  {
    var v :- Field(ms, name);
    if v.JNumber? && IsSafe(v.number) && IsPositive(v.number.Floor) then Some(v.number.Floor) else None
  }

  /**
   `parseLockMetadata`.  The source compares the sorted keys joined by commas; since
   it also demands each of the four members, that is the exact-key test.
   */
  function ParseMetadata(v: Json): (r: Option<Metadata>)
    ensures r.Some? ==> Valid(r.value)
  {
    if !v.JObject? || !ExactKeys(v.members, NAMES, {}) || Field(v.members, "version") != Some(JNumber(1.0)) then None else
    var pid :- PositiveField(v.members, "pid");
    var token :- Field(v.members, "token");
    if !token.JString? || !IsToken(token.text) then None else
    var createdAt :- PositiveField(v.members, "createdAt");
    Some(Metadata(pid, token.text, createdAt))
  }

  /** What `inspectLock` makes of the bytes of a lock file. */
  function Parse(content: Content): (r: Option<Metadata>)
    ensures r.Some? ==> Valid(r.value)
  {
    var v :- ParseText(content);
    ParseMetadata(v)
  }

  lemma NamesOk()
    ensures Different(NAMES)
  {
  }

  lemma ObjectRoundTrip(m: Metadata)
    requires Valid(m)
    ensures ParseMetadata(JObject(Object(NAMES, Values(m)))) == Some(m)
  {
    hide Object, Field, ExactKeys;
    NamesOk();
    ObjectExact(NAMES, Values(m), {});
    var ms := Object(NAMES, Values(m));
    assert Field(ms, NAMES[0]) == Values(m)[0] && Field(ms, NAMES[1]) == Values(m)[1];
    assert Field(ms, NAMES[2]) == Values(m)[2] && Field(ms, NAMES[3]) == Values(m)[3];
  }

  /** A contender reads exactly what the owner wrote. */
  lemma RoundTrip(m: Metadata)
    requires Valid(m)
    ensures Parse(Render(m)) == Some(m) && |Render(m)| > 0
  {
    hide ParseText, ParseMetadata, Stringify, Object;
    NamesOk();
    ObjectFits(NAMES, Values(m), MAX_DEPTH - 1);
    StringifyRoundTrip(JObject(Object(NAMES, Values(m))), []);
    ObjectRoundTrip(m);
  }

  const JSON_LINE: Format := Format((m: Metadata) => Valid(m), (m: Metadata) => Render(m), (t: Content) => Parse(t))

  /** The format of the lock files is one for which the results about the lock protocol hold. */
  lemma JsonLineReadsBack()
    ensures ReadsBack(JSON_LINE)
  {
    hide Render, Parse, Valid;
    forall m: Metadata | JSON_LINE.valid(m)
      ensures JSON_LINE.parse(JSON_LINE.render(m)) == Some(m) && |JSON_LINE.render(m)| > 0
    {
      RoundTrip(m);
    }
  }
}
