/**
 A legacy record that can never be migrated: its base URL holds no secret as it stands in the
 legacy file, and holds one once it has been normalised.
 */
module MigrationWitness {
  import opened Options
  import opened Texts
  import opened JsonGrammar
  import opened Objects
  import opened Platform
  import opened Records
  import opened RegistryDocument
  import opened Migration
  import SecretScan

  // ---- the legacy form of a record, as an object

  function LegacyValues(r: Record, baseUrl: Text): seq<Option<Json>>
    requires r.Local?
  {
    [Some(JNumber(1.0)), Some(JString(A(LOCAL_KIND))), Some(JString(r.id)), Some(JString(r.name)), Some(JString(baseUrl)),
     Some(JString(r.modelId)), Some(JString(r.createdAt)), Some(JString(r.updatedAt))]
  }

  function LegacyJson(r: Record, baseUrl: Text): Json
    requires r.Local?
  {
    JObject(Object(LEGACY_NAMES, LegacyValues(r, baseUrl)))
  }

  lemma LegacyNamesDiffer()
    ensures |LEGACY_NAMES| == 8 && Different(LEGACY_NAMES)
  {
  }

  lemma LegacyFields(values: seq<Option<Json>>)
    requires |values| == |LEGACY_NAMES| == 8
    ensures var ms := Object(LEGACY_NAMES, values);
      && Field(ms, "schemaVersion") == values[0] && Field(ms, "kind") == values[1] && Field(ms, "id") == values[2]
      && Field(ms, "label") == values[3] && Field(ms, "baseUrl") == values[4] && Field(ms, "modelId") == values[5]
      && Field(ms, "createdAt") == values[6] && Field(ms, "updatedAt") == values[7]
  {
    hide Object, Field;
    LegacyNamesDiffer();
    ObjectField(LEGACY_NAMES, values, 0);
    ObjectField(LEGACY_NAMES, values, 1);
    ObjectField(LEGACY_NAMES, values, 2);
    ObjectField(LEGACY_NAMES, values, 3);
    ObjectField(LEGACY_NAMES, values, 4);
    ObjectField(LEGACY_NAMES, values, 5);
    ObjectField(LEGACY_NAMES, values, 6);
    ObjectField(LEGACY_NAMES, values, 7);
  }

  lemma LegacyKeys(r: Record, baseUrl: Text)
    requires r.Local?
    ensures ExactKeys(LegacyJson(r, baseUrl).members, LEGACY_NAMES, {})
  {
    hide Object, Field, ExactKeys, LEGACY_NAMES, LOCAL_KIND, Different;
    LegacyNamesDiffer();
    ObjectExact(LEGACY_NAMES, LegacyValues(r, baseUrl), {});
  }

  lemma LegacyPresents(env: Platform, r: Record, baseUrl: Text)
    requires r.Local? && TextOk(env, baseUrl, URL) && env.normalUrl(baseUrl) == Some(r.baseUrl)
    ensures IsLegacy(env, LegacyJson(r, baseUrl), r)
  {
    hide Object, Field, ExactKeys, LEGACY_NAMES, LOCAL_KIND, TextOk, Different;
    LegacyNamesDiffer();
    LegacyFields(LegacyValues(r, baseUrl));
    LegacyKeys(r, baseUrl);
  }

  // ---- the platform of the example

  /** The rule for access keys in `looksLikeSecretValue`: the prefix, and 16 token characters behind it. */
  predicate HasKey(t: Text) { exists i: nat :: i < |t| && SecretScan.TokenAt(t, A("AKIA"), 16, i) }

  /** The URL as it stands in the file: a masculine ordinal sign before what would otherwise be a key. */
  const WRITTEN_URL: Text := A("http://127.0.0.1/") + [0xBA] + A("KIA0123456789ABCDEF")

  /** The URL normalised: the sign is percent-encoded, and its last digit is a capital A. */
  const NORMAL_URL: Text := A("http://127.0.0.1/%C2%BAKIA0123456789ABCDEF")

  const WHEN: Text := A("2026-01-01T00:00:00.000Z")

  const RECORD: Record := Local(A("local"), A("local"), NORMAL_URL, A("model"), WHEN, WHEN)

  /** A platform on which the access key rule is the only secret test that fires. */
  function KeyPlatform(): Platform {
    Platform(t => false, t => true, t => true, t => Some(if t == WRITTEN_URL then NORMAL_URL else t), (a, b) => Less(a, b),
             t => HasKey(t), t => false)
  }

  lemma KeyStart(t: Text, i: nat)
    requires SecretScan.TokenAt(t, A("AKIA"), 16, i)
    ensures i + 1 < |t| && t[i] == 65 && t[i + 1] == 75
  {
    assert A("AKIA")[0] == 65 && A("AKIA")[1] == 75;
    assert t[i + 0] == 65 && t[i + 1] == 75;
  }

  lemma NoCapitalK(t: Text)
    requires forall k :: 0 <= k < |t| ==> t[k] != 75
    ensures !HasKey(t)
  {
    if i: nat :| i < |t| && SecretScan.TokenAt(t, A("AKIA"), 16, i) {
      KeyStart(t, i);
      assert false;
    }
  }

  lemma WrittenUrlHasNoKey()
    ensures !HasKey(WRITTEN_URL)
  {
    if i: nat :| i < |WRITTEN_URL| && SecretScan.TokenAt(WRITTEN_URL, A("AKIA"), 16, i) {
      KeyStart(WRITTEN_URL, i);
      assert false;
    }
  }

  lemma NormalUrlHasKey()
    ensures HasKey(NORMAL_URL)
  {
    assert SecretScan.TokenAt(NORMAL_URL, A("AKIA"), 16, 22);
  }

  lemma NotLess(t: Text)
    ensures !Less(t, t)
    decreases |t|
  {
    if t != [] {
      NotLess(t[1..]);
    }
  }

  lemma RecordIsLocal()
    ensures LocalOk(KeyPlatform(), RECORD)
  {
    hide HasKey, Less, TimeOk;
    assert TimeOk(KeyPlatform(), WHEN) by { WhenOk(); }
    NotLess(WHEN);
  }

  lemma WhenOk()
    ensures TimeOk(KeyPlatform(), WHEN)
  {
    hide HasKey, Less;
  }

  lemma OtherTextsClean()
    ensures !HasKey(A(LOCAL_KIND)) && !HasKey(A("local")) && !HasKey(A("model")) && !HasKey(WHEN)
  {
    hide HasKey;
    NoCapitalK(A(LOCAL_KIND));
    NoCapitalK(A("local"));
    NoCapitalK(A("model"));
    NoCapitalK(WHEN);
  }

  lemma LegacyIsClean()
    ensures Clean(KeyPlatform(), LegacyJson(RECORD, WRITTEN_URL))
  {
    hide HasKey, Object, Less, WRITTEN_URL, NORMAL_URL, WHEN, LOCAL_KIND;
    LegacyNamesDiffer();
    OtherTextsClean();
    WrittenUrlHasNoKey();
    ObjectClean(KeyPlatform(), LEGACY_NAMES, LegacyValues(RECORD, WRITTEN_URL));
  }

  lemma RecordHasKey()
    ensures !Clean(KeyPlatform(), RecordJson(RECORD))
  {
    hide HasKey, Less, Object, Field, ExactKeys, LocalOk, RecordOk, LOCAL_KIND;
    RecordIsLocal();
    LocalIsRecordOk(KeyPlatform(), RECORD);
    RecordPrints(KeyPlatform(), RECORD);
    NormalUrlHasKey();
    if Clean(KeyPlatform(), RecordJson(RECORD)) {
      FieldClean(KeyPlatform(), RecordJson(RECORD).members, "baseUrl");
      assert false;
    }
  }

  /**
   The legacy file parses, and holds no secret; yet from whatever valid document a migration
   starts, the registry refuses what it proposes.
   */
  lemma LateSecretWitness(d: Document)
    requires Valid(KeyPlatform(), d)
    ensures ParseLegacy(KeyPlatform(), LegacyJson(RECORD, WRITTEN_URL)) == Some(RECORD)
    ensures MigrationPlan(d, RECORD).Propose? ==> NextDocument(KeyPlatform(), d, MigrationPlan(d, RECORD).proposed) == None
    ensures !MigrationPlan(d, RECORD).Settled?
  {
    hide Clean, LegacyJson, RecordJson, LocalOk, MigrationPlan, NextDocument, DocumentOk, HasKey, WRITTEN_URL, NORMAL_URL, WHEN;
    RecordIsLocal();
    LegacyIsClean();
    RecordHasKey();
    UrlsOk();
    LegacyPresents(KeyPlatform(), RECORD, WRITTEN_URL);
    LegacyExact(KeyPlatform(), LegacyJson(RECORD, WRITTEN_URL), RECORD);
    if MigrationPlan(d, RECORD).Propose? {
      ProposalAcceptedExactly(KeyPlatform(), d, RECORD);
    }
    CleanDocument(KeyPlatform(), d);
    if MigrationPlan(d, RECORD).Settled? {
      SettledIsClean(KeyPlatform(), d, RECORD);
    }
  }

  lemma UrlsOk()
    ensures TextOk(KeyPlatform(), WRITTEN_URL, URL) && KeyPlatform().normalUrl(WRITTEN_URL) == Some(RECORD.baseUrl)
  {
    hide HasKey, Less;
  }
}
