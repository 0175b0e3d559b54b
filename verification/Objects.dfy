/**
 JavaScript objects as the validators see them: member access, the exact-key test
 with its optional members, and object literals some of whose members may be absent.
 A member that is missing reads as None, which stands for `undefined`; the exact-key test
 compares the sorted names, so the order of members never matters.
 */
module Objects {
  import opened Options
  import opened Texts
  import opened JsonGrammar
  import opened JsonText

  /** `value[name]`, or None where it is `undefined`. */
  function Field(ms: seq<Member>, name: string): (r: Option<Json>)
    ensures r.Some? ==> exists k :: 0 <= k < |ms| && ms[k].value == r.value
  {
    if ms == [] then None
    else if ms[0].key == A(name) then
      assert ms[0].value == Some(ms[0].value).value;
      Some(ms[0].value)
    else
      var r := Field(ms[1..], name);
      assert r.Some? ==> exists k :: 0 <= k < |ms[1..]| && ms[1..][k].value == r.value;
      r
  }

  predicate HasKey(ms: seq<Member>, key: Text) { exists k :: 0 <= k < |ms| && ms[k].key == key }

  /** The names that an object must have: all of them, save the optional ones it does not have. */
  function Expected(ms: seq<Member>, names: seq<string>, optional: set<string>): seq<string> {
    if names == [] then []
    else (if names[0] in optional && Field(ms, names[0]).None? then [] else [names[0]]) + Expected(ms, names[1..], optional)
  }

  /** `exactKeys`: the own keys, which never repeat, are the expected names. */
  predicate ExactKeys(ms: seq<Member>, names: seq<string>, optional: set<string>) {
    var expected := Expected(ms, names, optional);
    |ms| == |expected| && forall k :: 0 <= k < |expected| ==> HasKey(ms, A(expected[k]))
  }

  predicate Different(names: seq<string>) {
    forall j, k :: 0 <= j < k < |names| ==> names[j] != names[k]
  }

  predicate DifferentKeys(ms: seq<Member>) {
    forall j, k :: 0 <= j < k < |ms| ==> ms[j].key != ms[k].key
  }

  /** An object literal with these members in this order; a member whose value is None is left out. */
  function Object(names: seq<string>, values: seq<Option<Json>>): seq<Member>
    requires |names| == |values|
  {
    if names == [] then []
    else (if values[0].Some? then [Member(A(names[0]), values[0].value)] else []) + Object(names[1..], values[1..])
  }

  /** Every member of an object literal comes from one of the names. */
  lemma {:induction false} ObjectMember(names: seq<string>, values: seq<Option<Json>>, k: nat) returns (i: nat)
    requires |names| == |values| && k < |Object(names, values)|
    ensures i < |names| && values[i] == Some(Object(names, values)[k].value)
    ensures Object(names, values)[k].key == A(names[i])
  {
    if values[0].Some? && k == 0 {
      i := 0;
    } else {
      var rest := Object(names[1..], values[1..]);
      var j := ObjectMember(names[1..], values[1..], if values[0].Some? then k - 1 else k);
      i := j + 1;
    }
  }

  lemma {:induction false} FieldSkips(first: seq<Member>, rest: seq<Member>, name: string)
    requires forall k :: 0 <= k < |first| ==> first[k].key != A(name)
    ensures Field(first + rest, name) == Field(rest, name)
  {
    if first == [] {
      assert first + rest == rest;
    } else {
      assert (first + rest)[1..] == first[1..] + rest;
      FieldSkips(first[1..], rest, name);
    }
  }

  lemma {:induction false} ObjectLacks(names: seq<string>, values: seq<Option<Json>>, name: string)
    requires |names| == |values| && name !in names
    ensures Field(Object(names, values), name) == None
  {
    if names != [] {
      LiteralsDiffer(names[0], name);
      ObjectLacks(names[1..], values[1..], name);
      FieldSkips(if values[0].Some? then [Member(A(names[0]), values[0].value)] else [], Object(names[1..], values[1..]), name);
    }
  }

  /** Reading a field of an object literal gives what was written under that name, or nothing if it was left out. */
  lemma {:induction false} ObjectField(names: seq<string>, values: seq<Option<Json>>, i: nat)
    requires |names| == |values| && Different(names) && i < |names|
    ensures Field(Object(names, values), names[i]) == values[i]
  {
    var first := if values[0].Some? then [Member(A(names[0]), values[0].value)] else [];
    if i == 0 {
      ObjectLacks(names[1..], values[1..], names[0]);
      if values[0].None? {
        assert [] + Object(names[1..], values[1..]) == Object(names[1..], values[1..]);
      }
    } else {
      LiteralsDiffer(names[0], names[i]);
      ObjectField(names[1..], values[1..], i - 1);
      FieldSkips(first, Object(names[1..], values[1..]), names[i]);
    }
  }

  predicate Agree(ms: seq<Member>, names: seq<string>, values: seq<Option<Json>>)
    requires |names| == |values|
  {
    forall i :: 0 <= i < |names| ==> Field(ms, names[i]) == values[i]
  }

  lemma AgreeConcat(ms: seq<Member>, n1: seq<string>, v1: seq<Option<Json>>, n2: seq<string>, v2: seq<Option<Json>>)
    requires |n1| == |v1| && |n2| == |v2|
    ensures Agree(ms, n1 + n2, v1 + v2) <==> Agree(ms, n1, v1) && Agree(ms, n2, v2)
  {
    if Agree(ms, n1 + n2, v1 + v2) {
      forall i | 0 <= i < |n1| ensures Field(ms, n1[i]) == v1[i] { assert (n1 + n2)[i] == n1[i]; }
      forall i | 0 <= i < |n2| ensures Field(ms, n2[i]) == v2[i] { assert (n1 + n2)[|n1| + i] == n2[i]; }
    }
  }

  lemma {:induction false} ExpectedLength(ms: seq<Member>, names: seq<string>, values: seq<Option<Json>>, optional: set<string>)
    requires |names| == |values| && Agree(ms, names, values)
    requires forall i :: 0 <= i < |names| ==> values[i].None? ==> names[i] in optional
    ensures |Expected(ms, names, optional)| == |Object(names, values)|
    ensures forall k :: 0 <= k < |Expected(ms, names, optional)| ==> Field(ms, Expected(ms, names, optional)[k]).Some?
  {
    if names != [] {
      ExpectedLength(ms, names[1..], values[1..], optional);
      assert Field(ms, names[0]) == values[0];
    }
  }

  lemma {:induction false} FieldKey(ms: seq<Member>, name: string)
    requires Field(ms, name).Some?
    ensures HasKey(ms, A(name))
  {
    if ms[0].key != A(name) {
      FieldKey(ms[1..], name);
      var k :| 0 <= k < |ms[1..]| && ms[1..][k].key == A(name);
      assert ms[k + 1].key == A(name);
    }
  }

  predicate OnlyOptional(names: seq<string>, values: seq<Option<Json>>, optional: set<string>)
    requires |names| == |values|
  {
    forall i :: 0 <= i < |names| ==> values[i].None? ==> names[i] in optional
  }

  /** An object literal passes the exact-key test as long as only optional members are left out. */
  lemma ObjectExact(names: seq<string>, values: seq<Option<Json>>, optional: set<string>)
    requires |names| == |values| && Different(names)
    requires OnlyOptional(names, values, optional)
    ensures ExactKeys(Object(names, values), names, optional) && Agree(Object(names, values), names, values)
  {
    var ms := Object(names, values);
    forall i | 0 <= i < |names| ensures Field(ms, names[i]) == values[i] {
      ObjectField(names, values, i);
    }
    ExpectedLength(ms, names, values, optional);
    var expected := Expected(ms, names, optional);
    forall k | 0 <= k < |expected| ensures HasKey(ms, A(expected[k])) {
      FieldKey(ms, expected[k]);
    }
  }

  lemma {:induction false} ObjectDifferentKeys(names: seq<string>, values: seq<Option<Json>>)
    requires |names| == |values| && Different(names)
    ensures DifferentKeys(Object(names, values))
  {
    if names != [] {
      ObjectDifferentKeys(names[1..], values[1..]);
      var rest := Object(names[1..], values[1..]);
      forall k | 0 <= k < |rest| ensures rest[k].key != A(names[0]) {
        var i := ObjectMember(names[1..], values[1..], k);
        LiteralsDiffer(names[0], names[1..][i]);
      }
    }
  }

  /** Printable, and nested within the limit. */
  predicate Fits(v: Json, limit: nat) { Printable(v) && Within(v, limit) }

  predicate OptionFits(v: Option<Json>, limit: nat) { v.Some? ==> Fits(v.value, limit) }

  predicate AllFit(values: seq<Option<Json>>, limit: nat) {
    forall i :: 0 <= i < |values| ==> OptionFits(values[i], limit)
  }

  lemma {:induction false} FitsDeeper(v: Json, low: nat, high: nat)
    requires Fits(v, low) && low <= high
    ensures Fits(v, high)
    decreases low
  {
    match v
    case JArray(items) => forall k | 0 <= k < |items| ensures Within(items[k], high - 1) { FitsDeeper(items[k], low - 1, high - 1); }
    case JObject(ms) => forall k | 0 <= k < |ms| ensures Within(ms[k].value, high - 1) { FitsDeeper(ms[k].value, low - 1, high - 1); }
    case _ =>
  }

  lemma TextFits(t: Text, limit: nat)
    requires IsText(t) && limit > 0
    ensures Fits(JString(t), limit)
  {
  }

  lemma NumberFits(n: int, limit: nat)
    requires -MAX_SAFE_INTEGER <= n <= MAX_SAFE_INTEGER && limit > 0
    ensures Fits(JNumber(n as real), limit)
  {
  }

  lemma ArrayFits(items: seq<Json>, limit: nat)
    requires forall k :: 0 <= k < |items| ==> Fits(items[k], limit)
    ensures Fits(JArray(items), limit + 1)
  {
  }

  /** An object literal is printable within the nesting limit if its values are. */
  lemma ObjectFits(names: seq<string>, values: seq<Option<Json>>, limit: nat)
    requires |names| == |values| && Different(names)
    requires AllFit(values, limit)
    ensures Fits(JObject(Object(names, values)), limit + 1)
  {
    var ms := Object(names, values);
    ObjectDifferentKeys(names, values);
    forall k | 0 <= k < |ms|
      ensures IsText(ms[k].key) && Printable(ms[k].value) && Within(ms[k].value, limit)
    {
      var i := ObjectMember(names, values, k);
    }
  }

  /** `items.map(read)`, None where any item is refused. */
  function ReadAll<T>(items: seq<Json>, read: Json -> Option<T>): (r: Option<seq<T>>)
    ensures r.Some? ==> |r.value| == |items| && forall k :: 0 <= k < |items| ==> read(items[k]) == Some(r.value[k])
  {
    if items == [] then Some([]) else
    var first := read(items[0]);
    var rest := ReadAll(items[1..], read);
    if first.None? || rest.None? then None else Some([first.value] + rest.value)
  }

  lemma {:induction false} ReadAllComplete<T>(items: seq<Json>, read: Json -> Option<T>, values: seq<T>)
    requires |values| == |items| && forall k :: 0 <= k < |items| ==> read(items[k]) == Some(values[k])
    ensures ReadAll(items, read) == Some(values)
  {
    if items != [] {
      ReadAllComplete(items[1..], read, values[1..]);
      assert values == [values[0]] + values[1..];
    }
  }
}
