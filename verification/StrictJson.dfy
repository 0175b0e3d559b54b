module StrictJson {
  /**
   The parser object of connection-registry-model.ts: an index and a depth that its
   methods move through the text.  Every method is proved to compute the function of
   `StrictParser` it stands for, and to restore the depth however it ends; None is a
   thrown `registry_invalid`.
   */

  import opened Options
  import opened Texts
  import opened JsonGrammar
  import opened StrictParser
  import opened StrictComplete

  function Keys(members: seq<Member>): (keys: seq<Text>)
    ensures |keys| == |members| && forall k :: 0 <= k < |members| ==> keys[k] == members[k].key
  {
    seq(|members|, k requires 0 <= k < |members| => members[k].key)
  }

  function KeySet(members: seq<Member>): set<Text> {
    set k | k in Keys(members)
  }

  lemma {:induction false} NamesAreKeys(members: Members)
    requires MembersOk(members)
    ensures Names(members) == Keys(DenoteMembers(members))
  {
    if members.MoreMembers? {
      NamesAreKeys(members.rest);
    }
  }

  /** The rest of an object loop at `index`, after `seen`, against the whole of it from `first` on. */
  ghost predicate MembersContinue(t: Text, first: nat, index: nat, depth: nat, seen: seq<Member>)
    requires first <= |t| && index <= |t|
  {
    var whole, rest := ParseMembers(t, first, depth), ParseMembers(t, index, depth);
    && (whole.Some? <==> rest.Some?)
    && (whole.Some? ==> whole.value.next == rest.value.next)
    && (whole.Some? ==> DenoteMembers(whole.value.value) == seen + DenoteMembers(rest.value.value))
  }

  ghost predicate ItemsContinue(t: Text, first: nat, index: nat, depth: nat, seen: seq<Json>)
    requires first <= |t| && index <= |t|
  {
    var whole, rest := ParseItems(t, first, depth), ParseItems(t, index, depth);
    && (whole.Some? <==> rest.Some?)
    && (whole.Some? ==> whole.value.next == rest.value.next)
    && (whole.Some? ==> DenoteItems(whole.value.value) == seen + DenoteItems(rest.value.value))
  }

  ghost predicate MembersAre(r: Option<Parsed<Members>>, members: seq<Member>, next: nat) {
    r.Some? && r.value.next == next && MembersOk(r.value.value) && DenoteMembers(r.value.value) == members
  }

  ghost predicate ItemsAre(r: Option<Parsed<Items>>, items: seq<Json>, next: nat) {
    r.Some? && r.value.next == next && ItemsOk(r.value.value) && DenoteItems(r.value.value) == items
  }

  ghost predicate EntryIs(r: Option<Parsed<Entry>>, name: Name, v: Syntax, next: nat) {
    r.Some? && r.value.value.name == name && r.value.value.value == v && r.value.next == next
  }

  /** One unfolding of the object loop, in terms of what its members denote. */
  lemma MembersStep(t: Text, index: nat, depth: nat)
    requires index <= |t|
    ensures ParseEntry(t, index, depth).None? ==> ParseMembers(t, index, depth).None?
    ensures ParseEntry(t, index, depth).Some? ==>
      var entry := ParseEntry(t, index, depth).value;
      var m := Member(Key(entry.value), Denote(entry.value.value));
      var rest := ParseMembers(t, index, depth);
      && (Has(t, entry.next, COMMA) ==>
            var tail := ParseMembers(t, ReadSpace(t, entry.next + 1).next, depth);
            && (rest.Some? <==> tail.Some?)
            && (tail.Some? ==> MembersAre(rest, [m] + DenoteMembers(tail.value.value), tail.value.next)))
      && (Has(t, entry.next, CLOSE_OBJECT) ==> MembersAre(rest, [m], entry.next + 1))
      && (!Has(t, entry.next, COMMA) && !Has(t, entry.next, CLOSE_OBJECT) ==> rest.None?)
  {
    hide ParseEntry, ReadSpace, At, Space, SpellName, NameOk, SyntaxOk, Spell, Strict, Height, Denote, Key;
    hide StrictMembers, MembersHeight, SpellMembers, SpellEntry;
  }

  lemma MembersTurn(t: Text, first: nat, index: nat, depth: nat, seen: seq<Member>)
    requires first <= |t| && index <= |t| && MembersContinue(t, first, index, depth, seen)
    ensures ParseEntry(t, index, depth).None? ==> ParseMembers(t, first, depth).None?
    ensures ParseEntry(t, index, depth).Some? ==>
      var entry := ParseEntry(t, index, depth).value;
      var more := seen + [Member(Key(entry.value), Denote(entry.value.value))];
      && (Has(t, entry.next, COMMA) ==> MembersContinue(t, first, ReadSpace(t, entry.next + 1).next, depth, more))
      && (Has(t, entry.next, CLOSE_OBJECT) ==> MembersAre(ParseMembers(t, first, depth), more, entry.next + 1))
      && (!Has(t, entry.next, COMMA) && !Has(t, entry.next, CLOSE_OBJECT) ==> ParseMembers(t, first, depth).None?)
  {
    hide ParseEntry, ParseMembers, ReadSpace, Space, SyntaxOk, Strict, Height, Denote, Key, DenoteMembers;
    MembersStep(t, index, depth);
    var entry := ParseEntry(t, index, depth);
    if entry.Some? && Has(t, entry.value.next, COMMA) {
      var m := Member(Key(entry.value.value), Denote(entry.value.value.value));
      var tail := ParseMembers(t, ReadSpace(t, entry.value.next + 1).next, depth);
      if tail.Some? {
        assert seen + ([m] + DenoteMembers(tail.value.value)) == seen + [m] + DenoteMembers(tail.value.value);
      }
    }
  }

  lemma FirstKey(t: Text, index: nat, depth: nat)
    requires index <= |t| && ParseMembers(t, index, depth).Some?
    ensures ReadName(t, index).Some?
    ensures Key(ParseMembers(t, index, depth).value.value.entry) == CharsValue(ReadName(t, index).value.value.chars)
  {
    hide ReadName, ReadSpace, At, Space, SpellName, SyntaxOk, Spell, Strict, Height, ParseValue;
  }

  /** A name that the loop has already met makes the whole object invalid. */
  lemma RepeatedName(t: Text, first: nat, index: nat, depth: nat, seen: seq<Member>)
    requires first <= |t| && index <= |t| && MembersContinue(t, first, index, depth, seen)
    requires ReadName(t, index).Some? && CharsValue(ReadName(t, index).value.value.chars) in Keys(seen)
    ensures ParseMembers(t, first, depth).Some? ==> !Distinct(Names(ParseMembers(t, first, depth).value.value))
  {
    hide ReadName, ReadSpace, At, Space, SpellName, Spell, Strict, Height, Denote, ParseMembers;
    hide StrictMembers, MembersHeight, SpellMembers, SpellEntry;
    var whole, rest := ParseMembers(t, first, depth), ParseMembers(t, index, depth);
    if whole.Some? {
      var key := CharsValue(ReadName(t, index).value.value.chars);
      NamesAreKeys(whole.value.value);
      var all, tail := DenoteMembers(whole.value.value), DenoteMembers(rest.value.value);
      FirstKey(t, index, depth);
      assert tail[0].key == key;
      assert all[|seen|] == tail[0];
      var k :| 0 <= k < |seen| && Keys(seen)[k] == key;
      assert all[k] == seen[k];
      assert Names(whole.value.value)[k] == Names(whole.value.value)[|seen|];
    }
  }

  /** One unfolding of the array loop, in terms of what its items denote. */
  lemma ItemsStep(t: Text, index: nat, depth: nat)
    requires index <= |t|
    ensures ParseValue(t, index, depth).None? ==> ParseItems(t, index, depth).None?
    ensures ParseValue(t, index, depth).Some? ==>
      var v := ParseValue(t, index, depth).value;
      var end := ReadSpace(t, v.next).next;
      var rest := ParseItems(t, index, depth);
      && (Has(t, end, COMMA) ==>
            var tail := ParseItems(t, ReadSpace(t, end + 1).next, depth);
            && (rest.Some? <==> tail.Some?)
            && (tail.Some? ==> ItemsAre(rest, [Denote(v.value)] + DenoteItems(tail.value.value), tail.value.next)))
      && (Has(t, end, CLOSE_ARRAY) ==> ItemsAre(rest, [Denote(v.value)], end + 1))
      && (!Has(t, end, COMMA) && !Has(t, end, CLOSE_ARRAY) ==> rest.None?)
  {
    hide ParseValue, ReadSpace, At, Space, SyntaxOk, Spell, Strict, Height, Denote;
    hide StrictItems, ItemsHeight, SpellItems;
  }

  lemma ItemsTurn(t: Text, first: nat, index: nat, depth: nat, seen: seq<Json>)
    requires first <= |t| && index <= |t| && ItemsContinue(t, first, index, depth, seen)
    ensures ParseValue(t, index, depth).None? ==> ParseItems(t, first, depth).None?
    ensures ParseValue(t, index, depth).Some? ==>
      var v := ParseValue(t, index, depth).value;
      var end := ReadSpace(t, v.next).next;
      var more := seen + [Denote(v.value)];
      && (Has(t, end, COMMA) ==> ItemsContinue(t, first, ReadSpace(t, end + 1).next, depth, more))
      && (Has(t, end, CLOSE_ARRAY) ==> ItemsAre(ParseItems(t, first, depth), more, end + 1))
      && (!Has(t, end, COMMA) && !Has(t, end, CLOSE_ARRAY) ==> ParseItems(t, first, depth).None?)
  {
    hide ParseValue, ParseItems, ReadSpace, Space, SyntaxOk, Strict, Height, Denote, DenoteItems;
    ItemsStep(t, index, depth);
    var v := ParseValue(t, index, depth);
    if v.Some? && Has(t, ReadSpace(t, v.value.next).next, COMMA) {
      var x := Denote(v.value.value);
      var tail := ParseItems(t, ReadSpace(t, ReadSpace(t, v.value.next).next + 1).next, depth);
      if tail.Some? {
        assert seen + ([x] + DenoteItems(tail.value.value)) == seen + [x] + DenoteItems(tail.value.value);
      }
    }
  }

  class StrictJsonParser {
    const text: Text
    var index: nat
    var depth: nat

    constructor (text: Text)
      ensures this.text == text && index == 0 && depth == 0
    {
      this.text := text;
      index := 0;
      depth := 0;
    }

    method Parse() returns (r: Option<Json>)
      requires index == 0 && depth == 0
      modifies this
      ensures r == ParseText(text) && depth == 0
    {
      hide ParseValue, ReadSpace, Denote, SyntaxOk, Spell, Strict, IsStrictJson;
      Space();
      r := Value();
      if r.None? { return; }
      Space();
      if index != |text| { r := None; }
    }

    method Value() returns (r: Option<Json>)
      requires index <= |text|
      modifies this
      ensures depth == old(depth)
      ensures r.Some? <==> ParseValue(text, old(index), old(depth)).Some?
      ensures r.Some? ==>
        var p := ParseValue(text, old(index), old(depth)).value;
        r.value == Denote(p.value) && index == p.next && old(index) < index <= |text|
      decreases |text| - index, 1
    {
      hide At, ReadNumber, ReadString, NumberOk, SpellNumber, SpellString, ParseObject, ParseArray, CharsOk, ReadWord;
      ghost var start := index;
      if depth >= 32 { return None; }
      if index < |text| && text[index] == OPEN_OBJECT {
        depth := depth + 1;
        r := Object();
        depth := depth - 1;
      } else if index < |text| && text[index] == OPEN_ARRAY {
        depth := depth + 1;
        r := Array();
        depth := depth - 1;
      } else if index < |text| && text[index] == QUOTE {
        var s := String();
        r := if s.Some? then Some(JString(s.value)) else None;
      } else if index < |text| && text[index] == 116 {
        r := Literal("true", STrue);
      } else if index < |text| && text[index] == 102 {
        r := Literal("false", SFalse);
      } else if index < |text| && text[index] == 110 {
        r := Literal("null", SNull);
      } else {
        r := Number();
      }
    }

    method Object() returns (r: Option<Json>)
      requires Has(text, index, OPEN_OBJECT) && 0 < depth <= MAX_DEPTH
      modifies this
      ensures depth == old(depth)
      ensures r.Some? <==> ParseObject(text, old(index), old(depth)).Some?
      ensures r.Some? ==>
        var p := ParseObject(text, old(index), old(depth)).value;
        r.value == Denote(p.value) && index == p.next && old(index) < index <= |text|
      decreases |text| - index, 0
    {
      hide At, JsonGrammar.Space, ParseValue, ParseEntry, ParseMembers, SyntaxOk, Strict, Spell, Height, ReadName, ReadSpace, ReadString, Span, NameOk, Denote, MembersContinue, Distinct, Names;
      hide ParseObject, MembersAre, CharsValue, CharsOk, MembersOk, EntryOk, DenoteMembers, Keys, KeySet;
      ghost var start, d := index, depth;
      index := index + 1;
      Space();
      ghost var first := index;
      if index < |text| && text[index] == CLOSE_OBJECT {
        index := index + 1;
        EmptyObject(start, d);
        return Some(JObject([]));
      }
      var result: seq<Member>, keys: set<Text> := [], {};
      BeginMembers(first, d);
      while true
        invariant depth == d && start < first <= index <= |text|
        invariant first == ReadSpace(text, start + 1).next && !Has(text, first, CLOSE_OBJECT)
        invariant keys == KeySet(result)
        invariant Distinct(Keys(result))
        invariant MembersContinue(text, first, index, d, result)
        decreases |text| - index
      {
        ghost var at := index;
        ObjectTurn(first, at, d, result);
        var key := MemberName(keys);
        if key.None? {
          NoMember(start, first, at, d, result, keys);
          return None;
        }
        keys := keys + {key.value};
        var v := Value();
        if v.None? { FailedObject(start, d); return None; }
        KeysSnoc(result, Member(key.value, v.value));
        result := result + [Member(key.value, v.value)];
        Space();
        var separator := if index < |text| then Some(text[index]) else None;
        index := index + 1;
        if separator == Some(CLOSE_OBJECT) {
          FinishedObject(start, d, result);
          return Some(JObject(result));
        }
        if separator != Some(COMMA) { FailedObject(start, d); return None; }
        Space();
      }
    }

    /** The first half of a turn of the object loop: the name, which must be new, and its colon. */
    method MemberName(keys: set<Text>) returns (r: Option<Text>)
      requires index <= |text|
      modifies this`index
      ensures r.Some? <==>
        ReadName(text, old(index)).Some? && CharsValue(ReadName(text, old(index)).value.value.chars) !in keys
      ensures r.Some? ==>
        var name := ReadName(text, old(index)).value;
        r.value == CharsValue(name.value.chars) && index == name.next && old(index) < index <= |text|
    {
      hide At, JsonGrammar.Space, ReadName, ReadSpace, ReadString, SpellName, SpellString, NameOk, CharsOk, CharsValue;
      ghost var at := index;
      if !(index < |text| && text[index] == QUOTE) {
        NoName(at);
        return None;
      }
      NameAt(at);
      var key := String();
      if key.None? || key.value in keys { return None; }
      Space();
      if !(index < |text| && text[index] == COLON) { return None; }
      index := index + 1;
      Space();
      r := key;
    }

    /** What the loop reads of a member's name, step by step. */
    lemma NameAt(at: nat)
      requires Has(text, at, QUOTE)
      ensures ReadString(text, at).None? ==> ReadName(text, at).None?
      ensures ReadString(text, at).Some? ==>
        var chars := ReadString(text, at).value;
        var colon := ReadSpace(text, chars.next).next;
        && (!Has(text, colon, COLON) ==> ReadName(text, at).None?)
        && (Has(text, colon, COLON) ==> ReadName(text, at).Some?)
        && (Has(text, colon, COLON) ==> ReadName(text, at).value.value.chars == chars.value)
        && (Has(text, colon, COLON) ==> ReadName(text, at).value.next == ReadSpace(text, colon + 1).next)
    {
      hide At, ReadString, ReadSpace, CharsOk, SpellString;
    }

    lemma EntryAt(at: nat, d: nat)
      requires at <= |text|
      ensures ReadName(text, at).None? ==> ParseEntry(text, at, d).None?
      ensures ReadName(text, at).Some? ==>
        var name := ReadName(text, at).value;
        var v := ParseValue(text, name.next, d);
        && (v.None? ==> ParseEntry(text, at, d).None?)
        && (v.Some? ==> EntryIs(ParseEntry(text, at, d), name.value, v.value.value, ReadSpace(text, v.value.next).next))
    {
      hide At, ReadName, ReadSpace, ParseValue, SpellName, Spell, Strict, Height;
    }

    /** One turn of the object loop, in terms of the name and the value that it reads. */
    lemma ObjectTurn(first: nat, at: nat, d: nat, seen: seq<Member>)
      requires first <= |text| && at <= |text| && MembersContinue(text, first, at, d, seen)
      ensures ReadName(text, at).None? ==> ParseMembers(text, first, d).None?
      ensures ReadName(text, at).Some? ==>
        var name := ReadName(text, at).value;
        var v := ParseValue(text, name.next, d);
        && (v.None? ==> ParseMembers(text, first, d).None?)
        && (v.Some? ==> TurnOk(first, d, seen + [Member(CharsValue(name.value.chars), Denote(v.value.value))], v.value.next))
    {
      hide At, ReadName, ReadSpace, ParseValue, ParseMembers, SpellName, Spell, Strict, Height, MembersContinue, CharsValue, Denote;
      MembersTurn(text, first, at, d, seen);
      EntryAt(at, d);
    }

    /** Where the object loop goes from the value that ends at `next`. */
    ghost predicate TurnOk(first: nat, d: nat, more: seq<Member>, next: nat)
      requires first <= |text| && next <= |text|
    {
      var end := ReadSpace(text, next).next;
      && (Has(text, end, COMMA) ==> MembersContinue(text, first, ReadSpace(text, end + 1).next, d, more))
      && (Has(text, end, CLOSE_OBJECT) ==> MembersAre(ParseMembers(text, first, d), more, end + 1))
      && (!Has(text, end, COMMA) && !Has(text, end, CLOSE_OBJECT) ==> ParseMembers(text, first, d).None?)
    }

    lemma KeysSnoc(result: seq<Member>, m: Member)
      requires Distinct(Keys(result)) && m.key !in KeySet(result)
      ensures Distinct(Keys(result + [m])) && KeySet(result + [m]) == KeySet(result) + {m.key}
    {
      assert Keys(result + [m]) == Keys(result) + [m.key];
    }

    lemma NoMember(start: nat, first: nat, at: nat, d: nat, seen: seq<Member>, keys: set<Text>)
      requires Has(text, start, OPEN_OBJECT) && 0 < d <= MAX_DEPTH && first == ReadSpace(text, start + 1).next
      requires !Has(text, first, CLOSE_OBJECT) && at <= |text| && MembersContinue(text, first, at, d, seen)
      requires keys == KeySet(seen)
      requires ReadName(text, at).Some? ==> CharsValue(ReadName(text, at).value.value.chars) in keys
      ensures ParseObject(text, start, d).None?
    {
      hide ReadName, ReadSpace, ParseMembers, MembersContinue, Distinct, Keys;
      if ReadName(text, at).Some? {
        RepeatedName(text, first, at, d, seen);
      } else {
        EntryAt(at, d);
        MembersTurn(text, first, at, d, seen);
      }
      FailedObject(start, d);
    }

    method Array() returns (r: Option<Json>)
      requires Has(text, index, OPEN_ARRAY) && 0 < depth <= MAX_DEPTH
      modifies this
      ensures depth == old(depth)
      ensures r.Some? <==> ParseArray(text, old(index), old(depth)).Some?
      ensures r.Some? ==>
        var p := ParseArray(text, old(index), old(depth)).value;
        r.value == Denote(p.value) && index == p.next && old(index) < index <= |text|
      decreases |text| - index, 0
    {
      hide At, JsonGrammar.Space, ParseValue, ParseItems, SyntaxOk, Strict, Spell, Height, ReadSpace, ItemsContinue, Denote;
      hide ParseArray, ItemsAre, ItemsOk, DenoteItems;
      ghost var start := index;
      index := index + 1;
      Space();
      ghost var first := index;
      if index < |text| && text[index] == CLOSE_ARRAY {
        index := index + 1;
        EmptyArray(start, depth);
        return Some(JArray([]));
      }
      var result: seq<Json> := [];
      BeginItems(first, depth);
      while true
        invariant depth == old(depth) && start < first <= index <= |text|
        invariant first == ReadSpace(text, start + 1).next && !Has(text, first, CLOSE_ARRAY)
        invariant ItemsContinue(text, first, index, depth, result)
        decreases |text| - index
      {
        ItemsTurn(text, first, index, depth, result);
        ghost var at := index;
        var v := Value();
        if v.None? { FailedArray(start, depth); return None; }
        result := result + [v.value];
        Space();
        var separator := if index < |text| then Some(text[index]) else None;
        index := index + 1;
        if separator == Some(CLOSE_ARRAY) {
          FinishedArray(start, depth, result);
          return Some(JArray(result));
        }
        if separator != Some(COMMA) { FailedArray(start, depth); return None; }
        Space();
      }
    }

    lemma EmptyArray(start: nat, d: nat)
      requires Has(text, start, OPEN_ARRAY) && 0 < d <= MAX_DEPTH && Has(text, ReadSpace(text, start + 1).next, CLOSE_ARRAY)
      ensures ParseArray(text, start, d).Some?
      ensures Denote(ParseArray(text, start, d).value.value) == JArray([])
      ensures ParseArray(text, start, d).value.next == ReadSpace(text, start + 1).next + 1
    {
    }

    lemma EmptyObject(start: nat, d: nat)
      requires Has(text, start, OPEN_OBJECT) && 0 < d <= MAX_DEPTH && Has(text, ReadSpace(text, start + 1).next, CLOSE_OBJECT)
      ensures ParseObject(text, start, d).Some?
      ensures Denote(ParseObject(text, start, d).value.value) == JObject([])
      ensures ParseObject(text, start, d).value.next == ReadSpace(text, start + 1).next + 1
    {
    }

    lemma BeginItems(first: nat, d: nat)
      requires first <= |text|
      ensures ItemsContinue(text, first, first, d, [])
    {
      hide ParseItems;
    }

    lemma BeginMembers(first: nat, d: nat)
      requires first <= |text|
      ensures MembersContinue(text, first, first, d, []) && Distinct(Keys([])) && KeySet([]) == {}
    {
      hide ParseMembers;
    }

    lemma FailedArray(start: nat, d: nat)
      requires Has(text, start, OPEN_ARRAY) && 0 < d <= MAX_DEPTH && !Has(text, ReadSpace(text, start + 1).next, CLOSE_ARRAY)
      requires ParseItems(text, ReadSpace(text, start + 1).next, d).None?
      ensures ParseArray(text, start, d).None?
    {
      hide ParseItems;
    }

    lemma FinishedArray(start: nat, d: nat, result: seq<Json>)
      requires Has(text, start, OPEN_ARRAY) && 0 < d <= MAX_DEPTH && !Has(text, ReadSpace(text, start + 1).next, CLOSE_ARRAY)
      requires ItemsAre(ParseItems(text, ReadSpace(text, start + 1).next, d), result, index)
      ensures ParseArray(text, start, d).Some?
      ensures Denote(ParseArray(text, start, d).value.value) == JArray(result)
      ensures ParseArray(text, start, d).value.next == index
    {
      hide ParseItems;
    }

    lemma FinishedObject(start: nat, d: nat, result: seq<Member>)
      requires Has(text, start, OPEN_OBJECT) && 0 < d <= MAX_DEPTH && !Has(text, ReadSpace(text, start + 1).next, CLOSE_OBJECT)
      requires MembersAre(ParseMembers(text, ReadSpace(text, start + 1).next, d), result, index)
      requires Distinct(Keys(result))
      ensures ParseObject(text, start, d).Some?
      ensures Denote(ParseObject(text, start, d).value.value) == JObject(result)
      ensures ParseObject(text, start, d).value.next == index
    {
      hide ParseMembers, Distinct;
      NamesAreKeys(ParseMembers(text, ReadSpace(text, start + 1).next, d).value.value);
    }

    lemma FailedObject(start: nat, d: nat)
      requires Has(text, start, OPEN_OBJECT) && 0 < d <= MAX_DEPTH && !Has(text, ReadSpace(text, start + 1).next, CLOSE_OBJECT)
      requires var m := ParseMembers(text, ReadSpace(text, start + 1).next, d); m.Some? ==> !Distinct(Names(m.value.value))
      ensures ParseObject(text, start, d).None?
    {
      hide ParseMembers, Distinct;
    }

    lemma NoName(at: nat)
      requires at <= |text| && !Has(text, at, QUOTE)
      ensures ReadName(text, at).None?
    {
    }

    method String() returns (r: Option<Text>)
      requires Has(text, index, QUOTE)
      modifies this`index
      ensures r.Some? <==> ReadString(text, old(index)).Some?
      ensures r.Some? ==>
        var p := ReadString(text, old(index)).value;
        r.value == CharsValue(p.value) && index == p.next && old(index) < index <= |text|
    {
      hide At, CharsOk, ReadChars, SpellChars;
      var start := index;
      index := index + 1;
      var escaped := false;
      while index < |text|
        invariant start < index <= |text|
        invariant ClosingQuote(text, start + 1, false) == ClosingQuote(text, index, escaped)
      {
        var character := text[index];
        index := index + 1;
        if !escaped && character == QUOTE {
          var chars := ReadChars(text[start + 1..index - 1]);
          r := if chars.Some? then Some(CharsValue(chars.value)) else None;
          return;
        }
        escaped := !escaped && character == BACKSLASH;
      }
      r := None;
    }

    lemma WordSlice(i: nat, word: string)
      requires i + |word| <= |text|
      ensures At(text, i, A(word)) <==> text[i..i + |word|] == A(word)
    {
      AtSlice(text, i, i + |word|);
    }

    method Literal(word: string, s: Syntax) returns (r: Option<Json>)
      requires index <= |text| && SyntaxOk(s)
      modifies this`index
      ensures r.Some? <==> ReadWord(text, old(index), word, s).Some?
      ensures r.Some? ==> r.value == Denote(s) && index == ReadWord(text, old(index), word, s).value.next && index <= |text|
      ensures r.Some? ==> index == old(index) + |word|
    {
      if |text| < index + |word| { return None; }
      WordSlice(index, word);
      if text[index..index + |word|] != A(word) { return None; }
      index := index + |word|;
      r := Some(Denote(s));
    }

    method Number() returns (r: Option<Json>)
      requires index <= |text|
      modifies this`index
      ensures r.Some? <==> ReadNumber(text, old(index)).Some? && IsFinite(NumberValue(ReadNumber(text, old(index)).value.value))
      ensures r.Some? ==>
        var n := ReadNumber(text, old(index)).value;
        r.value == JNumber(NumberValue(n.value)) && index == n.next && old(index) < index <= |text|
    {
      var match_ := ReadNumber(text, index);
      if match_.None? { return None; }
      index := match_.value.next;
      var value := NumberValue(match_.value.value);
      if !IsFinite(value) { return None; }
      r := Some(JNumber(value));
    }

    method Space()
      requires index <= |text|
      modifies this`index
      ensures old(index) <= index <= |text| && index == ReadSpace(text, old(index)).next
    {
      while index < |text| && (text[index] == 32 || text[index] == 9 || text[index] == 13 || text[index] == 10)
        invariant old(index) <= index <= |text|
        invariant ReadSpace(text, index).next == ReadSpace(text, old(index)).next
      {
        index := index + 1;
      }
    }
  }

  /**
   `parseStrictJson` behind the UTF-8 decoder: it returns the value of the text if
   the text is strict JSON and fails otherwise.
   */
  method ParseStrictJson(text: Text) returns (r: Option<Json>)
    ensures forall v :: r == Some(v) <==> IsStrictJson(text, v)
  {
    var parser := new StrictJsonParser(text);
    r := parser.Parse();
    forall v ensures ParseText(text) == Some(v) <==> IsStrictJson(text, v) {
      StrictParserExact(text, v);
    }
  }
}
