/**
 `JSON.stringify` with and without an indent, and its round trip through the
 strict parser.
 */
module JsonText {
  import opened Options
  import opened Texts
  import opened JsonGrammar
  import opened StrictParser
  import opened StrictComplete

  // ---- strings

  /** One code unit that is not half of a surrogate pair. */
  function QuoteUnit(u: Unit): Char {
    if u == 8 then Short(98)
    else if u == 9 then Short(116)
    else if u == 10 then Short(110)
    else if u == 12 then Short(102)
    else if u == 13 then Short(114)
    else if u == QUOTE || u == BACKSLASH then Short(u)
    else if 0 <= u < 0x20 || IsLead(u) || IsTrail(u) then
      Hex(HexDigit(u / 16 / 16 / 16), HexDigit(u / 16 / 16 % 16), HexDigit(u / 16 % 16), HexDigit(u % 16))
    else Plain(u)
  }

  /** The characters that `JSON.stringify` writes for a string: lone surrogates escaped, pairs kept. */
  function Quote(t: Text): seq<Char>
    decreases |t|
  {
    if t == [] then []
    else if |t| >= 2 && IsLead(t[0]) && IsTrail(t[1]) then [Plain(t[0]), Plain(t[1])] + Quote(t[2..])
    else [QuoteUnit(t[0])] + Quote(t[1..])
  }

  lemma QuoteUnitValue(u: Unit)
    requires u >= 0
    ensures CharOk(QuoteUnit(u)) && CharValue(QuoteUnit(u)) == u
  {
    if QuoteUnit(u).Hex? {
      HexDigitsValue(u);
    }
  }

  lemma HexDigitsValue(u: Unit)
    requires 0 <= u < 0x1_0000
    ensures u / 16 / 16 / 16 < 16
    ensures HexUnit(HexDigit(u / 16 / 16 / 16), HexDigit(u / 16 / 16 % 16), HexDigit(u / 16 % 16), HexDigit(u % 16)) == u
  {
    var a := u / 16;
    var b := a / 16;
    var c := b / 16;
    assert u == a * 16 + u % 16 && a == b * 16 + a % 16 && b == c * 16 + b % 16;
  }

  lemma CharsConcat(a: seq<Char>, b: seq<Char>)
    requires CharsOk(a) && CharsOk(b)
    ensures CharsOk(a + b) && CharsValue(a + b) == CharsValue(a) + CharsValue(b)
  {
    if a == [] {
      assert a + b == b;
    } else {
      assert (a + b)[1..] == a[1..] + b;
      CharsConcat(a[1..], b);
    }
  }

  lemma {:induction false} QuoteValue(t: Text)
    requires IsText(t)
    ensures CharsOk(Quote(t)) && CharsValue(Quote(t)) == t
    decreases |t|
  {
    if t != [] {
      if |t| >= 2 && IsLead(t[0]) && IsTrail(t[1]) {
        QuoteValue(t[2..]);
        CharsConcat([Plain(t[0]), Plain(t[1])], Quote(t[2..]));
        assert CharsValue([Plain(t[0]), Plain(t[1])]) == [t[0]] + CharsValue([Plain(t[1])]);
        assert t == [t[0], t[1]] + t[2..];
      } else {
        QuoteUnitValue(t[0]);
        QuoteValue(t[1..]);
        CharsConcat([QuoteUnit(t[0])], Quote(t[1..]));
        assert t == [t[0]] + t[1..];
      }
    }
  }

  // ---- integers

  function Decimal(n: nat): (t: Text)
    ensures |t| > 0
  {
    if n < 10 then [48 + n] else Decimal(n / 10) + [48 + n % 10]
  }

  lemma {:induction false} DecimalValue(n: nat)
    ensures Digits(Decimal(n)) && Natural(Decimal(n)) == n
    ensures Decimal(n)[0] == ZERO ==> |Decimal(n)| == 1
    ensures n > 0 ==> Decimal(n)[0] != ZERO
  {
    if n >= 10 {
      DecimalValue(n / 10);
      var t := Decimal(n);
      assert t[..|t| - 1] == Decimal(n / 10);
    } else {
      assert Natural([48 + n]) == Natural([]) * 10 + n;
    }
  }

  function Integer(n: int): Number {
    Number(n < 0, Decimal(if n < 0 then -n else n), [], NoExponent)
  }

  const MAX_SAFE_INTEGER: int := 9007199254740991

  predicate IsSafe(r: real) { r == r.Floor as real && -MAX_SAFE_INTEGER <= r.Floor <= MAX_SAFE_INTEGER }

  lemma IntegerValue(n: int)
    ensures NumberOk(Integer(n)) && NumberValue(Integer(n)) == n as real
  {
    DecimalValue(if n < 0 then -n else n);
  }

  // ---- values

  /** The values the registry writes: integral numbers, code units in range, distinct names. */
  predicate Printable(v: Json) {
    match v
    case JNumber(r) => IsSafe(r)
    case JString(t) => IsText(t)
    case JArray(items) => forall k :: 0 <= k < |items| ==> Printable(items[k])
    case JObject(ms) =>
      && (forall k :: 0 <= k < |ms| ==> IsText(ms[k].key) && Printable(ms[k].value))
      && (forall j, k :: 0 <= j < k < |ms| ==> ms[j].key != ms[k].key)
    case _ => true
  }

  /** Nesting within `limit` levels, counted as the parser does. */
  predicate Within(v: Json, limit: nat) {
    && limit > 0
    && (v.JArray? ==> forall k :: 0 <= k < |v.items| ==> Within(v.items[k], limit - 1))
    && (v.JObject? ==> forall k :: 0 <= k < |v.members| ==> Within(v.members[k].value, limit - 1))
  }

  function NewLine(gap: Text, indent: Text): Text { if gap == [] then [] else [10] + indent }

  /** The text of a value: `gap` is the third argument of `JSON.stringify`, `indent` the current indentation. */
  function Stringify(v: Json, gap: Text, indent: Text): Text
    decreases v
  {
    match v
    case JNull => A("null")
    case JBool(b) => if b then A("true") else A("false")
    case JNumber(r) => SpellNumber(Integer(r.Floor))
    case JString(t) => SpellString(Quote(t))
    case JArray(items) =>
      if items == [] then A("[]")
      else A("[") + NewLine(gap, indent + gap) + JoinItems(items, gap, indent + gap) + NewLine(gap, indent) + A("]")
    case JObject(ms) =>
      if ms == [] then A("{}")
      else A("{") + NewLine(gap, indent + gap) + JoinMembers(ms, gap, indent + gap) + NewLine(gap, indent) + A("}")
  }

  function JoinItems(items: seq<Json>, gap: Text, indent: Text): Text
    requires |items| > 0
    decreases items
  {
    Stringify(items[0], gap, indent)
    + (if |items| == 1 then [] else A(",") + NewLine(gap, indent) + JoinItems(items[1..], gap, indent))
  }

  function JoinMembers(ms: seq<Member>, gap: Text, indent: Text): Text
    requires |ms| > 0
    decreases ms
  {
    SpellString(Quote(ms[0].key)) + A(":") + (if gap == [] then [] else A(" ")) + Stringify(ms[0].value, gap, indent)
    + (if |ms| == 1 then [] else A(",") + NewLine(gap, indent) + JoinMembers(ms[1..], gap, indent))
  }

  /** The syntax tree of that text. */
  function Layout(v: Json, gap: Text, indent: Text): Syntax
    decreases v
  {
    match v
    case JNull => SNull
    case JBool(b) => if b then STrue else SFalse
    case JNumber(r) => SNumber(Integer(r.Floor))
    case JString(t) => SString(Quote(t))
    case JArray(items) =>
      if items == [] then SEmptyArray([])
      else SArray(NewLine(gap, indent + gap), LayoutItems(items, gap, indent + gap, NewLine(gap, indent)))
    case JObject(ms) =>
      if ms == [] then SEmptyObject([])
      else SObject(NewLine(gap, indent + gap), LayoutMembers(ms, gap, indent + gap, NewLine(gap, indent)))
  }

  function LayoutItems(items: seq<Json>, gap: Text, indent: Text, close: Text): Items
    requires |items| > 0
    decreases items
  {
    if |items| == 1 then LastItem(Layout(items[0], gap, indent), close)
    else MoreItems(Layout(items[0], gap, indent), [], NewLine(gap, indent), LayoutItems(items[1..], gap, indent, close))
  }

  function LayoutEntry(m: Member, gap: Text, indent: Text, after: Text): Entry
    decreases m
  {
    Entry(Name(Quote(m.key), [], if gap == [] then [] else A(" ")), Layout(m.value, gap, indent), after)
  }

  function LayoutMembers(ms: seq<Member>, gap: Text, indent: Text, close: Text): Members
    requires |ms| > 0
    decreases ms
  {
    if |ms| == 1 then LastMember(LayoutEntry(ms[0], gap, indent, close))
    else MoreMembers(LayoutEntry(ms[0], gap, indent, []), NewLine(gap, indent), LayoutMembers(ms[1..], gap, indent, close))
  }

  // ---- the text is the spelling of the tree

  lemma {:induction false} LayoutSpells(v: Json, gap: Text, indent: Text)
    ensures Spell(Layout(v, gap, indent)) == Stringify(v, gap, indent)
    decreases v
  {
    match v
    case JArray(items) => ArraySpells(items, gap, indent);
    case JObject(ms) => ObjectSpells(ms, gap, indent);
    case _ => hide SpellString, SpellNumber;
  }

  lemma {:induction false} ArraySpells(items: seq<Json>, gap: Text, indent: Text)
    ensures Spell(Layout(JArray(items), gap, indent)) == Stringify(JArray(items), gap, indent)
    decreases JArray(items), 0
  {
    hide LayoutItems, JoinItems, SpellItems;
    if items != [] {
      ItemsSpell(items, gap, indent + gap, NewLine(gap, indent));
    }
  }

  lemma {:induction false} ObjectSpells(ms: seq<Member>, gap: Text, indent: Text)
    ensures Spell(Layout(JObject(ms), gap, indent)) == Stringify(JObject(ms), gap, indent)
    decreases JObject(ms), 0
  {
    hide LayoutMembers, JoinMembers, SpellMembers;
    if ms != [] {
      MembersSpell(ms, gap, indent + gap, NewLine(gap, indent));
    }
  }

  lemma {:induction false} ItemsSpell(items: seq<Json>, gap: Text, indent: Text, close: Text)
    requires |items| > 0
    ensures SpellItems(LayoutItems(items, gap, indent, close)) == JoinItems(items, gap, indent) + close + A("]")
    decreases items
  {
    LayoutSpells(items[0], gap, indent);
    if |items| > 1 {
      ItemsSpell(items[1..], gap, indent, close);
    }
  }

  lemma {:induction false} EntrySpells(m: Member, gap: Text, indent: Text, after: Text)
    ensures SpellEntry(LayoutEntry(m, gap, indent, after))
      == SpellString(Quote(m.key)) + A(":") + (if gap == [] then [] else A(" ")) + Stringify(m.value, gap, indent) + after
    decreases m
  {
    LayoutSpells(m.value, gap, indent);
  }

  lemma {:induction false} MembersSpell(ms: seq<Member>, gap: Text, indent: Text, close: Text)
    requires |ms| > 0
    ensures SpellMembers(LayoutMembers(ms, gap, indent, close)) == JoinMembers(ms, gap, indent) + close + A("}")
    decreases ms
  {
    hide Stringify, Layout, Quote, SpellString, SpellEntry, LayoutEntry;
    if |ms| > 1 {
      EntrySpells(ms[0], gap, indent, []);
      MembersSpell(ms[1..], gap, indent, close);
    } else {
      EntrySpells(ms[0], gap, indent, close);
    }
  }

  // ---- the tree is grammatical, strict, and denotes the value

  predicate Means(s: Syntax, v: Json, limit: nat) {
    SyntaxOk(s) && Strict(s) && Height(s) <= limit && Denote(s) == v
  }

  lemma NewLineSpace(gap: Text, indent: Text)
    requires Space(gap) && Space(indent)
    ensures Space(NewLine(gap, indent)) && Space(indent + gap) && Space(A(" "))
  {
  }

  lemma {:induction false} LayoutMeans(v: Json, gap: Text, indent: Text, limit: nat)
    requires Printable(v) && Within(v, limit) && Space(gap) && Space(indent)
    ensures Means(Layout(v, gap, indent), v, limit)
    decreases v
  {
    match v
    case JNumber(r) => IntegerValue(r.Floor);
    case JString(t) => QuoteValue(t);
    case JArray(items) => ArrayMeans(items, gap, indent, limit);
    case JObject(ms) => ObjectMeans(ms, gap, indent, limit);
    case _ =>
  }

  lemma {:induction false} ArrayMeans(items: seq<Json>, gap: Text, indent: Text, limit: nat)
    requires Printable(JArray(items)) && Within(JArray(items), limit) && Space(gap) && Space(indent)
    ensures Means(Layout(JArray(items), gap, indent), JArray(items), limit)
    decreases JArray(items), 0
  {
    hide LayoutItems, JsonGrammar.Space;
    NewLineSpace(gap, indent);
    NewLineSpace(gap, indent + gap);
    if items != [] {
      ItemsMean(items, gap, indent + gap, NewLine(gap, indent), limit - 1);
    } else {
      EmptySpace();
    }
  }

  lemma EmptySpace()
    ensures Space([])
  {
  }

  lemma {:induction false} ObjectMeans(ms: seq<Member>, gap: Text, indent: Text, limit: nat)
    requires Printable(JObject(ms)) && Within(JObject(ms), limit) && Space(gap) && Space(indent)
    ensures Means(Layout(JObject(ms), gap, indent), JObject(ms), limit)
    decreases JObject(ms), 0
  {
    hide LayoutMembers, JsonGrammar.Space;
    NewLineSpace(gap, indent);
    NewLineSpace(gap, indent + gap);
    if ms != [] {
      MembersMean(ms, gap, indent + gap, NewLine(gap, indent), limit - 1);
    } else {
      EmptySpace();
    }
  }

  lemma {:induction false} ItemsMean(items: seq<Json>, gap: Text, indent: Text, close: Text, limit: nat)
    requires |items| > 0 && Space(gap) && Space(indent) && Space(close)
    requires forall k :: 0 <= k < |items| ==> Printable(items[k]) && Within(items[k], limit)
    ensures var t := LayoutItems(items, gap, indent, close);
      ItemsOk(t) && StrictItems(t) && ItemsHeight(t) <= limit && DenoteItems(t) == items
    decreases items
  {
    NewLineSpace(gap, indent);
    LayoutMeans(items[0], gap, indent, limit);
    if |items| > 1 {
      ItemsMean(items[1..], gap, indent, close, limit);
    }
    assert items == [items[0]] + items[1..];
  }

  lemma {:induction false} EntryMeans(m: Member, gap: Text, indent: Text, after: Text, limit: nat)
    requires Space(gap) && Space(indent) && Space(after) && IsText(m.key) && Printable(m.value) && Within(m.value, limit)
    ensures var e := LayoutEntry(m, gap, indent, after);
      EntryOk(e) && Key(e) == m.key && Means(e.value, m.value, limit)
    decreases m
  {
    NewLineSpace(gap, indent);
    QuoteValue(m.key);
    LayoutMeans(m.value, gap, indent, limit);
  }

  lemma {:induction false} MembersMean(ms: seq<Member>, gap: Text, indent: Text, close: Text, limit: nat)
    requires |ms| > 0 && Space(gap) && Space(indent) && Space(close)
    requires forall k :: 0 <= k < |ms| ==> IsText(ms[k].key) && Printable(ms[k].value) && Within(ms[k].value, limit)
    requires forall j, k :: 0 <= j < k < |ms| ==> ms[j].key != ms[k].key
    ensures var t := LayoutMembers(ms, gap, indent, close);
      && MembersOk(t) && StrictMembers(t) && MembersHeight(t) <= limit && DenoteMembers(t) == ms
      && |Names(t)| == |ms| && (forall k :: 0 <= k < |ms| ==> Names(t)[k] == ms[k].key)
    decreases ms
  {
    NewLineSpace(gap, indent);
    if |ms| > 1 {
      EntryMeans(ms[0], gap, indent, [], limit);
      MembersMean(ms[1..], gap, indent, close, limit);
    } else {
      EntryMeans(ms[0], gap, indent, close, limit);
    }
    assert ms == [ms[0]] + ms[1..];
  }

  lemma NewlineParses(s: Syntax)
    requires SyntaxOk(s) && Strict(s) && Height(s) <= MAX_DEPTH
    ensures ParseText(Spell(s) + [10]) == Some(Denote(s))
  {
    hide ParseText, Spell, Denote, Strict, SyntaxOk, Height;
    TextComplete([], s, [10]);
    assert [] + Spell(s) == Spell(s);
  }

  /** Parsing what `JSON.stringify` wrote, with any white-space indent and a final newline, gives the value back. */
  lemma StringifyRoundTrip(v: Json, gap: Text)
    requires Printable(v) && Within(v, MAX_DEPTH) && Space(gap)
    ensures ParseText(Stringify(v, gap, []) + [10]) == Some(v)
  {
    hide ParseText, Spell, Stringify, Layout, Denote, Strict, SyntaxOk, Height, Printable, Within;
    LayoutMeans(v, gap, [], MAX_DEPTH);
    LayoutSpells(v, gap, []);
    NewlineParses(Layout(v, gap, []));
  }

  // ---- the text is well-formed UTF-16, so that encoding it as UTF-8 loses nothing

  /** Every surrogate is half of a pair. */
  predicate WellFormed(t: Text)
    decreases |t|
  {
    if t == [] then true
    else if IsLead(t[0]) then |t| >= 2 && IsTrail(t[1]) && WellFormed(t[2..])
    else !IsTrail(t[0]) && WellFormed(t[1..])
  }

  lemma {:induction false} WellFormedConcat(a: Text, b: Text)
    requires WellFormed(a) && WellFormed(b)
    ensures WellFormed(a + b)
    decreases |a|
  {
    if a == [] {
      assert a + b == b;
    } else if IsLead(a[0]) {
      assert (a + b)[2..] == a[2..] + b;
      WellFormedConcat(a[2..], b);
    } else {
      assert (a + b)[1..] == a[1..] + b;
      WellFormedConcat(a[1..], b);
    }
  }

  lemma {:induction false} LowIsWellFormed(t: Text)
    requires forall k :: 0 <= k < |t| ==> 0 <= t[k] < 0xD800
    ensures WellFormed(t)
  {
    if t != [] {
      LowIsWellFormed(t[1..]);
    }
  }

  lemma {:induction false} QuotedIsWellFormed(t: Text)
    requires IsText(t)
    ensures WellFormed(SpellChars(Quote(t)))
    decreases |t|
  {
    hide WellFormed, QuoteUnit;
    if t == [] {
      LowIsWellFormed([]);
    } else {
      if |t| >= 2 && IsLead(t[0]) && IsTrail(t[1]) {
        QuotedIsWellFormed(t[2..]);
        QuotedPair(t[0], t[1], Quote(t[2..]));
      } else {
        QuotedIsWellFormed(t[1..]);
        assert Quote(t)[1..] == Quote(t[1..]);
        UnitIsWellFormed(t[0]);
        WellFormedConcat(SpellChar(QuoteUnit(t[0])), SpellChars(Quote(t[1..])));
      }
    }
  }

  lemma QuotedPair(lead: Unit, trail: Unit, rest: seq<Char>)
    requires IsLead(lead) && IsTrail(trail) && WellFormed(SpellChars(rest))
    ensures WellFormed(SpellChars([Plain(lead), Plain(trail)] + rest))
  {
    hide WellFormed;
    var chars := [Plain(lead), Plain(trail)] + rest;
    assert chars[1..] == [Plain(trail)] + rest && chars[1..][1..] == rest;
    PairIsWellFormed(lead, trail);
    WellFormedConcat([lead, trail], SpellChars(rest));
    assert SpellChars(chars) == [lead, trail] + SpellChars(rest);
  }

  lemma PairIsWellFormed(lead: Unit, trail: Unit)
    requires IsLead(lead) && IsTrail(trail)
    ensures WellFormed([lead, trail])
  {
    assert [lead, trail][2..] == [];
  }

  lemma UnitIsWellFormed(u: Unit)
    requires u >= 0
    ensures WellFormed(SpellChar(QuoteUnit(u)))
  {
    var t := SpellChar(QuoteUnit(u));
    if QuoteUnit(u).Plain? {
      assert t[1..] == [];
    } else {
      LowIsWellFormed(t);
    }
  }

  lemma {:induction false} LiteralIsWellFormed(s: string)
    requires forall k :: 0 <= k < |s| ==> s[k] as int < 0xD800
    ensures WellFormed(A(s))
  {
    LowIsWellFormed(A(s));
  }

  lemma SpaceIsWellFormed(t: Text)
    requires Space(t)
    ensures WellFormed(t)
  {
    LowIsWellFormed(t);
  }

  lemma NumberIsWellFormed(n: int)
    ensures WellFormed(SpellNumber(Integer(n)))
  {
    DecimalValue(if n < 0 then -n else n);
    LowIsWellFormed(SpellNumber(Integer(n)));
  }

  lemma StringIsWellFormed(t: Text)
    requires IsText(t)
    ensures WellFormed(SpellString(Quote(t)))
  {
    QuotedIsWellFormed(t);
    LowIsWellFormed([QUOTE]);
    WellFormedConcat([QUOTE], SpellChars(Quote(t)));
    WellFormedConcat([QUOTE] + SpellChars(Quote(t)), [QUOTE]);
  }

  lemma {:induction false} StringifyIsWellFormed(v: Json, gap: Text, indent: Text)
    requires Printable(v) && Space(gap) && Space(indent)
    ensures WellFormed(Stringify(v, gap, indent))
    decreases v
  {
    hide JoinItems, JoinMembers, SpellString, SpellNumber, WellFormed;
    match v
    case JNull => LiteralIsWellFormed("null");
    case JBool(b) => LiteralIsWellFormed("true"); LiteralIsWellFormed("false");
    case JNumber(r) => NumberIsWellFormed(r.Floor);
    case JString(t) => StringIsWellFormed(t);
    case JArray(items) =>
      if items == [] {
        LiteralIsWellFormed("[]");
      } else {
        ItemsAreWellFormed(items, gap, indent + gap);
        BracketsAreWellFormed("[", NewLine(gap, indent + gap), JoinItems(items, gap, indent + gap), NewLine(gap, indent), "]");
      }
    case JObject(ms) =>
      if ms == [] {
        LiteralIsWellFormed("{}");
      } else {
        MembersAreWellFormed(ms, gap, indent + gap);
        BracketsAreWellFormed("{", NewLine(gap, indent + gap), JoinMembers(ms, gap, indent + gap), NewLine(gap, indent), "}");
      }
  }

  lemma BracketsAreWellFormed(open: string, first: Text, body: Text, last: Text, close: string)
    requires forall k :: 0 <= k < |open| ==> open[k] as int < 0xD800
    requires forall k :: 0 <= k < |close| ==> close[k] as int < 0xD800
    requires Space(first) && WellFormed(body) && Space(last)
    ensures WellFormed(A(open) + first + body + last + A(close))
  {
    hide WellFormed;
    LiteralIsWellFormed(open);
    LiteralIsWellFormed(close);
    SpaceIsWellFormed(first);
    SpaceIsWellFormed(last);
    WellFormedConcat(A(open), first);
    WellFormedConcat(A(open) + first, body);
    WellFormedConcat(A(open) + first + body, last);
    WellFormedConcat(A(open) + first + body + last, A(close));
  }

  lemma {:induction false} ItemsAreWellFormed(items: seq<Json>, gap: Text, indent: Text)
    requires |items| > 0 && Space(gap) && Space(indent) && forall k :: 0 <= k < |items| ==> Printable(items[k])
    ensures WellFormed(JoinItems(items, gap, indent))
    decreases items
  {
    hide Stringify, WellFormed;
    StringifyIsWellFormed(items[0], gap, indent);
    if |items| == 1 {
      assert Stringify(items[0], gap, indent) + [] == Stringify(items[0], gap, indent);
    } else {
      ItemsAreWellFormed(items[1..], gap, indent);
      ContinuationIsWellFormed(Stringify(items[0], gap, indent), NewLine(gap, indent), JoinItems(items[1..], gap, indent));
    }
  }

  lemma ContinuationIsWellFormed(first: Text, gap: Text, rest: Text)
    requires WellFormed(first) && Space(gap) && WellFormed(rest)
    ensures WellFormed(first + (A(",") + gap + rest))
  {
    hide WellFormed;
    LiteralIsWellFormed(",");
    SpaceIsWellFormed(gap);
    WellFormedConcat(A(","), gap);
    WellFormedConcat(A(",") + gap, rest);
    WellFormedConcat(first, A(",") + gap + rest);
  }

  lemma {:induction false} MemberIsWellFormed(m: Member, gap: Text, indent: Text)
    requires Space(gap) && Space(indent) && IsText(m.key) && Printable(m.value)
    ensures WellFormed(SpellString(Quote(m.key)) + A(":") + (if gap == [] then [] else A(" ")) + Stringify(m.value, gap, indent))
    decreases m
  {
    hide Stringify, WellFormed, SpellString;
    StringIsWellFormed(m.key);
    LiteralIsWellFormed(":");
    var blank := if gap == [] then [] else A(" ");
    SpaceIsWellFormed(blank) by { NewLineSpace([], []); }
    StringifyIsWellFormed(m.value, gap, indent);
    WellFormedConcat(SpellString(Quote(m.key)), A(":"));
    WellFormedConcat(SpellString(Quote(m.key)) + A(":"), blank);
    WellFormedConcat(SpellString(Quote(m.key)) + A(":") + blank, Stringify(m.value, gap, indent));
  }

  lemma {:induction false} MembersAreWellFormed(ms: seq<Member>, gap: Text, indent: Text)
    requires |ms| > 0 && Space(gap) && Space(indent)
    requires forall k :: 0 <= k < |ms| ==> IsText(ms[k].key) && Printable(ms[k].value)
    ensures WellFormed(JoinMembers(ms, gap, indent))
    decreases ms
  {
    hide Stringify, WellFormed, SpellString;
    MemberIsWellFormed(ms[0], gap, indent);
    var first := SpellString(Quote(ms[0].key)) + A(":") + (if gap == [] then [] else A(" ")) + Stringify(ms[0].value, gap, indent);
    if |ms| == 1 {
      assert first + [] == first;
    } else {
      MembersAreWellFormed(ms[1..], gap, indent);
      ContinuationIsWellFormed(first, NewLine(gap, indent), JoinMembers(ms[1..], gap, indent));
    }
  }
}
