/**
 The JSON grammar of RFC 8259, sections 2 to 7, as concrete syntax trees: what
 text a tree spells, what value it denotes, and the three extra demands of the
 strict parser (nesting height, finite numbers, distinct member names).
 */
module JsonGrammar {
  import opened Options
  import opened Texts

  datatype Json =
    | JNull
    | JBool(flag: bool)
    | JNumber(number: real)
    | JString(text: Text)
    | JArray(items: seq<Json>)
    | JObject(members: seq<Member>)

  datatype Member = Member(key: Text, value: Json)

  /** Section 7: an unescaped character, a two-character escape, or `\uXXXX`. */
  datatype Char = Plain(unit: Unit) | Short(letter: Unit) | Hex(a: Unit, b: Unit, c: Unit, d: Unit)

  /** Section 6: `[ minus ] int [ frac ] [ exp ]`; `fraction` holds the digits after the point. */
  datatype Number = Number(minus: bool, whole: Text, fraction: Text, exponent: Exponent)
  datatype Exponent = NoExponent | Exponent(mark: Unit, sign: Text, digits: Text)

  /** Section 3.  Texts named `lead`, `after`, `gap` and so on are insignificant white space. */
  datatype Syntax =
    | SNull | STrue | SFalse
    | SNumber(number: Number)
    | SString(chars: seq<Char>)
    | SEmptyArray(lead: Text)
    | SArray(lead: Text, items: Items)
    | SEmptyObject(lead: Text)
    | SObject(lead: Text, members: Members)

  datatype Items =
    | LastItem(value: Syntax, after: Text)
    | MoreItems(value: Syntax, after: Text, gap: Text, rest: Items)

  /** A member name, the colon after it, and the white space around the colon. */
  datatype Name = Name(chars: seq<Char>, beforeColon: Text, afterColon: Text)

  /** A member and the white space after it. */
  datatype Entry = Entry(name: Name, value: Syntax, after: Text)

  datatype Members = LastMember(entry: Entry) | MoreMembers(entry: Entry, gap: Text, rest: Members)

  // ---- characters

  const QUOTE: Unit := 34
  const BACKSLASH: Unit := 92
  const COMMA: Unit := 44
  const COLON: Unit := 58
  const OPEN_ARRAY: Unit := 91
  const CLOSE_ARRAY: Unit := 93
  const OPEN_OBJECT: Unit := 123
  const CLOSE_OBJECT: Unit := 125
  const MINUS: Unit := 45
  const PLUS: Unit := 43
  const POINT: Unit := 46
  const ZERO: Unit := 48

  predicate IsSpace(c: Unit) { c == 32 || c == 9 || c == 13 || c == 10 }

  predicate IsMark(c: Unit) { c == 101 || c == 69 }

  predicate IsSign(c: Unit) { c == PLUS || c == MINUS }

  predicate Space(t: Text) { forall k :: 0 <= k < |t| ==> IsSpace(t[k]) }

  predicate Digits(t: Text) { forall k :: 0 <= k < |t| ==> IsDigit(t[k]) }

  /** The escape letters of section 7: quote, backslash, solidus, b, f, n, r, t. */
  predicate IsEscape(c: Unit) {
    c == 34 || c == 92 || c == 47 || c == 98 || c == 102 || c == 110 || c == 114 || c == 116
  }

  function Unescape(c: Unit): Unit
    requires IsEscape(c)
  {
    if c == 98 then 8 else if c == 102 then 12 else if c == 110 then 10
    else if c == 114 then 13 else if c == 116 then 9 else c
  }

  // ---- strings

  predicate CharOk(c: Char) {
    match c
    case Plain(u) => u >= 0x20 && u != QUOTE && u != BACKSLASH
    case Short(l) => IsEscape(l)
    case Hex(w, x, y, z) => IsHex(w) && IsHex(x) && IsHex(y) && IsHex(z)
  }

  predicate CharsOk(cs: seq<Char>) { forall k :: 0 <= k < |cs| ==> CharOk(cs[k]) }

  function SpellChar(c: Char): (t: Text)
    ensures |t| >= 1
  {
    match c
    case Plain(u) => [u]
    case Short(l) => [BACKSLASH, l]
    case Hex(w, x, y, z) => [BACKSLASH, 117, w, x, y, z]
  }

  function CharValue(c: Char): Unit
    requires CharOk(c)
  {
    match c
    case Plain(u) => u
    case Short(l) => Unescape(l)
    case Hex(w, x, y, z) => HexUnit(w, x, y, z)
  }

  function HexUnit(w: Unit, x: Unit, y: Unit, z: Unit): Unit
    requires IsHex(w) && IsHex(x) && IsHex(y) && IsHex(z)
  {
    HexValue(w) * 4096 + HexValue(x) * 256 + HexValue(y) * 16 + HexValue(z)
  }

  function SpellChars(cs: seq<Char>): Text {
    if cs == [] then [] else SpellChar(cs[0]) + SpellChars(cs[1..])
  }

  function CharsValue(cs: seq<Char>): (t: Text)
    requires CharsOk(cs)
    ensures |t| == |cs|
  {
    if cs == [] then [] else [CharValue(cs[0])] + CharsValue(cs[1..])
  }

  function SpellString(cs: seq<Char>): Text {
    [QUOTE] + SpellChars(cs) + [QUOTE]
  }

  // ---- numbers

  predicate NumberOk(n: Number) {
    && Digits(n.whole) && |n.whole| > 0 && (n.whole[0] == ZERO ==> |n.whole| == 1)
    && Digits(n.fraction)
    && ExponentOk(n.exponent)
  }

  predicate ExponentOk(e: Exponent) {
    e.Exponent? ==>
      && IsMark(e.mark)
      && (e.sign == [] || (|e.sign| == 1 && IsSign(e.sign[0])))
      && Digits(e.digits) && |e.digits| > 0
  }

  function SpellMinus(minus: bool): Text { if minus then [MINUS] else [] }

  function SpellFraction(digits: Text): Text { if digits == [] then [] else [POINT] + digits }

  function SpellExponent(e: Exponent): Text {
    if e.NoExponent? then [] else [e.mark] + e.sign + e.digits
  }

  function SpellNumber(n: Number): Text {
    SpellMinus(n.minus) + n.whole + SpellFraction(n.fraction) + SpellExponent(n.exponent)
  }

  function Natural(t: Text): nat
    requires Digits(t)
  {
    if t == [] then 0 else Natural(t[..|t| - 1]) * 10 + (t[|t| - 1] - 48)
  }

  function Power10(n: nat): (r: real)
    ensures r > 0.0
  {
    if n == 0 then 1.0 else 10.0 * Power10(n - 1)
  }

  /** The exact decimal value. */
  function NumberValue(n: Number): real
    requires NumberOk(n)
  {
    var digits := Natural(n.whole) as real + Natural(n.fraction) as real / Power10(|n.fraction|);
    var scaled :=
      if n.exponent.NoExponent? then digits
      else if n.exponent.sign == [MINUS] then digits / Power10(Natural(n.exponent.digits))
      else digits * Power10(Natural(n.exponent.digits));
    if n.minus then -scaled else scaled
  }

  /** 2^1024 - 2^970, the least magnitude that rounds to an infinite double. */
  const OVERFLOW: real :=
    0xFFFFFFFFFFFFFC00000000000000000000000000000000000000000000000000000000000000000000000000000000000000000000000000000000000000000000000000000000000000000000000000000000000000000000000000000000000000000000000000000000000000000000000000000000000000000000000000 as real

  /** `Number.isFinite` of the nearest double. */
  predicate IsFinite(r: real) { -OVERFLOW < r < OVERFLOW }

  // ---- values

  function Spell(s: Syntax): Text {
    match s
    case SNull => A("null")
    case STrue => A("true")
    case SFalse => A("false")
    case SNumber(n) => SpellNumber(n)
    case SString(cs) => SpellString(cs)
    case SEmptyArray(lead) => [OPEN_ARRAY] + lead + [CLOSE_ARRAY]
    case SArray(lead, items) => [OPEN_ARRAY] + lead + SpellItems(items)
    case SEmptyObject(lead) => [OPEN_OBJECT] + lead + [CLOSE_OBJECT]
    case SObject(lead, members) => [OPEN_OBJECT] + lead + SpellMembers(members)
  }

  /** From the first item to the closing bracket. */
  function SpellItems(items: Items): Text {
    match items
    case LastItem(v, after) => Spell(v) + after + [CLOSE_ARRAY]
    case MoreItems(v, after, gap, rest) => Spell(v) + after + [COMMA] + gap + SpellItems(rest)
  }

  function SpellName(name: Name): Text {
    SpellString(name.chars) + name.beforeColon + [COLON] + name.afterColon
  }

  function SpellEntry(entry: Entry): Text {
    SpellName(entry.name) + Spell(entry.value) + entry.after
  }

  /** From the first member name to the closing brace. */
  function SpellMembers(members: Members): Text {
    match members
    case LastMember(entry) => SpellEntry(entry) + [CLOSE_OBJECT]
    case MoreMembers(entry, gap, rest) => SpellEntry(entry) + [COMMA] + gap + SpellMembers(rest)
  }

  predicate SyntaxOk(s: Syntax) {
    match s
    case SNumber(n) => NumberOk(n)
    case SString(cs) => CharsOk(cs)
    case SEmptyArray(lead) => Space(lead)
    case SArray(lead, items) => Space(lead) && ItemsOk(items)
    case SEmptyObject(lead) => Space(lead)
    case SObject(lead, members) => Space(lead) && MembersOk(members)
    case _ => true
  }

  predicate ItemsOk(items: Items) {
    && Space(items.after) && SyntaxOk(items.value)
    && (items.MoreItems? ==> Space(items.gap) && ItemsOk(items.rest))
  }

  predicate NameOk(name: Name) {
    CharsOk(name.chars) && Space(name.beforeColon) && Space(name.afterColon)
  }

  predicate MembersOk(members: Members) {
    && NameOk(members.entry.name) && SyntaxOk(members.entry.value) && Space(members.entry.after)
    && (members.MoreMembers? ==> Space(members.gap) && MembersOk(members.rest))
  }

  predicate EntryOk(entry: Entry) {
    NameOk(entry.name) && SyntaxOk(entry.value) && Space(entry.after)
  }

  function Denote(s: Syntax): Json
    requires SyntaxOk(s)
  {
    match s
    case SNull => JNull
    case STrue => JBool(true)
    case SFalse => JBool(false)
    case SNumber(n) => JNumber(NumberValue(n))
    case SString(cs) => JString(CharsValue(cs))
    case SEmptyArray(_) => JArray([])
    case SArray(_, items) => JArray(DenoteItems(items))
    case SEmptyObject(_) => JObject([])
    case SObject(_, members) => JObject(DenoteMembers(members))
  }

  function DenoteItems(items: Items): seq<Json>
    requires ItemsOk(items)
  {
    [Denote(items.value)] + (if items.LastItem? then [] else DenoteItems(items.rest))
  }

  function DenoteMembers(members: Members): seq<Member>
    requires MembersOk(members)
  {
    [Member(Key(members.entry), Denote(members.entry.value))]
    + (if members.LastMember? then [] else DenoteMembers(members.rest))
  }

  // ---- the extra demands of the strict parser

  function Max(a: nat, b: nat): nat { if a < b then b else a }

  /** Levels of nesting; a scalar and an empty container count one. */
  function Height(s: Syntax): (h: nat)
    ensures h >= 1
  {
    match s
    case SArray(_, items) => 1 + ItemsHeight(items)
    case SObject(_, members) => 1 + MembersHeight(members)
    case _ => 1
  }

  function ItemsHeight(items: Items): nat {
    if items.LastItem? then Height(items.value) else Max(Height(items.value), ItemsHeight(items.rest))
  }

  function MembersHeight(members: Members): nat {
    if members.LastMember? then Height(members.entry.value) else Max(Height(members.entry.value), MembersHeight(members.rest))
  }

  /** The decoded member name. */
  function Key(entry: Entry): Text
    requires EntryOk(entry)
  {
    CharsValue(entry.name.chars)
  }

  function Names(members: Members): (names: seq<Text>)
    requires MembersOk(members)
    ensures |names| >= 1
  {
    [Key(members.entry)] + (if members.LastMember? then [] else Names(members.rest))
  }

  predicate Distinct(names: seq<Text>) {
    forall j, k :: 0 <= j < k < |names| ==> names[j] != names[k]
  }

  /** Every number is finite and no object, at any depth, repeats a decoded member name. */
  predicate Strict(s: Syntax)
    requires SyntaxOk(s)
  {
    match s
    case SNumber(n) => IsFinite(NumberValue(n))
    case SArray(_, items) => StrictItems(items)
    case SObject(_, members) => StrictMembers(members) && Distinct(Names(members))
    case _ => true
  }

  predicate StrictItems(items: Items)
    requires ItemsOk(items)
  {
    Strict(items.value) && (items.MoreItems? ==> StrictItems(items.rest))
  }

  predicate StrictMembers(members: Members)
    requires MembersOk(members)
  {
    Strict(members.entry.value) && (members.MoreMembers? ==> StrictMembers(members.rest))
  }

  const MAX_DEPTH: nat := 32

  /** `t` is a JSON text (section 2) that spells `v` and meets the strict demands. */
  ghost predicate IsStrictJson(t: Text, v: Json) {
    exists lead, s, trail ::
      && Space(lead) && Space(trail) && SyntaxOk(s)
      && t == lead + Spell(s) + trail
      && Denote(s) == v && Strict(s) && Height(s) <= MAX_DEPTH
  }
}
