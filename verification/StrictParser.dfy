module StrictParser {
  /**
   What `StrictJsonParser` of connection-registry-model.ts computes, as functions
   of the text, an index and the current depth.  A reading function returns the
   grammar's tree and the index behind it; None stands for a thrown
   `registry_invalid`.  The contracts say that the parser is sound: the tree is
   spelled between the two indices and meets the strict demands.
   */

  import opened Options
  import opened Texts
  import opened JsonGrammar

  datatype Parsed<+T> = Parsed(value: T, next: nat)

  /** The text has the character `c` at index `i`. */
  predicate Has(t: Text, i: nat, c: Unit) { i < |t| && t[i] == c }

  /** `piece` stands in the text from `i` up to `j`. */
  predicate Span(t: Text, i: nat, piece: Text, j: nat) { At(t, i, piece) && j == i + |piece| }

  lemma Span2(t: Text, i: nat, p: Text, j: nat, q: Text, k: nat)
    requires Span(t, i, p, j) && Span(t, j, q, k)
    ensures Span(t, i, p + q, k)
  {
    AtConcat(t, i, p, q);
  }

  lemma Span3(t: Text, i: nat, p: Text, j: nat, q: Text, k: nat, r: Text, l: nat)
    requires Span(t, i, p, j) && Span(t, j, q, k) && Span(t, k, r, l)
    ensures Span(t, i, p + q + r, l)
  {
    Span2(t, i, p, j, q, k);
    Span2(t, i, p + q, k, r, l);
  }

  lemma Span4(t: Text, i: nat, p: Text, j: nat, q: Text, k: nat, r: Text, l: nat, s: Text, m: nat)
    requires Span(t, i, p, j) && Span(t, j, q, k) && Span(t, k, r, l) && Span(t, l, s, m)
    ensures Span(t, i, p + q + r + s, m)
  {
    Span3(t, i, p, j, q, k, r, l);
    Span2(t, i, p + q + r, l, s, m);
  }

  /** What `#space` steps over. */
  function ReadSpace(t: Text, i: nat): (r: Parsed<Text>)
    requires i <= |t|
    ensures Space(r.value) && Span(t, i, r.value, r.next) && (r.next < |t| ==> !IsSpace(t[r.next]))
    decreases |t| - i
  {
    if i < |t| && IsSpace(t[i]) then
      var rest := ReadSpace(t, i + 1);
      Span2(t, i, [t[i]], i + 1, rest.value, rest.next);
      Parsed([t[i]] + rest.value, rest.next)
    else Parsed([], i)
  }

  /** The digits at `i`. */
  function ReadDigits(t: Text, i: nat): (r: Parsed<Text>)
    requires i <= |t|
    ensures Digits(r.value) && Span(t, i, r.value, r.next) && (r.next < |t| ==> !IsDigit(t[r.next]))
    decreases |t| - i
  {
    if i < |t| && IsDigit(t[i]) then
      var rest := ReadDigits(t, i + 1);
      Span2(t, i, [t[i]], i + 1, rest.value, rest.next);
      Parsed([t[i]] + rest.value, rest.next)
    else Parsed([], i)
  }

  // ---- strings: the scan for the closing quote, then `JSON.parse` of the slice

  /** Index of the closing quote, scanning from `i` with the escape flag of the loop. */
  function ClosingQuote(t: Text, i: nat, escaped: bool): (r: Option<nat>)
    requires i <= |t|
    ensures r.Some? ==> i <= r.value < |t| && t[r.value] == QUOTE
    decreases |t| - i
  {
    if i == |t| then None
    else if !escaped && t[i] == QUOTE then Some(i)
    else ClosingQuote(t, i + 1, !escaped && t[i] == BACKSLASH)
  }

  /** The first element of the inside of a JSON string, as `JSON.parse` reads it. */
  function ReadChar(t: Text): (r: Option<Char>)
    requires |t| > 0
    ensures r.Some? ==> CharOk(r.value) && |SpellChar(r.value)| <= |t| && SpellChar(r.value) == t[..|SpellChar(r.value)|]
  {
    if t[0] != BACKSLASH then
      if t[0] >= 0x20 && t[0] != QUOTE then Some(Plain(t[0])) else None
    else if |t| >= 2 && IsEscape(t[1]) then Some(Short(t[1]))
    else if |t| >= 6 && t[1] == 117 && IsHex(t[2]) && IsHex(t[3]) && IsHex(t[4]) && IsHex(t[5]) then
      Some(Hex(t[2], t[3], t[4], t[5]))
    else None
  }

  function ReadChars(t: Text): (r: Option<seq<Char>>)
    ensures r.Some? ==> CharsOk(r.value) && SpellChars(r.value) == t
    decreases |t|
  {
    if t == [] then Some([]) else
    var c :- ReadChar(t);
    var rest :- ReadChars(t[|SpellChar(c)|..]);
    assert t == SpellChar(c) + t[|SpellChar(c)|..];
    Some([c] + rest)
  }

  /** `#string`, entered at the opening quote. */
  function ReadString(t: Text, i: nat): (r: Option<Parsed<seq<Char>>>)
    requires Has(t, i, QUOTE)
    ensures r.Some? ==> CharsOk(r.value.value) && Span(t, i, SpellString(r.value.value), r.value.next)
  {
    var close :- ClosingQuote(t, i + 1, false);
    var chars :- ReadChars(t[i + 1..close]);
    AtSlice(t, i + 1, close);
    Span3(t, i, [QUOTE], i + 1, SpellChars(chars), close, [QUOTE], close + 1);
    Some(Parsed(chars, close + 1))
  }

  // ---- numbers: the longest match of the regular expression, its groups kept apart

  function ReadSign(t: Text, i: nat): (r: Parsed<Text>)
    requires i <= |t|
    ensures Span(t, i, r.value, r.next) && (r.value == [] || (|r.value| == 1 && IsSign(r.value[0])))
  {
    if i < |t| && IsSign(t[i]) then Parsed([t[i]], i + 1) else Parsed([], i)
  }

  function ReadExponent(t: Text, i: nat): (r: Parsed<Exponent>)
    requires i <= |t|
    ensures ExponentOk(r.value) && Span(t, i, SpellExponent(r.value), r.next)
  {
    if i < |t| && IsMark(t[i]) then
      var sign := ReadSign(t, i + 1);
      var digits := ReadDigits(t, sign.next);
      Span3(t, i, [t[i]], i + 1, sign.value, sign.next, digits.value, digits.next);
      if digits.value == [] then Parsed(NoExponent, i)
      else Parsed(Exponent(t[i], sign.value, digits.value), digits.next)
    else Parsed(NoExponent, i)
  }

  function ReadFraction(t: Text, i: nat): (r: Parsed<Text>)
    requires i <= |t|
    ensures Digits(r.value) && Span(t, i, SpellFraction(r.value), r.next)
  {
    if Has(t, i, POINT) then
      var digits := ReadDigits(t, i + 1);
      Span2(t, i, [POINT], i + 1, digits.value, digits.next);
      if digits.value == [] then Parsed([], i) else digits
    else Parsed([], i)
  }

  function ReadWhole(t: Text, i: nat): (r: Parsed<Text>)
    requires i <= |t|
    ensures Digits(r.value) && Span(t, i, r.value, r.next) && (|r.value| > 0 && r.value[0] == ZERO ==> |r.value| == 1)
  {
    if Has(t, i, ZERO) then Parsed([ZERO], i + 1) else ReadDigits(t, i)
  }

  function ReadMinus(t: Text, i: nat): (r: Parsed<bool>)
    requires i <= |t|
    ensures Span(t, i, SpellMinus(r.value), r.next)
  {
    if Has(t, i, MINUS) then Parsed(true, i + 1) else Parsed(false, i)
  }

  function ReadNumber(t: Text, i: nat): (r: Option<Parsed<Number>>)
    requires i <= |t|
    ensures r.Some? ==> NumberOk(r.value.value) && Span(t, i, SpellNumber(r.value.value), r.value.next) && i < r.value.next
  {
    var minus := ReadMinus(t, i);
    var whole := ReadWhole(t, minus.next);
    if whole.value == [] then None else
    var fraction := ReadFraction(t, whole.next);
    var exponent := ReadExponent(t, fraction.next);
    Span4(t, i, SpellMinus(minus.value), minus.next, whole.value, whole.next,
          SpellFraction(fraction.value), fraction.next, SpellExponent(exponent.value), exponent.next);
    Some(Parsed(Number(minus.value, whole.value, fraction.value, exponent.value), exponent.next))
  }

  // ---- values

  /** A tree spelled between the indices that meets the strict demands under `depth` open containers. */
  predicate ValueSpan(t: Text, i: nat, depth: nat, r: Parsed<Syntax>) {
    && SyntaxOk(r.value) && Strict(r.value) && depth + Height(r.value) <= MAX_DEPTH
    && Span(t, i, Spell(r.value), r.next) && i < r.next
  }

  predicate ItemsSpan(t: Text, i: nat, depth: nat, r: Parsed<Items>) {
    && ItemsOk(r.value) && StrictItems(r.value) && depth + ItemsHeight(r.value) <= MAX_DEPTH
    && Span(t, i, SpellItems(r.value), r.next) && i < r.next
  }

  predicate EntrySpan(t: Text, i: nat, depth: nat, r: Parsed<Entry>) {
    && EntryOk(r.value) && Strict(r.value.value) && depth + Height(r.value.value) <= MAX_DEPTH
    && Span(t, i, SpellEntry(r.value), r.next) && i < r.next
  }

  predicate MembersSpan(t: Text, i: nat, depth: nat, r: Parsed<Members>) {
    && MembersOk(r.value) && StrictMembers(r.value) && depth + MembersHeight(r.value) <= MAX_DEPTH
    && Span(t, i, SpellMembers(r.value), r.next) && i < r.next
  }

  function ReadWord(t: Text, i: nat, word: string, s: Syntax): (r: Option<Parsed<Syntax>>)
    ensures r.Some? ==> Span(t, i, A(word), r.value.next) && r.value.value == s
  {
    if At(t, i, A(word)) then Some(Parsed(s, i + |word|)) else None
  }

  function ParseScalar(t: Text, i: nat, depth: nat): (r: Option<Parsed<Syntax>>)
    requires i <= |t| && depth < MAX_DEPTH
    ensures r.Some? ==> ValueSpan(t, i, depth, r.value)
  {
    if Has(t, i, QUOTE) then
      var cs :- ReadString(t, i);
      Some(Parsed(SString(cs.value), cs.next))
    else if Has(t, i, 116) then ReadWord(t, i, "true", STrue)
    else if Has(t, i, 102) then ReadWord(t, i, "false", SFalse)
    else if Has(t, i, 110) then ReadWord(t, i, "null", SNull)
    else
      var n :- ReadNumber(t, i);
      if IsFinite(NumberValue(n.value)) then Some(Parsed(SNumber(n.value), n.next)) else None
  }

  /** `#value`: the tree at `i`; the parser's result is what it denotes. */
  function ParseValue(t: Text, i: nat, depth: nat): (r: Option<Parsed<Syntax>>)
    requires i <= |t|
    ensures r.Some? ==> ValueSpan(t, i, depth, r.value)
    decreases |t| - i, 1
  {
    if depth >= MAX_DEPTH then None
    else if Has(t, i, OPEN_OBJECT) then ParseObject(t, i, depth + 1)
    else if Has(t, i, OPEN_ARRAY) then ParseArray(t, i, depth + 1)
    else ParseScalar(t, i, depth)
  }

  /** `#object`, with the depth already raised by `#container`. */
  function ParseObject(t: Text, i: nat, depth: nat): (r: Option<Parsed<Syntax>>)
    requires Has(t, i, OPEN_OBJECT) && 0 < depth <= MAX_DEPTH
    ensures r.Some? ==> ValueSpan(t, i, depth - 1, r.value)
    decreases |t| - i, 0
  {
    var lead := ReadSpace(t, i + 1);
    if Has(t, lead.next, CLOSE_OBJECT) then
      Span3(t, i, [OPEN_OBJECT], i + 1, lead.value, lead.next, [CLOSE_OBJECT], lead.next + 1);
      Some(Parsed(SEmptyObject(lead.value), lead.next + 1))
    else
      var members :- ParseMembers(t, lead.next, depth);
      if !Distinct(Names(members.value)) then None else
      Span3(t, i, [OPEN_OBJECT], i + 1, lead.value, lead.next, SpellMembers(members.value), members.next);
      Some(Parsed(SObject(lead.value, members.value), members.next))
  }

  /** A member name and its colon. */
  function ReadName(t: Text, i: nat): (r: Option<Parsed<Name>>)
    requires i <= |t|
    ensures r.Some? ==> NameOk(r.value.value) && Span(t, i, SpellName(r.value.value), r.value.next) && i < r.value.next
  {
    if !Has(t, i, QUOTE) then None else
    var chars :- ReadString(t, i);
    var before := ReadSpace(t, chars.next);
    if !Has(t, before.next, COLON) then None else
    var after := ReadSpace(t, before.next + 1);
    Span4(t, i, SpellString(chars.value), chars.next, before.value, before.next, [COLON], before.next + 1,
          after.value, after.next);
    Some(Parsed(Name(chars.value, before.value, after.value), after.next))
  }

  /** A member and the white space behind it. */
  function ParseEntry(t: Text, i: nat, depth: nat): (r: Option<Parsed<Entry>>)
    requires i <= |t|
    ensures r.Some? ==> EntrySpan(t, i, depth, r.value)
    decreases |t| - i, 2
  {
    var name :- ReadName(t, i);
    var v :- ParseValue(t, name.next, depth);
    var after := ReadSpace(t, v.next);
    Span3(t, i, SpellName(name.value), name.next, Spell(v.value), v.next, after.value, after.next);
    Some(Parsed(Entry(name.value, v.value, after.value), after.next))
  }

  lemma LastMemberSpan(t: Text, i: nat, depth: nat, entry: Parsed<Entry>)
    requires EntrySpan(t, i, depth, entry) && Has(t, entry.next, CLOSE_OBJECT)
    ensures MembersSpan(t, i, depth, Parsed(LastMember(entry.value), entry.next + 1))
  {
    Span2(t, i, SpellEntry(entry.value), entry.next, [CLOSE_OBJECT], entry.next + 1);
  }

  lemma MoreMembersSpan(t: Text, i: nat, depth: nat, entry: Parsed<Entry>, gap: Parsed<Text>, rest: Parsed<Members>)
    requires EntrySpan(t, i, depth, entry) && Has(t, entry.next, COMMA)
    requires Space(gap.value) && Span(t, entry.next + 1, gap.value, gap.next)
    requires MembersSpan(t, gap.next, depth, rest)
    ensures MembersSpan(t, i, depth, Parsed(MoreMembers(entry.value, gap.value, rest.value), rest.next))
  {
    Span4(t, i, SpellEntry(entry.value), entry.next, [COMMA], entry.next + 1, gap.value, gap.next,
          SpellMembers(rest.value), rest.next);
  }

  /**
   The members up to the closing brace.  The loop of the source rejects a repeated
   name as soon as it meets it; here `ParseObject` does so for all names at once,
   and either way the text is rejected.
   */
  function ParseMembers(t: Text, i: nat, depth: nat): (r: Option<Parsed<Members>>)
    requires i <= |t|
    ensures r.Some? ==> MembersSpan(t, i, depth, r.value)
    decreases |t| - i, 3
  {
    var entry :- ParseEntry(t, i, depth);
    if Has(t, entry.next, CLOSE_OBJECT) then
      LastMemberSpan(t, i, depth, entry);
      Some(Parsed(LastMember(entry.value), entry.next + 1))
    else if Has(t, entry.next, COMMA) then
      var gap := ReadSpace(t, entry.next + 1);
      var rest :- ParseMembers(t, gap.next, depth);
      MoreMembersSpan(t, i, depth, entry, gap, rest);
      Some(Parsed(MoreMembers(entry.value, gap.value, rest.value), rest.next))
    else None
  }

  /** `#array`, with the depth already raised by `#container`. */
  function ParseArray(t: Text, i: nat, depth: nat): (r: Option<Parsed<Syntax>>)
    requires Has(t, i, OPEN_ARRAY) && 0 < depth <= MAX_DEPTH
    ensures r.Some? ==> ValueSpan(t, i, depth - 1, r.value)
    decreases |t| - i, 0
  {
    var lead := ReadSpace(t, i + 1);
    if Has(t, lead.next, CLOSE_ARRAY) then
      Span3(t, i, [OPEN_ARRAY], i + 1, lead.value, lead.next, [CLOSE_ARRAY], lead.next + 1);
      Some(Parsed(SEmptyArray(lead.value), lead.next + 1))
    else
      var items :- ParseItems(t, lead.next, depth);
      Span3(t, i, [OPEN_ARRAY], i + 1, lead.value, lead.next, SpellItems(items.value), items.next);
      Some(Parsed(SArray(lead.value, items.value), items.next))
  }

  lemma LastItemSpan(t: Text, i: nat, depth: nat, v: Parsed<Syntax>, after: Parsed<Text>)
    requires ValueSpan(t, i, depth, v) && Space(after.value) && Span(t, v.next, after.value, after.next)
    requires Has(t, after.next, CLOSE_ARRAY)
    ensures ItemsSpan(t, i, depth, Parsed(LastItem(v.value, after.value), after.next + 1))
  {
    Span3(t, i, Spell(v.value), v.next, after.value, after.next, [CLOSE_ARRAY], after.next + 1);
  }

  lemma MoreItemsSpan(t: Text, i: nat, depth: nat, v: Parsed<Syntax>, after: Parsed<Text>, gap: Parsed<Text>, rest: Parsed<Items>)
    requires ValueSpan(t, i, depth, v) && Space(after.value) && Span(t, v.next, after.value, after.next)
    requires Has(t, after.next, COMMA) && Space(gap.value) && Span(t, after.next + 1, gap.value, gap.next)
    requires ItemsSpan(t, gap.next, depth, rest)
    ensures ItemsSpan(t, i, depth, Parsed(MoreItems(v.value, after.value, gap.value, rest.value), rest.next))
  {
    Span4(t, i, Spell(v.value), v.next, after.value, after.next, [COMMA], after.next + 1, gap.value, gap.next);
    Span2(t, i, Spell(v.value) + after.value + [COMMA] + gap.value, gap.next, SpellItems(rest.value), rest.next);
  }

  /** The array loop from an item on. */
  function ParseItems(t: Text, i: nat, depth: nat): (r: Option<Parsed<Items>>)
    requires i <= |t|
    ensures r.Some? ==> ItemsSpan(t, i, depth, r.value)
    decreases |t| - i, 2
  {
    var v :- ParseValue(t, i, depth);
    var after := ReadSpace(t, v.next);
    if Has(t, after.next, CLOSE_ARRAY) then
      LastItemSpan(t, i, depth, v, after);
      Some(Parsed(LastItem(v.value, after.value), after.next + 1))
    else if Has(t, after.next, COMMA) then
      var gap := ReadSpace(t, after.next + 1);
      var rest :- ParseItems(t, gap.next, depth);
      MoreItemsSpan(t, i, depth, v, after, gap, rest);
      Some(Parsed(MoreItems(v.value, after.value, gap.value, rest.value), rest.next))
    else None
  }

  /** `parse()`: one value, white space around it, and nothing else. */
  function ParseText(t: Text): (r: Option<Json>)
    ensures r.Some? ==> IsStrictJson(t, r.value)
  {
    var lead := ReadSpace(t, 0);
    var s :- ParseValue(t, lead.next, 0);
    var trail := ReadSpace(t, s.next);
    if trail.next != |t| then None else
    Span3(t, 0, lead.value, lead.next, Spell(s.value), s.next, trail.value, trail.next);
    assert t == lead.value + Spell(s.value) + trail.value;
    Some(Denote(s.value))
  }
}
