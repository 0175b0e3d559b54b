/** Every text that the grammar and the strict demands allow is accepted, with the value it denotes. */
module StrictComplete {
  import opened Options
  import opened Texts
  import opened JsonGrammar
  import opened StrictParser

  lemma Split2(t: Text, i: nat, p: Text, q: Text, k: nat) returns (j: nat)
    requires Span(t, i, p + q, k)
    ensures Span(t, i, p, j) && Span(t, j, q, k)
  {
    AtConcat(t, i, p, q);
    j := i + |p|;
  }

  lemma Split3(t: Text, i: nat, p: Text, q: Text, r: Text, l: nat) returns (j: nat, k: nat)
    requires Span(t, i, p + q + r, l)
    ensures Span(t, i, p, j) && Span(t, j, q, k) && Span(t, k, r, l)
  {
    k := Split2(t, i, p + q, r, l);
    j := Split2(t, i, p, q, k);
  }

  lemma Split4(t: Text, i: nat, p: Text, q: Text, r: Text, s: Text, m: nat) returns (j: nat, k: nat, l: nat)
    requires Span(t, i, p + q + r + s, m)
    ensures Span(t, i, p, j) && Span(t, j, q, k) && Span(t, k, r, l) && Span(t, l, s, m)
  {
    l := Split2(t, i, p + q + r, s, m);
    j, k := Split3(t, i, p, q, r, l);
  }

  /** A span of one character. */
  lemma SpanOne(t: Text, i: nat, c: Unit, j: nat)
    requires Span(t, i, [c], j)
    ensures Has(t, i, c) && j == i + 1
  {
    assert [c][0] == c;
  }

  lemma SpanFirst(t: Text, i: nat, p: Text, j: nat)
    requires Span(t, i, p, j) && |p| > 0
    ensures Has(t, i, p[0]) && Span(t, i + 1, p[1..], j)
  {
    assert p == [p[0]] + p[1..];
    var k := Split2(t, i, [p[0]], p[1..], j);
    SpanOne(t, i, p[0], k);
  }

  // ---- white space and digits

  lemma {:induction false} SpaceComplete(t: Text, i: nat, p: Text, j: nat)
    requires Span(t, i, p, j) && Space(p) && (j < |t| ==> !IsSpace(t[j]))
    ensures ReadSpace(t, i) == Parsed(p, j)
    decreases |p|
  {
    if p != [] {
      SpanFirst(t, i, p, j);
      SpaceComplete(t, i + 1, p[1..], j);
      assert p == [p[0]] + p[1..];
    }
  }

  lemma {:induction false} DigitsComplete(t: Text, i: nat, p: Text, j: nat)
    requires Span(t, i, p, j) && Digits(p) && (j < |t| ==> !IsDigit(t[j]))
    ensures ReadDigits(t, i) == Parsed(p, j)
    decreases |p|
  {
    if p != [] {
      SpanFirst(t, i, p, j);
      DigitsComplete(t, i + 1, p[1..], j);
      assert p == [p[0]] + p[1..];
    }
  }

  // ---- strings

  lemma CharComplete(c: Char, rest: Text)
    requires CharOk(c)
    ensures ReadChar(SpellChar(c) + rest) == Some(c)
  {
  }

  lemma {:induction false} CharsComplete(cs: seq<Char>)
    requires CharsOk(cs)
    ensures ReadChars(SpellChars(cs)) == Some(cs)
  {
    if cs != [] {
      var first, rest := SpellChar(cs[0]), SpellChars(cs[1..]);
      CharComplete(cs[0], rest);
      assert (first + rest)[|first|..] == rest;
      CharsComplete(cs[1..]);
      assert cs == [cs[0]] + cs[1..];
    }
  }

  /** The scan passes over one spelled character and is then not in an escape. */
  lemma CharScanned(t: Text, i: nat, c: Char, j: nat)
    requires CharOk(c) && Span(t, i, SpellChar(c), j)
    ensures ClosingQuote(t, i, false) == ClosingQuote(t, j, false)
  {
    var p := SpellChar(c);
    assert t[i] == p[0];
    match c
    case Plain(u) =>
    case Short(l) =>
      assert t[i + 1] == p[1];
    case Hex(w, x, y, z) =>
      assert t[i + 1] == p[1] == 117;
      assert ClosingQuote(t, i, false) == ClosingQuote(t, i + 1, true) == ClosingQuote(t, i + 2, false);
      assert t[i + 2] == p[2] && t[i + 3] == p[3] && t[i + 4] == p[4] && t[i + 5] == p[5];
      OrdinaryScanned(t, i + 2);
      OrdinaryScanned(t, i + 3);
      OrdinaryScanned(t, i + 4);
      OrdinaryScanned(t, i + 5);
  }

  lemma OrdinaryScanned(t: Text, i: nat)
    requires i < |t| && t[i] != QUOTE && t[i] != BACKSLASH
    ensures ClosingQuote(t, i, false) == ClosingQuote(t, i + 1, false)
  {
  }

  lemma {:induction false} QuoteFound(t: Text, i: nat, cs: seq<Char>, j: nat)
    requires CharsOk(cs) && Span(t, i, SpellChars(cs), j) && Has(t, j, QUOTE)
    ensures ClosingQuote(t, i, false) == Some(j)
    decreases |cs|
  {
    if cs != [] {
      var k := Split2(t, i, SpellChar(cs[0]), SpellChars(cs[1..]), j);
      CharScanned(t, i, cs[0], k);
      QuoteFound(t, k, cs[1..], j);
    }
  }

  lemma SpanSlice(t: Text, i: nat, p: Text, j: nat)
    requires Span(t, i, p, j)
    ensures t[i..j] == p
  {
  }

  lemma StringComplete(t: Text, i: nat, cs: seq<Char>, j: nat)
    requires CharsOk(cs) && Span(t, i, SpellString(cs), j)
    ensures Has(t, i, QUOTE) && ReadString(t, i) == Some(Parsed(cs, j))
  {
    hide At, ClosingQuote, ReadChars, CharsOk, SpellChars;
    var k, l := Split3(t, i, [QUOTE], SpellChars(cs), [QUOTE], j);
    SpanOne(t, i, QUOTE, k);
    SpanOne(t, l, QUOTE, j);
    InsideComplete(t, i + 1, cs, l);
  }

  lemma InsideComplete(t: Text, i: nat, cs: seq<Char>, j: nat)
    requires CharsOk(cs) && Span(t, i, SpellChars(cs), j) && Has(t, j, QUOTE)
    ensures ClosingQuote(t, i, false) == Some(j) && ReadChars(t[i..j]) == Some(cs)
  {
    QuoteFound(t, i, cs, j);
    SpanSlice(t, i, SpellChars(cs), j);
    CharsComplete(cs);
  }

  // ---- numbers

  /** What may stand behind a value: the end of the text, white space, a comma or a closing bracket. */
  predicate Follow(t: Text, j: nat) {
    j < |t| ==> IsSpace(t[j]) || t[j] == COMMA || t[j] == CLOSE_ARRAY || t[j] == CLOSE_OBJECT
  }

  lemma SignComplete(t: Text, i: nat, sign: Text, j: nat)
    requires sign == [] || (|sign| == 1 && IsSign(sign[0]))
    requires Span(t, i, sign, j) && j < |t| && IsDigit(t[j])
    ensures ReadSign(t, i) == Parsed(sign, j)
  {
    if sign != [] {
      SpanFirst(t, i, sign, j);
      assert sign == [sign[0]];
    }
  }

  lemma ExponentComplete(t: Text, i: nat, e: Exponent, j: nat)
    requires ExponentOk(e) && Span(t, i, SpellExponent(e), j) && Follow(t, j)
    ensures ReadExponent(t, i) == Parsed(e, j)
  {
    if e.Exponent? {
      var k, l := Split3(t, i, [e.mark], e.sign, e.digits, j);
      SpanOne(t, i, e.mark, k);
      SpanFirst(t, l, e.digits, j);
      SignComplete(t, i + 1, e.sign, l);
      DigitsComplete(t, l, e.digits, j);
      assert ReadSign(t, i + 1).next == l;
    }
  }

  /** Neither a digit nor, where it matters, a point or a mark can follow a completed part of a number. */
  lemma ExponentStart(t: Text, i: nat, e: Exponent, j: nat)
    requires ExponentOk(e) && Span(t, i, SpellExponent(e), j) && Follow(t, j)
    ensures i < |t| ==> !IsDigit(t[i]) && t[i] != POINT
  {
    if e.Exponent? {
      var k, l := Split3(t, i, [e.mark], e.sign, e.digits, j);
      SpanOne(t, i, e.mark, k);
    }
  }

  lemma FractionComplete(t: Text, i: nat, digits: Text, j: nat)
    requires Digits(digits) && Span(t, i, SpellFraction(digits), j) && (j < |t| ==> !IsDigit(t[j]) && t[j] != POINT)
    ensures ReadFraction(t, i) == Parsed(digits, j)
    ensures i < |t| ==> !IsDigit(t[i])
  {
    if digits != [] {
      var k := Split2(t, i, [POINT], digits, j);
      SpanOne(t, i, POINT, k);
      DigitsComplete(t, k, digits, j);
    }
  }

  lemma WholeComplete(t: Text, i: nat, digits: Text, j: nat)
    requires Digits(digits) && |digits| > 0 && (digits[0] == ZERO ==> |digits| == 1)
    requires Span(t, i, digits, j) && (j < |t| ==> !IsDigit(t[j]))
    ensures ReadWhole(t, i) == Parsed(digits, j) && Has(t, i, digits[0])
  {
    SpanFirst(t, i, digits, j);
    if digits[0] == ZERO {
      assert digits == [ZERO];
    } else {
      DigitsComplete(t, i, digits, j);
    }
  }

  lemma NumberComplete(t: Text, i: nat, n: Number, j: nat)
    requires NumberOk(n) && Span(t, i, SpellNumber(n), j) && Follow(t, j)
    ensures ReadNumber(t, i) == Some(Parsed(n, j))
    ensures i < |t| && (IsDigit(t[i]) || t[i] == MINUS)
  {
    var k, l, m := Split4(t, i, SpellMinus(n.minus), n.whole, SpellFraction(n.fraction), SpellExponent(n.exponent), j);
    ExponentComplete(t, m, n.exponent, j);
    ExponentStart(t, m, n.exponent, j);
    FractionComplete(t, l, n.fraction, m);
    WholeComplete(t, k, n.whole, l);
    if n.minus {
      SpanOne(t, i, MINUS, k);
    }
    assert ReadMinus(t, i) == Parsed(n.minus, k);
  }

  // ---- the longest number

  /** The number `n` stands between `i` and `j`, and no number that starts at `i` ends later. */
  ghost predicate Longest(t: Text, i: nat, n: Number, j: nat) {
    && NumberOk(n) && Span(t, i, SpellNumber(n), j)
    && forall m: Number, k: nat :: NumberOk(m) && Span(t, i, SpellNumber(m), k) ==> k <= j
  }

  lemma {:induction false} DigitsAtMost(t: Text, i: nat, digits: Text, j: nat)
    requires Digits(digits) && Span(t, i, digits, j)
    ensures j <= ReadDigits(t, i).next
    decreases |digits|
  {
    if digits != [] {
      SpanFirst(t, i, digits, j);
      var k := Split2(t, i, [digits[0]], digits[1..], j) by { assert digits == [digits[0]] + digits[1..]; }
      DigitsAtMost(t, i + 1, digits[1..], j);
    }
  }

  lemma ExponentAtMost(t: Text, i: nat, e: Exponent, j: nat)
    requires ExponentOk(e) && Span(t, i, SpellExponent(e), j)
    ensures j <= ReadExponent(t, i).next
    ensures i < j ==> t[i] != POINT && !IsDigit(t[i])
  {
    if e.Exponent? {
      var k, l := Split3(t, i, [e.mark], e.sign, e.digits, j);
      SpanOne(t, i, e.mark, k);
      SpanFirst(t, l, e.digits, j);
      SignComplete(t, i + 1, e.sign, l);
      DigitsAtMost(t, l, e.digits, j);
    }
  }

  lemma FractionAtMost(t: Text, i: nat, digits: Text, j: nat)
    requires Digits(digits) && Span(t, i, SpellFraction(digits), j)
    ensures j <= ReadFraction(t, i).next
    ensures i < j ==> t[i] == POINT
    ensures j < ReadFraction(t, i).next ==> t[j] == POINT || IsDigit(t[j])
  {
    if digits != [] {
      var k := Split2(t, i, [POINT], digits, j);
      SpanOne(t, i, POINT, k);
      DigitsAtMost(t, k, digits, j);
      if j < ReadDigits(t, k).next {
        DigitsWithin(t, k, j);
      }
    }
  }

  /** Up to where the digits are read, there are digits. */
  lemma {:induction false} DigitsWithin(t: Text, i: nat, j: nat)
    requires i <= |t| && i <= j < ReadDigits(t, i).next
    ensures j < |t| && IsDigit(t[j])
    decreases |t| - i
  {
    if i < j {
      DigitsWithin(t, i + 1, j);
    }
  }

  lemma WholeAtMost(t: Text, i: nat, digits: Text, j: nat)
    requires Digits(digits) && |digits| > 0 && (digits[0] == ZERO ==> |digits| == 1) && Span(t, i, digits, j)
    ensures i < |t| && IsDigit(t[i]) && j <= ReadWhole(t, i).next <= |t| && ReadWhole(t, i).value != []
    ensures j < ReadWhole(t, i).next ==> IsDigit(t[j])
  {
    SpanFirst(t, i, digits, j);
    if digits[0] != ZERO {
      DigitsAtMost(t, i, digits, j);
      if j < ReadDigits(t, i).next {
        DigitsWithin(t, i, j);
      }
    }
  }

  /** What is read behind the whole part reaches at least as far as any fraction and exponent that stand there. */
  lemma TailAtMost(t: Text, l: nat, w: nat, digits: Text, m: nat, e: Exponent, j: nat)
    requires l <= w <= |t| && (l < w ==> IsDigit(t[l]))
    requires Digits(digits) && Span(t, l, SpellFraction(digits), m) && ExponentOk(e) && Span(t, m, SpellExponent(e), j)
    ensures j <= ReadExponent(t, ReadFraction(t, w).next).next
  {
    hide ReadFraction, ReadExponent, Digits, At, SpellFraction, SpellExponent, ExponentOk;
    FractionAtMost(t, l, digits, m);
    ExponentAtMost(t, m, e, j);
  }

  lemma MinusRead(t: Text, i: nat, n: Number, k: nat)
    requires i <= |t| && Span(t, i, SpellMinus(n.minus), k) && k < |t| && IsDigit(t[k])
    ensures ReadMinus(t, i).next == k
  {
    if n.minus {
      SpanOne(t, i, MINUS, k);
    }
  }

  /** A number that stands at `i` is read there, or a longer one is. */
  lemma NumberAtMost(t: Text, i: nat, n: Number, j: nat)
    requires NumberOk(n) && Span(t, i, SpellNumber(n), j)
    ensures ReadNumber(t, i).Some? && j <= ReadNumber(t, i).value.next
  {
    hide ReadMinus, ReadFraction, ReadExponent, ReadWhole, Digits, SpellFraction, SpellExponent, SpellMinus, ExponentOk;
    var k, l, m := Split4(t, i, SpellMinus(n.minus), n.whole, SpellFraction(n.fraction), SpellExponent(n.exponent), j);
    WholeAtMost(t, k, n.whole, l);
    MinusRead(t, i, n, k);
    TailAtMost(t, l, ReadWhole(t, k).next, n.fraction, m, n.exponent, j);
  }

  /** The parser's number is the longest one: it reads `n` up to `j` if and only if no number at `i` ends later. */
  lemma NumberExact(t: Text, i: nat, n: Number, j: nat)
    requires i <= |t|
    ensures ReadNumber(t, i) == Some(Parsed(n, j)) <==> Longest(t, i, n, j)
  {
    hide ReadNumber, NumberOk, SpellNumber, At;
    forall m: Number, k: nat | NumberOk(m) && Span(t, i, SpellNumber(m), k)
      ensures ReadNumber(t, i).Some? && k <= ReadNumber(t, i).value.next
    {
      NumberAtMost(t, i, m, k);
    }
    if Longest(t, i, n, j) {
      SameNumber(t, i, n, ReadNumber(t, i).value.value, j);
    }
  }

  /** Two numbers with the same spelling are the same. */
  lemma SameNumber(t: Text, i: nat, n: Number, m: Number, j: nat)
    requires NumberOk(n) && Span(t, i, SpellNumber(n), j) && NumberOk(m) && Span(t, i, SpellNumber(m), j)
    ensures n == m
  {
    hide ReadNumber, NumberOk, SpellNumber;
    var u := t[..j];
    assert Span(u, i, SpellNumber(n), j) && Span(u, i, SpellNumber(m), j);
    NumberComplete(u, i, n, j);
    NumberComplete(u, i, m, j);
  }

  // ---- values

  predicate Starts(p: Text, c: Unit) { |p| > 0 && p[0] == c }

  /** No value starts with white space or a closing bracket. */
  lemma FirstCharacter(s: Syntax)
    requires SyntaxOk(s)
    ensures |Spell(s)| > 0 && !IsSpace(Spell(s)[0]) && Spell(s)[0] != CLOSE_ARRAY
  {
    if s.SNumber? {
      assert SpellNumber(s.number)[0] == (if s.number.minus then MINUS else s.number.whole[0]);
    }
  }

  lemma MembersStart(members: Members)
    requires MembersOk(members)
    ensures Starts(SpellMembers(members), QUOTE)
  {
    assert Starts(SpellString(members.entry.name.chars), QUOTE);
    assert Starts(SpellName(members.entry.name), QUOTE);
    assert Starts(SpellEntry(members.entry), QUOTE);
  }

  lemma ItemsStart(items: Items)
    requires ItemsOk(items)
    ensures |SpellItems(items)| > 0 && !IsSpace(SpellItems(items)[0]) && SpellItems(items)[0] != CLOSE_ARRAY
  {
    FirstCharacter(items.value);
  }

  /** White space followed by something else is read exactly. */
  lemma SpaceThen(t: Text, i: nat, p: Text, j: nat, q: Text, k: nat)
    requires Span(t, i, p, j) && Space(p) && Span(t, j, q, k) && |q| > 0 && !IsSpace(q[0])
    ensures ReadSpace(t, i) == Parsed(p, j) && Has(t, j, q[0])
  {
    SpanFirst(t, j, q, k);
    SpaceComplete(t, i, p, j);
  }

  lemma FollowSpace(t: Text, i: nat, p: Text, j: nat, c: Unit)
    requires Span(t, i, p, j) && Space(p) && Has(t, j, c) && (c == COMMA || c == CLOSE_ARRAY || c == CLOSE_OBJECT)
    ensures Follow(t, i) && ReadSpace(t, i) == Parsed(p, j)
  {
    if p != [] {
      SpanFirst(t, i, p, j);
    }
    SpaceComplete(t, i, p, j);
  }

  predicate IsScalar(s: Syntax) { s.SNull? || s.STrue? || s.SFalse? || s.SNumber? || s.SString? }

  lemma WordComplete(t: Text, i: nat, word: string, s: Syntax, j: nat)
    requires Span(t, i, A(word), j)
    ensures ReadWord(t, i, word, s) == Some(Parsed(s, j))
  {
  }

  lemma ScalarComplete(t: Text, i: nat, depth: nat, s: Syntax, j: nat)
    requires IsScalar(s) && SyntaxOk(s) && Strict(s) && depth < MAX_DEPTH && Span(t, i, Spell(s), j) && Follow(t, j)
    ensures ParseScalar(t, i, depth) == Some(Parsed(s, j)) && !Has(t, i, OPEN_OBJECT) && !Has(t, i, OPEN_ARRAY)
  {
    hide At, ReadNumber, ReadString, NumberOk, SpellNumber, SpellString;
    FirstCharacter(s);
    SpanFirst(t, i, Spell(s), j);
    match s
    case SNull => WordComplete(t, i, "null", s, j);
    case STrue => WordComplete(t, i, "true", s, j);
    case SFalse => WordComplete(t, i, "false", s, j);
    case SNumber(n) => NumberComplete(t, i, n, j);
    case SString(cs) => StringComplete(t, i, cs, j);
  }

  lemma {:induction false} ValueComplete(t: Text, i: nat, depth: nat, s: Syntax, j: nat)
    requires SyntaxOk(s) && Strict(s) && depth + Height(s) <= MAX_DEPTH && Span(t, i, Spell(s), j) && Follow(t, j)
    ensures ParseValue(t, i, depth) == Some(Parsed(s, j))
    decreases s, 1
  {
    match s
    case SEmptyArray(lead) => EmptyArrayComplete(t, i, depth, lead, j);
    case SArray(lead, items) => ArrayComplete(t, i, depth, lead, items, j);
    case SEmptyObject(lead) => EmptyObjectComplete(t, i, depth, lead, j);
    case SObject(lead, members) => ObjectComplete(t, i, depth, lead, members, j);
    case _ => ScalarComplete(t, i, depth, s, j);
  }

  lemma EmptyArrayComplete(t: Text, i: nat, depth: nat, lead: Text, j: nat)
    requires Space(lead) && depth < MAX_DEPTH && Span(t, i, Spell(SEmptyArray(lead)), j)
    ensures ParseValue(t, i, depth) == Some(Parsed(SEmptyArray(lead), j))
  {
    var k, l := Split3(t, i, [OPEN_ARRAY], lead, [CLOSE_ARRAY], j);
    SpanOne(t, i, OPEN_ARRAY, k);
    SpaceThen(t, i + 1, lead, l, [CLOSE_ARRAY], j);
  }

  lemma EmptyObjectComplete(t: Text, i: nat, depth: nat, lead: Text, j: nat)
    requires Space(lead) && depth < MAX_DEPTH && Span(t, i, Spell(SEmptyObject(lead)), j)
    ensures ParseValue(t, i, depth) == Some(Parsed(SEmptyObject(lead), j))
  {
    var k, l := Split3(t, i, [OPEN_OBJECT], lead, [CLOSE_OBJECT], j);
    SpanOne(t, i, OPEN_OBJECT, k);
    SpaceThen(t, i + 1, lead, l, [CLOSE_OBJECT], j);
  }

  lemma {:induction false} ArrayComplete(t: Text, i: nat, depth: nat, lead: Text, items: Items, j: nat)
    requires Space(lead) && ItemsOk(items) && StrictItems(items) && depth + 1 + ItemsHeight(items) <= MAX_DEPTH
    requires Span(t, i, Spell(SArray(lead, items)), j)
    ensures ParseValue(t, i, depth) == Some(Parsed(SArray(lead, items), j))
    decreases items, 1
  {
    hide At, ReadSpace, ParseItems, SpellItems, ItemsOk;
    var k, l := Split3(t, i, [OPEN_ARRAY], lead, SpellItems(items), j);
    SpanOne(t, i, OPEN_ARRAY, k);
    ItemsStart(items);
    SpaceThen(t, i + 1, lead, l, SpellItems(items), j);
    ItemsComplete(t, l, depth + 1, items, j);
  }

  lemma {:induction false} ItemsComplete(t: Text, i: nat, depth: nat, items: Items, j: nat)
    requires ItemsOk(items) && StrictItems(items) && depth + ItemsHeight(items) <= MAX_DEPTH
    requires Span(t, i, SpellItems(items), j)
    ensures ParseItems(t, i, depth) == Some(Parsed(items, j))
    decreases items, 0
  {
    hide ParseValue, ReadSpace, At, Space, SyntaxOk, Spell, Strict, Height;
    match items
    case LastItem(v, after) =>
      var k, l := Split3(t, i, Spell(v), after, [CLOSE_ARRAY], j);
      SpanOne(t, l, CLOSE_ARRAY, j);
      FollowSpace(t, k, after, l, CLOSE_ARRAY);
      ValueComplete(t, i, depth, v, k);
    case MoreItems(v, after, gap, rest) =>
      var g := Split2(t, i, Spell(v) + after + [COMMA] + gap, SpellItems(rest), j);
      var k, l, c := Split4(t, i, Spell(v), after, [COMMA], gap, g);
      SpanOne(t, l, COMMA, c);
      FollowSpace(t, k, after, l, COMMA);
      ValueComplete(t, i, depth, v, k);
      ItemsStart(rest);
      SpaceThen(t, l + 1, gap, g, SpellItems(rest), j);
      ItemsComplete(t, g, depth, rest, j);
  }

  lemma NameComplete(t: Text, i: nat, name: Name, j: nat)
    requires NameOk(name) && Span(t, i, SpellName(name), j) && (j < |t| ==> !IsSpace(t[j]))
    ensures ReadName(t, i) == Some(Parsed(name, j))
  {
    var k, l, c := Split4(t, i, SpellString(name.chars), name.beforeColon, [COLON], name.afterColon, j);
    StringComplete(t, i, name.chars, k);
    SpanOne(t, l, COLON, c);
    SpaceThen(t, k, name.beforeColon, l, [COLON], c);
    SpaceComplete(t, l + 1, name.afterColon, j);
  }

  lemma {:induction false} EntryComplete(t: Text, i: nat, depth: nat, entry: Entry, j: nat)
    requires EntryOk(entry) && Strict(entry.value) && depth + Height(entry.value) <= MAX_DEPTH
    requires Span(t, i, SpellEntry(entry), j) && (Has(t, j, COMMA) || Has(t, j, CLOSE_OBJECT))
    ensures ParseEntry(t, i, depth) == Some(Parsed(entry, j))
    decreases entry, 0
  {
    var k, l := Split3(t, i, SpellName(entry.name), Spell(entry.value), entry.after, j);
    FirstCharacter(entry.value);
    SpanFirst(t, k, Spell(entry.value), l);
    NameComplete(t, i, entry.name, k);
    FollowSpace(t, l, entry.after, j, t[j]);
    ValueComplete(t, k, depth, entry.value, l);
  }

  lemma {:induction false} ObjectComplete(t: Text, i: nat, depth: nat, lead: Text, members: Members, j: nat)
    requires Space(lead) && MembersOk(members) && StrictMembers(members) && Distinct(Names(members))
    requires depth + 1 + MembersHeight(members) <= MAX_DEPTH && Span(t, i, Spell(SObject(lead, members)), j)
    ensures ParseValue(t, i, depth) == Some(Parsed(SObject(lead, members), j))
    decreases members, 2
  {
    var k, l := Split3(t, i, [OPEN_OBJECT], lead, SpellMembers(members), j);
    SpanOne(t, i, OPEN_OBJECT, k);
    MembersStart(members);
    SpaceThen(t, i + 1, lead, l, SpellMembers(members), j);
    MembersComplete(t, l, depth + 1, members, j);
  }

  lemma {:induction false} MembersComplete(t: Text, i: nat, depth: nat, members: Members, j: nat)
    requires MembersOk(members) && StrictMembers(members) && depth + MembersHeight(members) <= MAX_DEPTH
    requires Span(t, i, SpellMembers(members), j)
    ensures ParseMembers(t, i, depth) == Some(Parsed(members, j))
    decreases members, 1
  {
    hide ParseEntry, ReadSpace, At, Space, SpellName, NameOk, SyntaxOk, Spell, Strict, Height;
    var entry := members.entry;
    if members.LastMember? {
      var k := Split2(t, i, SpellEntry(entry), [CLOSE_OBJECT], j);
      SpanOne(t, k, CLOSE_OBJECT, j);
      EntryComplete(t, i, depth, entry, k);
    } else {
      MoreComplete(t, i, depth, members, j);
    }
  }

  lemma {:induction false} MoreComplete(t: Text, i: nat, depth: nat, members: Members, j: nat)
    requires MembersOk(members) && StrictMembers(members) && depth + MembersHeight(members) <= MAX_DEPTH
    requires Span(t, i, SpellMembers(members), j) && members.MoreMembers?
    ensures ParseMembers(t, i, depth) == Some(Parsed(members, j))
    decreases members, 0
  {
    hide ParseEntry, ReadSpace, At, Space, SpellName, NameOk, SyntaxOk, Spell, Strict, Height;
    var k, g := SeparatorComplete(t, i, members, j);
    EntryComplete(t, i, depth, members.entry, k);
    MembersComplete(t, g, depth, members.rest, j);
  }

  /** Where a member that is not the last ends, and where the next begins. */
  lemma SeparatorComplete(t: Text, i: nat, members: Members, j: nat) returns (k: nat, g: nat)
    requires MembersOk(members) && members.MoreMembers? && Span(t, i, SpellMembers(members), j)
    ensures Span(t, i, SpellEntry(members.entry), k) && Has(t, k, COMMA)
    ensures ReadSpace(t, k + 1) == Parsed(members.gap, g) && Span(t, g, SpellMembers(members.rest), j)
  {
    var l;
    k, l, g := Split4(t, i, SpellEntry(members.entry), [COMMA], members.gap, SpellMembers(members.rest), j);
    SpanOne(t, k, COMMA, l);
    MembersStart(members.rest);
    SpaceThen(t, k + 1, members.gap, g, SpellMembers(members.rest), j);
  }

  lemma TextComplete(lead: Text, s: Syntax, trail: Text)
    requires Space(lead) && Space(trail) && SyntaxOk(s) && Strict(s) && Height(s) <= MAX_DEPTH
    ensures ParseText(lead + Spell(s) + trail) == Some(Denote(s))
  {
    hide ParseValue, SyntaxOk, Spell, Strict, Height, Denote;
    var t := lead + Spell(s) + trail;
    assert Span(t, 0, lead + Spell(s) + trail, |t|);
    var i, j := Split3(t, 0, lead, Spell(s), trail, |t|);
    FirstCharacter(s);
    SpaceThen(t, 0, lead, i, Spell(s), j);
    if trail != [] {
      SpanFirst(t, j, trail, |t|);
    }
    SpaceComplete(t, j, trail, |t|);
    ValueComplete(t, i, 0, s, j);
  }

  /**
   The strict parser accepts exactly the JSON texts of the grammar with nesting
   height at most 32, finite numbers and distinct member names, and returns what
   the text denotes.
   */
  lemma StrictParserExact(t: Text, v: Json)
    ensures ParseText(t) == Some(v) <==> IsStrictJson(t, v)
  {
    if IsStrictJson(t, v) {
      var lead, s, trail :|
        && Space(lead) && Space(trail) && SyntaxOk(s)
        && t == lead + Spell(s) + trail
        && Denote(s) == v && Strict(s) && Height(s) <= MAX_DEPTH;
      TextComplete(lead, s, trail);
    }
  }
}
