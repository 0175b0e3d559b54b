/** The tokenizer of editor commands, and single-quote rendering as its inverse. */
module EditorCommand {
  import opened Options
  import opened Texts

  const SINGLE_QUOTE: Unit := 39
  const DOUBLE_QUOTE: Unit := 34
  const BACKSLASH: Unit := 92
  const SPACE: Unit := 32

  const MAX_BYTES: nat := 4096
  const MAX_ARGUMENTS: nat := 64

  /** White space as `trim` and the pattern `\s` know it. */
  predicate IsWhite(c: Unit) {
    || 9 <= c <= 13 || c == 32 || c == 160 || c == 0x1680 || 0x2000 <= c <= 0x200A
    || c == 0x2028 || c == 0x2029 || c == 0x202F || c == 0x205F || c == 0x3000 || c == 0xFEFF
  }

  function TrimStart(t: Text): Text { if t != [] && IsWhite(t[0]) then TrimStart(t[1..]) else t }

  function TrimEnd(t: Text): Text { if t != [] && IsWhite(t[|t| - 1]) then TrimEnd(t[..|t| - 1]) else t }

  function Trim(t: Text): Text { TrimEnd(TrimStart(t)) }

  datatype Quoting = Plain | Single | Double

  /** The variables of the loop. */
  datatype Scan = Scan(tokens: seq<Text>, token: Text, quoting: Quoting, escaping: bool, started: bool)

  const START := Scan([], [], Plain, false, false)

  datatype Command = Command(executable: Text, arguments: seq<Text>)

  function Push(s: Scan): Scan { if s.started then s.(tokens := s.tokens + [s.token], token := [], started := false) else s }

  /** One character. */
  function Read(s: Scan, c: Unit): Scan {
    if s.escaping then s.(token := s.token + [c], started := true, escaping := false)
    else if s.quoting == Single then
      if c == SINGLE_QUOTE then s.(quoting := Plain, started := true) else s.(token := s.token + [c], started := true)
    else if s.quoting == Double then
      if c == DOUBLE_QUOTE then s.(quoting := Plain, started := true)
      else if c == BACKSLASH then s.(escaping := true, started := true)
      else s.(token := s.token + [c], started := true)
    else if c == BACKSLASH then s.(escaping := true, started := true)
    else if c == SINGLE_QUOTE then s.(quoting := Single, started := true)
    else if c == DOUBLE_QUOTE then s.(quoting := Double, started := true)
    else if IsWhite(c) then Push(s)
    else s.(token := s.token + [c], started := true)
  }

  function ReadText(s: Scan, t: Text): Scan {
    if t == [] then s else Read(ReadText(s, t[..|t| - 1]), t[|t| - 1])
  }

  /** Text that may be tokenized at all: not empty, one line, no zero, bounded. */
  predicate Acceptable(value: Text) {
    value != [] && 0 !in value && 10 !in value && 13 !in value && Utf8Length(value) <= MAX_BYTES
  }

  /** What `parseCompanyEditorCommand` returns; None where it throws. */
  function Parse(value: Text): Option<Command> {
    if !Acceptable(value) then None else
    var s := ReadText(START, Trim(value));
    if s.escaping || s.quoting != Plain then None else Finish(Push(s).tokens)
  }

  function Finish(tokens: seq<Text>): Option<Command> {
    if tokens == [] || tokens[0] == [] || |tokens| - 1 > MAX_ARGUMENTS then None else Some(Command(tokens[0], tokens[1..]))
  }

  /** `parseCompanyEditorCommand`. */
  method ParseEditorCommand(value: Text) returns (r: Option<Command>)
    ensures r == Parse(value)
  {
    if !Acceptable(value) {
      return None;
    }
    var trimmed := Trim(value);
    var tokens: seq<Text>, token: Text := [], [];
    var quoting, escaping, started := Plain, false, false;
    for i := 0 to |trimmed|
      invariant Scan(tokens, token, quoting, escaping, started) == ReadText(START, trimmed[..i])
    {
      var character := trimmed[i];
      assert trimmed[..i + 1][..i] == trimmed[..i];
      if escaping {
        token, started, escaping := token + [character], true, false;
        continue;
      }
      if quoting == Single {
        if character == SINGLE_QUOTE {
          quoting := Plain;
        } else {
          token := token + [character];
        }
        started := true;
        continue;
      }
      if quoting == Double {
        if character == DOUBLE_QUOTE {
          quoting := Plain;
        } else if character == BACKSLASH {
          escaping := true;
        } else {
          token := token + [character];
        }
        started := true;
        continue;
      }
      if character == BACKSLASH {
        escaping, started := true, true;
      } else if character == SINGLE_QUOTE {
        quoting, started := Single, true;
      } else if character == DOUBLE_QUOTE {
        quoting, started := Double, true;
      } else if IsWhite(character) {
        if started {
          tokens, token, started := tokens + [token], [], false;
        }
      } else {
        token, started := token + [character], true;
      }
    }
    assert trimmed[..|trimmed|] == trimmed;
    if escaping || quoting != Plain {
      return None;
    }
    if started {
      tokens := tokens + [token];
    }
    if tokens == [] || tokens[0] == [] || |tokens| - 1 > MAX_ARGUMENTS {
      return None;
    }
    return Some(Command(tokens[0], tokens[1..]));
  }

  // ---- rendering

  /** One character inside single quotes: a quote is written as a closing quote, an escaped one and an opening one. */
  function QuoteUnit(c: Unit): Text {
    if c == SINGLE_QUOTE then [SINGLE_QUOTE, BACKSLASH, SINGLE_QUOTE, SINGLE_QUOTE] else [c]
  }

  function QuoteBody(t: Text): Text {
    if t == [] then [] else QuoteBody(t[..|t| - 1]) + QuoteUnit(t[|t| - 1])
  }

  function Quote(t: Text): Text { [SINGLE_QUOTE] + QuoteBody(t) + [SINGLE_QUOTE] }

  /** The tokens in single quotes, a space between each two. */
  function Render(tokens: seq<Text>): Text {
    if tokens == [] then []
    else if |tokens| == 1 then Quote(tokens[0])
    else Render(tokens[..|tokens| - 1]) + [SPACE] + Quote(tokens[|tokens| - 1])
  }

  lemma {:induction false} ReadConcat(s: Scan, a: Text, b: Text)
    ensures ReadText(s, a + b) == ReadText(ReadText(s, a), b)
    decreases |b|
  {
    if b == [] {
      assert a + b == a;
    } else {
      assert (a + b)[..|a + b| - 1] == a + b[..|b| - 1];
      ReadConcat(s, a, b[..|b| - 1]);
    }
  }

  lemma ReadOne(s: Scan, c: Unit)
    ensures ReadText(s, [c]) == Read(s, c)
  {
    assert [c][..0] == [];
    assert ReadText(s, []) == s;
  }

  /** Inside single quotes the body of a token adds the token. */
  lemma {:induction false} BodyReads(s: Scan, t: Text)
    requires s.quoting == Single && !s.escaping && s.started
    ensures ReadText(s, QuoteBody(t)) == s.(token := s.token + t)
  {
    hide Read, QuoteUnit;
    if t == [] {
      assert s.token + t == s.token;
    } else {
      var front, c := t[..|t| - 1], t[|t| - 1];
      BodyReads(s, front);
      var before := s.(token := s.token + front);
      assert before.token + [c] == s.token + t;
      ReadConcat(s, QuoteBody(front), QuoteUnit(c));
      UnitReads(before, c);
    }
  }

  lemma UnitReads(s: Scan, c: Unit)
    requires s.quoting == Single && !s.escaping && s.started
    ensures ReadText(s, QuoteUnit(c)) == s.(token := s.token + [c])
  {
    hide ReadText;
    if c == SINGLE_QUOTE {
      EscapedQuoteReads(s);
    } else {
      ReadOne(s, c);
    }
  }

  lemma EscapedQuoteReads(s: Scan)
    requires s.quoting == Single && !s.escaping && s.started
    ensures ReadText(s, [SINGLE_QUOTE, BACKSLASH, SINGLE_QUOTE, SINGLE_QUOTE]) == s.(token := s.token + [SINGLE_QUOTE])
  {
    var s1 := Read(s, SINGLE_QUOTE);
    var s2 := Read(s1, BACKSLASH);
    var s3 := Read(s2, SINGLE_QUOTE);
    ReadOne(s, SINGLE_QUOTE);
    ReadOne(s1, BACKSLASH);
    ReadOne(s2, SINGLE_QUOTE);
    ReadOne(s3, SINGLE_QUOTE);
    ReadConcat(s, [SINGLE_QUOTE], [BACKSLASH]);
    ReadConcat(s, [SINGLE_QUOTE, BACKSLASH], [SINGLE_QUOTE]);
    ReadConcat(s, [SINGLE_QUOTE, BACKSLASH, SINGLE_QUOTE], [SINGLE_QUOTE]);
    assert [SINGLE_QUOTE] + [BACKSLASH] == [SINGLE_QUOTE, BACKSLASH];
    assert [SINGLE_QUOTE, BACKSLASH] + [SINGLE_QUOTE] == [SINGLE_QUOTE, BACKSLASH, SINGLE_QUOTE];
    assert [SINGLE_QUOTE, BACKSLASH, SINGLE_QUOTE] + [SINGLE_QUOTE] == [SINGLE_QUOTE, BACKSLASH, SINGLE_QUOTE, SINGLE_QUOTE];
  }

  /** Between tokens, a quoted token is read as exactly that token. */
  lemma QuoteReads(s: Scan, t: Text)
    requires s.quoting == Plain && !s.escaping && !s.started && s.token == []
    ensures ReadText(s, Quote(t)) == s.(token := t, started := true)
  {
    hide ReadText, QuoteBody;
    var inside := Read(s, SINGLE_QUOTE);
    ReadOne(s, SINGLE_QUOTE);
    BodyReads(inside, t);
    ReadConcat(s, [SINGLE_QUOTE], QuoteBody(t));
    var closing := inside.(token := inside.token + t);
    ReadOne(closing, SINGLE_QUOTE);
    ReadConcat(s, [SINGLE_QUOTE] + QuoteBody(t), [SINGLE_QUOTE]);
    assert [] + t == t;
  }

  /** The rendered tokens are read one by one; the last is still in the making. */
  lemma {:induction false} RenderReads(tokens: seq<Text>)
    requires tokens != []
    ensures ReadText(START, Render(tokens)) == Scan(tokens[..|tokens| - 1], tokens[|tokens| - 1], Plain, false, true)
  {
    hide Quote;
    var front, last := tokens[..|tokens| - 1], tokens[|tokens| - 1];
    if |tokens| == 1 {
      QuoteReads(START, last);
    } else {
      RenderReads(front);
      ReadConcat(START, Render(front), [SPACE]);
      var s := ReadText(START, Render(front));
      ReadOne(s, SPACE);
      ReadConcat(START, Render(front) + [SPACE], Quote(last));
      assert Push(s).tokens == front;
      QuoteReads(Push(s), last);
    }
  }

  lemma {:induction false} RenderEnds(tokens: seq<Text>)
    requires tokens != []
    ensures Render(tokens) != [] && Render(tokens)[0] == SINGLE_QUOTE && Render(tokens)[|Render(tokens)| - 1] == SINGLE_QUOTE
  {
    if |tokens| > 1 {
      RenderEnds(tokens[..|tokens| - 1]);
    }
  }

  /** Tokens that fit into one command line. */
  predicate Fits(tokens: seq<Text>) {
    tokens != [] && tokens[0] != [] && |tokens| - 1 <= MAX_ARGUMENTS && Acceptable(Render(tokens))
  }

  /**
   The tokenizer inverts single-quote rendering, empty arguments and embedded quotes included:
   it gives the tokens back exactly when they fit, and refuses the rendering otherwise.
   */
  lemma RenderRoundTrip(tokens: seq<Text>)
    ensures Parse(Render(tokens)) == if Fits(tokens) then Some(Command(tokens[0], tokens[1..])) else None
  {
    hide Render, ReadText;
    if tokens == [] {
      EmptyRender();
    } else {
      RenderEnds(tokens);
      RenderReads(tokens);
      var s := ReadText(START, Render(tokens));
      assert Push(s).tokens == tokens;
    }
  }

  lemma EmptyRender()
    ensures Render([]) == []
  {
  }

  lemma {:induction false} BodyUnits(t: Text, c: Unit)
    requires c != SINGLE_QUOTE && c != BACKSLASH
    ensures c in QuoteBody(t) <==> c in t
  {
    if t != [] {
      BodyUnits(t[..|t| - 1], c);
      assert t == t[..|t| - 1] + [t[|t| - 1]];
    }
  }

  /** Rendering adds no character that the tokenizer refuses: a zero or a line end in it comes from a token. */
  lemma {:induction false} RenderUnits(tokens: seq<Text>, c: Unit)
    requires c != SINGLE_QUOTE && c != BACKSLASH && c != SPACE
    ensures c in Render(tokens) <==> exists k :: 0 <= k < |tokens| && c in tokens[k]
  {
    hide QuoteBody;
    if tokens != [] {
      var front, last := tokens[..|tokens| - 1], tokens[|tokens| - 1];
      BodyUnits(last, c);
      RenderUnits(front, c);
      assert c in Quote(last) <==> c in last;
      assert forall k :: 0 <= k < |front| ==> front[k] == tokens[k];
      assert tokens[|tokens| - 1] == last;
    }
  }
}
