/** The scanning loops of non-secret-policy.ts, each against the shape it is meant to recognise. */
module SecretScan {
  import opened Options
  import opened Texts

  // ---- assigned code points

  datatype Range = Range(low: int, high: int)

  /** Ranges in ascending order that do not meet. */
  predicate Ascending(ranges: seq<Range>) {
    && (forall k :: 0 <= k < |ranges| ==> ranges[k].low <= ranges[k].high)
    && (forall j, k :: 0 <= j < k < |ranges| ==> ranges[j].high < ranges[k].low)
  }

  predicate InRange(r: Range, c: int) { r.low <= c <= r.high }

  /** `isFrozenAssignedKeyScalar`: the binary search finds exactly the code points that lie in some range. */
  method IsAssigned(ranges: seq<Range>, c: int) returns (found: bool)
    requires Ascending(ranges)
    ensures found <==> exists k :: 0 <= k < |ranges| && InRange(ranges[k], c)
  {
    var lower, upper := 0, |ranges| - 1;
    while lower <= upper
      invariant 0 <= lower <= |ranges| && -1 <= upper < |ranges|
      invariant forall k :: 0 <= k < lower || upper < k < |ranges| ==> !InRange(ranges[k], c)
      decreases upper - lower
    {
      var middle := lower + (upper - lower) / 2;
      if c < ranges[middle].low {
        upper := middle - 1;
      } else if c > ranges[middle].high {
        lower := middle + 1;
      } else {
        return true;
      }
    }
    return false;
  }

  // ---- substring search

  /** `indexOf` with a start index: the first occurrence from there on. */
  function IndexOf(value: Text, piece: Text, from: nat): (r: Option<nat>)
    requires from <= |value|
    ensures r.Some? ==> from <= r.value && At(value, r.value, piece)
    ensures r.Some? ==> forall i :: from <= i < r.value ==> !At(value, i, piece)
    ensures r.None? ==> forall i :: from <= i ==> !At(value, i, piece)
    decreases |value| - from
  {
    if At(value, from, piece) then Some(from) else if from == |value| then None else IndexOf(value, piece, from + 1)
  }

  // ---- private keys

  datatype MarkerRule = MarkerRule(begin: Text, suffix: Text, separator: Text)

  /** `n` capital letters stand in the value at `j`. */
  predicate CapitalsAt(value: Text, j: nat, n: nat) { j + n <= |value| && forall k :: j <= k < j + n ==> IsUpper(value[k]) }

  /** A label of `n` capital letters, the separator, and the suffix. */
  predicate LabelledAt(value: Text, rule: MarkerRule, j: nat, n: nat) {
    && n > 0 && CapitalsAt(value, j, n) && At(value, j + n, rule.separator)
    && At(value, j + n + |rule.separator|, rule.suffix)
  }

  ghost predicate HasLabel(value: Text, rule: MarkerRule, j: nat) { exists n: nat :: LabelledAt(value, rule, j, n) }

  /** A private-key marker at `i`: the begin, then the suffix, perhaps with a label before it. */
  ghost predicate MarkerAt(value: Text, rule: MarkerRule, i: nat) {
    && At(value, i, rule.begin)
    && (At(value, i + |rule.begin|, rule.suffix) || HasLabel(value, rule, i + |rule.begin|))
  }

  /** Nothing but the longest run of capitals can be the label, since the separator does not begin with one. */
  lemma LabelIsLongest(value: Text, rule: MarkerRule, j: nat, longest: nat, n: nat)
    requires rule.separator != [] && !IsUpper(rule.separator[0])
    requires CapitalsAt(value, j, longest) && !(j + longest < |value| && IsUpper(value[j + longest]))
    requires LabelledAt(value, rule, j, n)
    ensures n == longest
  {
  }

  /** `hasPrivateKeyMarker`: true exactly when a marker stands somewhere in the value, overlapping begins included. */
  method HasPrivateKeyMarker(value: Text, rule: MarkerRule) returns (found: bool)
    requires rule.separator != [] && !IsUpper(rule.separator[0])
    ensures found <==> exists i: nat :: MarkerAt(value, rule, i)
  {
    var searchFrom := 0;
    while searchFrom <= |value|
      invariant 0 <= searchFrom
      invariant forall i: nat :: i < searchFrom ==> !MarkerAt(value, rule, i)
      decreases |value| + 1 - searchFrom
    {
      var begin := IndexOf(value, rule.begin, searchFrom);
      if begin.None? {
        return false;
      }
      var contentStart := begin.value + |rule.begin|;
      if At(value, contentStart, rule.suffix) {
        assert MarkerAt(value, rule, begin.value);
        return true;
      }
      var labelEnd := contentStart;
      while labelEnd < |value| && IsUpper(value[labelEnd])
        invariant contentStart <= labelEnd <= |value| && CapitalsAt(value, contentStart, labelEnd - contentStart)
      {
        labelEnd := labelEnd + 1;
      }
      if labelEnd > contentStart && At(value, labelEnd, rule.separator) && At(value, labelEnd + |rule.separator|, rule.suffix) {
        assert LabelledAt(value, rule, contentStart, labelEnd - contentStart) && HasLabel(value, rule, contentStart);
        assert MarkerAt(value, rule, begin.value);
        return true;
      }
      forall n: nat ensures !LabelledAt(value, rule, contentStart, n) {
        if LabelledAt(value, rule, contentStart, n) {
          LabelIsLongest(value, rule, contentStart, labelEnd - contentStart, n);
        }
      }
      searchFrom := begin.value + 1;
    }
    return false;
  }

  // ---- prefixed tokens

  predicate IsTokenUnit(c: Unit) { IsDigit(c) || IsUpper(c) || 97 <= c <= 122 || c == 95 || c == 45 }

  predicate TokenUnitsAt(value: Text, j: nat, n: nat) { j + n <= |value| && forall k :: j <= k < j + n ==> IsTokenUnit(value[k]) }

  /** A token at `i`: the prefix and at least `minimum` token characters behind it. */
  predicate TokenAt(value: Text, prefix: Text, minimum: nat, i: nat) {
    At(value, i, prefix) && TokenUnitsAt(value, i + |prefix|, minimum)
  }

  /** The search for one prefix: every occurrence is tried, overlapping ones included. */
  method HasTokenWithPrefix(value: Text, prefix: Text, minimum: nat) returns (found: bool)
    ensures found <==> exists i: nat :: TokenAt(value, prefix, minimum, i)
  {
    var searchFrom := 0;
    while searchFrom <= |value|
      invariant 0 <= searchFrom
      invariant forall i: nat :: i < searchFrom ==> !TokenAt(value, prefix, minimum, i)
      decreases |value| + 1 - searchFrom
    {
      var start := IndexOf(value, prefix, searchFrom);
      if start.None? {
        return false;
      }
      var length, index := 0, start.value + |prefix|;
      while index < |value| && IsTokenUnit(value[index])
        invariant index == start.value + |prefix| + length <= |value| && TokenUnitsAt(value, start.value + |prefix|, length)
      {
        length, index := length + 1, index + 1;
      }
      if length >= minimum {
        assert TokenAt(value, prefix, minimum, start.value);
        return true;
      }
      searchFrom := start.value + 1;
    }
    return false;
  }

  /** `hasPrefixedToken`: true exactly when some prefix is followed, somewhere in the value, by a long enough suffix. */
  method HasPrefixedToken(value: Text, prefixes: seq<Text>, minimum: nat) returns (found: bool)
    ensures found <==> exists p: nat, i: nat :: p < |prefixes| && TokenAt(value, prefixes[p], minimum, i)
  {
    for p := 0 to |prefixes|
      invariant forall q: nat, i: nat :: q < p ==> !TokenAt(value, prefixes[q], minimum, i)
    {
      var has := HasTokenWithPrefix(value, prefixes[p], minimum);
      if has {
        return true;
      }
    }
    return false;
  }

  // ---- authorization values

  /** `schemes` says which scheme names match, in any case; `blank` is the whitespace list. */
  datatype AuthorizationRule = AuthorizationRule(schemes: seq<int> -> bool, blank: int -> bool, minimum: nat)

  /** A scheme, some white space, and a long enough payload without any, in code points. */
  predicate AuthorizationAt(value: seq<int>, rule: AuthorizationRule, separator: nat, payload: nat) {
    && 0 < separator < payload <= |value| && |value| - payload >= rule.minimum && rule.schemes(value[..separator])
    && (forall k :: 0 <= k < separator ==> !rule.blank(value[k]))
    && (forall k :: separator <= k < payload ==> rule.blank(value[k]))
    && (forall k :: payload <= k < |value| ==> !rule.blank(value[k]))
  }

  /** The parts of such a value are determined: the first blank, and the first character after the blanks. */
  lemma AuthorizationParts(value: seq<int>, rule: AuthorizationRule, first: nat, separator: nat, payload: nat)
    requires AuthorizationAt(value, rule, separator, payload)
    requires first <= |value| && (forall k :: 0 <= k < first ==> !rule.blank(value[k]))
    requires first < |value| ==> rule.blank(value[first])
    ensures first == separator
  {
    assert rule.blank(value[separator]);
  }

  lemma PayloadPart(value: seq<int>, rule: AuthorizationRule, separator: nat, first: nat, payload: nat)
    requires AuthorizationAt(value, rule, separator, payload)
    requires separator <= first <= |value| && (forall k :: separator <= k < first ==> rule.blank(value[k]))
    requires first < |value| ==> !rule.blank(value[first])
    ensures payload == first
  {
    assert payload < |value| ==> !rule.blank(value[payload]);
    assert first < |value| ==> !rule.blank(value[first]);
  }

  /** `isAuthorization`: true exactly for a scheme, white space and a payload. */
  method IsAuthorization(value: seq<int>, rule: AuthorizationRule) returns (found: bool)
    ensures found <==> exists separator: nat, payload: nat :: AuthorizationAt(value, rule, separator, payload)
  {
    var separator := 0;
    while separator < |value| && !rule.blank(value[separator])
      invariant 0 <= separator <= |value| && forall k :: 0 <= k < separator ==> !rule.blank(value[k])
    {
      separator := separator + 1;
    }
    forall s: nat, p: nat | AuthorizationAt(value, rule, s, p) ensures s == separator {
      AuthorizationParts(value, rule, separator, s, p);
    }
    if separator == |value| || separator == 0 || !rule.schemes(value[..separator]) {
      return false;
    }
    var payload := separator;
    while payload < |value| && rule.blank(value[payload])
      invariant separator <= payload <= |value| && forall k :: separator <= k < payload ==> rule.blank(value[k])
    {
      payload := payload + 1;
    }
    forall s: nat, p: nat | AuthorizationAt(value, rule, s, p) ensures p == payload {
      PayloadPart(value, rule, separator, payload, p);
    }
    if |value| - payload < rule.minimum {
      return false;
    }
    for k := payload to |value|
      invariant forall j :: payload <= j < k ==> !rule.blank(value[j])
    {
      if rule.blank(value[k]) {
        return false;
      }
    }
    assert AuthorizationAt(value, rule, separator, payload);
    return true;
  }
}
