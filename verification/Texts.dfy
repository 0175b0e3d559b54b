/**
 Text as the source language holds it: a sequence of UTF-16 code units, in which
 a lone surrogate is an ordinary value.  Units are plain integers here, so that
 what is proved of all texts holds in particular of those within 16 bits.
 */
module Texts {
  type Unit = int
  type Text = seq<Unit>

  /** Code units are not negative; nothing here depends on their upper bound. */
  predicate IsText(t: Text) { forall k :: 0 <= k < |t| ==> 0 <= t[k] }

  /** The code units of a literal; the literals here are ASCII. */
  function A(s: string): (t: Text)
    ensures |t| == |s| && IsText(t)
  {
    seq(|s|, i requires 0 <= i < |s| => s[i] as int)
  }

  lemma LiteralsDiffer(a: string, b: string)
    ensures A(a) == A(b) ==> a == b
  {
    if A(a) == A(b) {
      forall i | 0 <= i < |a| ensures a[i] == b[i] {
        assert A(a)[i] == A(b)[i];
      }
    }
  }

  /** `piece` stands in `t` at index `i`. */
  predicate At(t: Text, i: nat, piece: Text) {
    i + |piece| <= |t| && forall k {:trigger piece[k]} :: 0 <= k < |piece| ==> t[i + k] == piece[k]
  }

  lemma AtSlice(t: Text, i: nat, j: nat)
    requires i <= j <= |t|
    ensures At(t, i, t[i..j])
  {
  }

  lemma AtConcat(t: Text, i: nat, p: Text, q: Text)
    ensures At(t, i, p + q) <==> At(t, i, p) && At(t, i + |p|, q)
  {
    if At(t, i, p + q) {
      forall k | 0 <= k < |p| ensures t[i + k] == p[k] { assert (p + q)[k] == p[k]; }
      forall k | 0 <= k < |q| ensures t[i + |p| + k] == q[k] { assert (p + q)[|p| + k] == q[k]; }
    }
  }

  predicate IsDigit(c: Unit) { 48 <= c <= 57 }

  predicate IsUpper(c: Unit) { 65 <= c <= 90 }

  predicate IsHex(c: Unit) { IsDigit(c) || 65 <= c <= 70 || 97 <= c <= 102 }

  function HexValue(c: Unit): (n: nat)
    requires IsHex(c)
    ensures n < 16
  {
    if IsDigit(c) then c - 48 else if c <= 70 then c - 55 else c - 87
  }

  /** Lower-case hexadecimal digit. */
  function HexDigit(n: nat): (c: Unit)
    requires n < 16
    ensures IsHex(c) && HexValue(c) == n
  {
    if n < 10 then 48 + n else 87 + n
  }

  predicate IsLead(c: Unit) { 0xD800 <= c < 0xDC00 }

  predicate IsTrail(c: Unit) { 0xDC00 <= c < 0xE000 }

  /** String comparison `<` of the source language: by code unit, the shorter prefix first. */
  predicate Less(a: Text, b: Text)
    decreases |a|
  {
    if b == [] then false
    else if a == [] then true
    else if a[0] != b[0] then a[0] < b[0]
    else Less(a[1..], b[1..])
  }

  /** `Buffer.byteLength(text, "utf8")`: a surrogate pair takes four bytes, a lone surrogate three. */
  function Utf8Length(t: Text): nat
    decreases |t|
  {
    if t == [] then 0
    else if t[0] < 0x80 then 1 + Utf8Length(t[1..])
    else if t[0] < 0x800 then 2 + Utf8Length(t[1..])
    else if |t| >= 2 && IsLead(t[0]) && IsTrail(t[1]) then 4 + Utf8Length(t[2..])
    else 3 + Utf8Length(t[1..])
  }
}
