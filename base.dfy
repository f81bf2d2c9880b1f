/**
 * Helpers shared by every module: optional values and results, the
 * identifier and clock types that stand for MongoDB ObjectIds and Dates,
 * and the two string normalisations that Mongoose applies to schema fields
 * marked `trim` and `lowercase`.
 */
module Base {

  datatype Option<T> = None | Some(value: T)

  datatype Result<T, E> = Ok(value: T) | Err(error: E)

  /** Document identifiers (MongoDB ObjectIds) are opaque; equality is all that matters. */
  type UserId = nat
  type SessionId = nat
  type QuestionId = nat

  /** A point in time (a `Date`); supplied by the caller, never read from a clock. */
  type Time = nat

  /** A value is "truthy" in the JavaScript sense: present and not the empty string. */
  predicate Truthy(s: Option<string>) {
    s.Some? && s.value != ""
  }

  /** `s.length` in JavaScript: UTF-16 code units, two for a character outside the Basic Multilingual Plane. */
  function JsLength(s: string): (n: nat)
    ensures |s| <= n <= 2 * |s|
  {
    if s == [] then 0 else JsLength(s[..|s| - 1]) + (if s[|s| - 1] as int > 0xFFFF then 2 else 1)
  }

  /** On text without astral characters (say Hebrew or Latin) the two lengths agree. */
  lemma {:induction false} JsLengthOfBmp(s: string)
    requires forall i :: 0 <= i < |s| ==> s[i] as int <= 0xFFFF
    ensures JsLength(s) == |s|
  {
    if s != [] {
      JsLengthOfBmp(s[..|s| - 1]);
    }
  }

  /** Characters removed by JavaScript's `String.prototype.trim` (WhiteSpace and LineTerminator). */
  predicate IsJsWhitespace(c: char) {
    || ('\U{9}' <= c <= '\U{D}') || c == ' ' || c == '\U{A0}' || c == '\U{1680}'
    || ('\U{2000}' <= c <= '\U{200A}')
    || c == '\U{2028}' || c == '\U{2029}' || c == '\U{202F}' || c == '\U{205F}' || c == '\U{3000}'
    || c == '\U{FEFF}'
  }

  /** Drops leading whitespace. */
  function TrimStart(s: string): (r: string)
    ensures |r| <= |s| && r == s[|s| - |r|..]
    ensures forall i :: 0 <= i < |s| - |r| ==> IsJsWhitespace(s[i])
    ensures r == [] || !IsJsWhitespace(r[0])
  {
    if |s| > 0 && IsJsWhitespace(s[0]) then TrimStart(s[1..]) else s
  }

  /** Drops trailing whitespace. */
  function TrimEnd(s: string): (r: string)
    ensures |r| <= |s| && r == s[..|r|]
    ensures forall i :: |r| <= i < |s| ==> IsJsWhitespace(s[i])
    ensures r == [] || !IsJsWhitespace(r[|r| - 1])
  {
    if |s| > 0 && IsJsWhitespace(s[|s| - 1]) then TrimEnd(s[..|s| - 1]) else s
  }

  /** JavaScript's `trim`: the Mongoose `trim: true` setter. */
  function Trim(s: string): string {
    TrimEnd(TrimStart(s))
  }

  /** A string with no leading or trailing whitespace is its own trim. */
  lemma {:induction false} TrimOfTrimmed(s: string)
    requires s == [] || (!IsJsWhitespace(s[0]) && !IsJsWhitespace(s[|s| - 1]))
    ensures Trim(s) == s
  {
  }

  /** Trimming twice is trimming once. */
  lemma TrimIdempotent(s: string)
    ensures Trim(Trim(s)) == Trim(s)
  {
    TrimIsTrimmed(s);
    TrimOfTrimmed(Trim(s));
  }

  /** Neither end of the string is whitespace: the form the `trim` setter stores. */
  predicate IsTrimmed(s: string) {
    s == [] || (!IsJsWhitespace(s[0]) && !IsJsWhitespace(s[|s| - 1]))
  }

  /** A trimmed string is one that trimming leaves as it is. */
  lemma TrimmedIffFixed(s: string)
    ensures IsTrimmed(s) <==> Trim(s) == s
  {
    if IsTrimmed(s) {
      TrimOfTrimmed(s);
    }
    TrimIsTrimmed(s);
  }

  lemma TrimIsTrimmed(s: string)
    ensures IsTrimmed(Trim(s))
  {
    var t := Trim(s);
    if t != [] {
      var u := TrimStart(s);
      assert t == u[..|t|];
      assert t[0] == u[0];
    }
  }

  /** Lower-cases ASCII letters; every other character is kept. */
  function LowerChar(c: char): (r: char)
    ensures ('A' <= c <= 'Z') == (r != c)
    ensures !('A' <= r <= 'Z')
  {
    if 'A' <= c <= 'Z' then (c as int - 'A' as int + 'a' as int) as char else c
  }

  /** The Mongoose `lowercase: true` setter, restricted to ASCII letters. */
  function Lower(s: string): (r: string)
    ensures |r| == |s|
    ensures forall i :: 0 <= i < |s| ==> r[i] == LowerChar(s[i])
  {
    seq(|s|, i requires 0 <= i < |s| => LowerChar(s[i]))
  }

  /** A string is lower case when no ASCII capital occurs in it. */
  predicate IsLower(s: string) {
    forall i :: 0 <= i < |s| ==> !('A' <= s[i] <= 'Z')
  }

  lemma LowerIsLower(s: string)
    ensures IsLower(Lower(s))
    ensures IsLower(s) ==> Lower(s) == s
  {
  }

  /** Lower-casing leaves whitespace in place, so it commutes with each half of trimming. */
  lemma {:induction false} LowerTrimStart(s: string)
    ensures Lower(TrimStart(s)) == TrimStart(Lower(s))
  {
    if |s| > 0 && IsJsWhitespace(s[0]) {
      assert Lower(s)[1..] == Lower(s[1..]);
      LowerTrimStart(s[1..]);
    }
  }

  lemma {:induction false} LowerTrimEnd(s: string)
    ensures Lower(TrimEnd(s)) == TrimEnd(Lower(s))
  {
    if |s| > 0 && IsJsWhitespace(s[|s| - 1]) {
      assert Lower(s)[..|s| - 1] == Lower(s[..|s| - 1]);
      LowerTrimEnd(s[..|s| - 1]);
    }
  }

  /** The stored form of a field declared `lowercase: true, trim: true`. Lower-casing and trimming
      commute (`LowerTrimStart`, `LowerTrimEnd`), so the order of the setters does not matter. */
  function NormalizeEmail(e: string): string {
    Trim(Lower(e))
  }

  /** An e-mail in normal form: lower case and trimmed. */
  predicate IsNormalEmail(e: string) {
    IsLower(e) && IsTrimmed(e)
  }

  /** Normalising an already-normalised e-mail changes nothing, so a stored e-mail is in normal form. */
  lemma NormalizeEmailIdempotent(e: string)
    ensures NormalizeEmail(NormalizeEmail(e)) == NormalizeEmail(e)
    ensures IsNormalEmail(NormalizeEmail(e))
  {
    var l := Lower(e);
    var t := Trim(l);
    LowerIsLower(e);
    assert Lower(l) == l;
    calc {
      Lower(t);
      Lower(TrimEnd(TrimStart(l)));
      { LowerTrimEnd(TrimStart(l)); }
      TrimEnd(Lower(TrimStart(l)));
      { LowerTrimStart(l); }
      TrimEnd(TrimStart(Lower(l)));
      t;
    }
    LowerIsLower(t);
    TrimIdempotent(l);
    TrimIsTrimmed(l);
  }

  /** The normal form is exactly what normalising leaves unchanged. */
  lemma NormalIffFixed(e: string)
    ensures IsNormalEmail(e) <==> NormalizeEmail(e) == e
  {
    if IsNormalEmail(e) {
      LowerIsLower(e);
      TrimmedIffFixed(e);
    }
    NormalizeEmailIdempotent(e);
  }

  /** Some bound lies above every element of a finite set of identifiers. */
  lemma {:induction false} IdBound(ids: set<nat>) returns (b: nat)
    ensures forall x :: x in ids ==> x < b
    decreases ids
  {
    if ids == {} {
      b := 0;
    } else {
      var x :| x in ids;
      var rest := IdBound(ids - {x});
      b := if x < rest then rest else x + 1;
      forall y | y in ids ensures y < b {
        if y != x {
          assert y in ids - {x};
        }
      }
    }
  }

  /** There is always an identifier not yet in use (what ObjectId generation provides). */
  lemma FreshIdExists(ids: set<nat>)
    ensures exists n: nat :: n !in ids
  {
    var b := IdBound(ids);
    assert b !in ids;
  }
}
