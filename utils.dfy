// Helpers of frontend/src/core/utils.js: JavaScript string coercion of the
// values a header cell can hold, `normalizeName`, and `columnIndexToLetter`.
module Utils {

  /** A value that may be absent (JavaScript's null / null-object sentinel). */
  datatype Option<T> = None | Some(value: T)

  // ---------------------------------------------------------------------
  // JavaScript values and their string coercion
  // ---------------------------------------------------------------------

  /** The values a spreadsheet cell or a name can hold, as JavaScript sees them.
      Numbers are restricted to integers. */
  datatype JsValue = Null | Undefined | Str(s: string) | Num(n: int) | Bool(b: bool)

  /** JavaScript truthiness: null, undefined, "", 0 and false are falsy. */
  predicate Truthy(v: JsValue) {
    match v
    case Null => false
    case Undefined => false
    case Str(s) => s != ""
    case Num(n) => n != 0
    case Bool(b) => b
  }

  predicate IsDigit(c: char) { '0' <= c <= '9' }

  /** Decimal digits of a natural number, most significant first, no leading zero. */
  function NatToString(n: nat): (s: string)
    ensures |s| >= 1
    decreases n
  {
    if n < 10 then [(48 + n) as char] else NatToString(n / 10) + [(48 + n % 10) as char]
  }

  /** Value of a string of decimal digits. */
  function DecimalValue(s: string): int {
    if s == [] then 0 else DecimalValue(s[..|s| - 1]) * 10 + (s[|s| - 1] as int - 48)
  }

  /** Reading the digits back gives the number: distinct numbers print differently. */
  lemma {:induction false} NatToStringRoundTrip(n: nat)
    ensures DecimalValue(NatToString(n)) == n
    decreases n
  {
    if n >= 10 {
      NatToStringRoundTrip(n / 10);
      var s := NatToString(n);
      assert s[..|s| - 1] == NatToString(n / 10);
    }
  }

  /** The result is made of decimal digits only. */
  lemma {:induction false} NatToStringDigits(n: nat)
    ensures forall i :: 0 <= i < |NatToString(n)| ==> IsDigit(NatToString(n)[i])
    decreases n
  {
    if n >= 10 {
      NatToStringDigits(n / 10);
    }
  }

  /** `String(n)` for an integer. */
  function IntToString(n: int): string {
    if n < 0 then "-" + NatToString(-n) else NatToString(n)
  }

  /** `String(v)`. */
  function ToStr(v: JsValue): string {
    match v
    case Null => "null"
    case Undefined => "undefined"
    case Str(s) => s
    case Num(n) => IntToString(n)
    case Bool(b) => if b then "true" else "false"
  }

  // ---------------------------------------------------------------------
  // Characters: whitespace and case (ASCII)
  // ---------------------------------------------------------------------

  /** Whitespace as `trim` and `\s` see it, restricted to ASCII. */
  predicate IsSpace(c: char) {
    c == ' ' || c == '\t' || c == '\n' || c == '\r' || c == '\U{000B}' || c == '\U{000C}'
  }

  predicate IsUpper(c: char) { 'A' <= c <= 'Z' }

  function LowerChar(c: char): (d: char)
    ensures !IsUpper(d)
    ensures IsSpace(d) <==> IsSpace(c)
    ensures !IsUpper(c) ==> d == c
  {
    if IsUpper(c) then (c as int + 32) as char else c
  }

  predicate NoSpace(s: string) { forall i :: 0 <= i < |s| ==> !IsSpace(s[i]) }

  predicate NoUpper(s: string) { forall i :: 0 <= i < |s| ==> !IsUpper(s[i]) }

  /** `toLowerCase()` on ASCII letters. */
  function Lower(s: string): (r: string)
    ensures |r| == |s| && NoUpper(r)
    ensures forall i :: 0 <= i < |s| ==> (IsSpace(r[i]) <==> IsSpace(s[i]))
    ensures NoUpper(s) ==> r == s
  {
    seq(|s|, i requires 0 <= i < |s| => LowerChar(s[i]))
  }

  // ---------------------------------------------------------------------
  // trim()
  // ---------------------------------------------------------------------

  predicate AllSpace(s: string) { forall i :: 0 <= i < |s| ==> IsSpace(s[i]) }

  /** Drops the leading whitespace. */
  function TrimStart(s: string): (r: string)
    ensures |r| <= |s|
  {
    if s != [] && IsSpace(s[0]) then TrimStart(s[1..]) else s
  }

  /** Drops the trailing whitespace. */
  function TrimEnd(s: string): (r: string)
    ensures |r| <= |s|
  {
    if s != [] && IsSpace(s[|s| - 1]) then TrimEnd(s[..|s| - 1]) else s
  }

  /** `trim()`: the input without its leading and trailing whitespace. */
  function Trim(s: string): string {
    TrimEnd(TrimStart(s))
  }

  /** TrimStart removes exactly the whitespace prefix that ends at the first other character. */
  lemma {:induction false} TrimStartExact(s: string, k: nat)
    requires k <= |s| && (k == |s| || !IsSpace(s[k]))
    requires AllSpace(s[..k])
    ensures TrimStart(s) == s[k..]
    decreases k
  {
    if k > 0 {
      assert IsSpace(s[..k][0]);
      assert s[1..][k - 1..] == s[k..];
      assert s[1..][..k - 1] == s[1..k];
      assert forall i :: 0 <= i < k - 1 ==> s[1..k][i] == s[..k][i + 1];
      TrimStartExact(s[1..], k - 1);
    }
  }

  /** TrimEnd removes exactly the whitespace suffix that starts after the last other character. */
  lemma {:induction false} TrimEndExact(s: string, k: nat)
    requires k <= |s| && (k == 0 || !IsSpace(s[k - 1]))
    requires AllSpace(s[k..])
    ensures TrimEnd(s) == s[..k]
    decreases |s| - k
  {
    if k < |s| {
      var p := s[..|s| - 1];
      assert IsSpace(s[k..][|s| - 1 - k]);
      assert p[..k] == s[..k];
      assert p[k..] == s[k..|s| - 1];
      assert forall i :: 0 <= i < |s| - 1 - k ==> p[k..][i] == s[k..][i];
      TrimEndExact(p, k);
    } else {
      assert s[..k] == s;
    }
  }

  lemma {:induction false} TrimStartEmptyIff(s: string)
    ensures TrimStart(s) == [] <==> AllSpace(s)
    decreases |s|
  {
    if s != [] {
      TrimStartEmptyIff(s[1..]);
      assert forall i :: 1 <= i < |s| ==> s[i] == s[1..][i - 1];
    }
  }

  lemma {:induction false} AllSpaceTrimEnd(s: string)
    requires AllSpace(s)
    ensures TrimEnd(s) == []
    decreases |s|
  {
    if s != [] {
      AllSpaceTrimEnd(s[..|s| - 1]);
    }
  }

  lemma TrimStartNoLead(s: string)
    ensures TrimStart(s) == [] || !IsSpace(TrimStart(s)[0])
  {
    var k :| 0 <= k <= |s| && (k == |s| || !IsSpace(s[k])) && AllSpace(s[..k]) by {
      FirstNonSpace(s);
    }
    TrimStartExact(s, k);
  }

  lemma {:induction false} TrimEndNoTrail(s: string)
    ensures TrimEnd(s) == [] || !IsSpace(TrimEnd(s)[|TrimEnd(s)| - 1])
    decreases |s|
  {
    if s != [] && IsSpace(s[|s| - 1]) {
      TrimEndNoTrail(s[..|s| - 1]);
    }
  }

  /** `trim()` leaves neither leading nor trailing whitespace. */
  lemma TrimShape(s: string)
    ensures Trim(s) == [] || (!IsSpace(Trim(s)[0]) && !IsSpace(Trim(s)[|Trim(s)| - 1]))
  {
    TrimEndNoTrail(TrimStart(s));
    TrimEndTrimStartCommute(s);
    TrimStartNoLead(TrimEnd(s));
  }

  /** A string with a non-space character normalizes to a non-empty name. */
  lemma NormalizeNonEmpty(s: string)
    requires !AllSpace(s)
    ensures NormalizeText(s) != ""
  {
    TrimStartEmptyIff(s);
    TrimStartNoLead(s);
    var t := TrimStart(s);
    assert !AllSpace(t);
    TrimEndKeepsFirst(t);
  }

  lemma {:induction false} FirstNonSpace(s: string)
    ensures exists k :: 0 <= k <= |s| && (k == |s| || !IsSpace(s[k])) && AllSpace(s[..k])
    decreases |s|
  {
    if s == [] || !IsSpace(s[0]) {
      assert AllSpace(s[..0]);
    } else {
      FirstNonSpace(s[1..]);
      var k :| 0 <= k <= |s| - 1 && (k == |s| - 1 || !IsSpace(s[1..][k])) && AllSpace(s[1..][..k]);
      assert forall j :: 0 <= j < k ==> s[..k + 1][j + 1] == s[1..][..k][j];
      assert AllSpace(s[..k + 1]);
    }
  }

  // ---------------------------------------------------------------------
  // normalizeName
  // ---------------------------------------------------------------------

  /** `replace(/\s+/g, "_")`: every maximal run of whitespace becomes one `_`. */
  function CollapseSpaces(s: string): string
    decreases |s|
  {
    if s == [] then []
    else if IsSpace(s[0]) then ['_'] + CollapseSpaces(TrimStart(s[1..]))
    else [s[0]] + CollapseSpaces(s[1..])
  }

  /** `normalizeName` applied to a string: trim, lower-case, whitespace runs to `_`. */
  function NormalizeText(s: string): string {
    CollapseSpaces(Lower(Trim(s)))
  }

  /** `normalizeName(v)`: a falsy value is treated as the empty string. */
  function NormalizeName(v: JsValue): string {
    NormalizeText(if Truthy(v) then ToStr(v) else "")
  }

  /** A falsy input (null, undefined, "", 0, false) normalizes to "". */
  lemma NormalizeFalsy(v: JsValue)
    requires !Truthy(v)
    ensures NormalizeName(v) == ""
  {
  }

  lemma {:induction false} CollapseSpacesNoSpace(s: string)
    ensures NoSpace(CollapseSpaces(s))
    ensures NoUpper(s) ==> NoUpper(CollapseSpaces(s))
    decreases |s|
  {
    if s == [] {
    } else if IsSpace(s[0]) {
      var t := TrimStart(s[1..]);
      CollapseSpacesNoSpace(t);
      if NoUpper(s) {
        TrimStartNoUpper(s[1..]);
      }
    } else {
      CollapseSpacesNoSpace(s[1..]);
    }
  }

  lemma {:induction false} TrimStartNoUpper(s: string)
    requires NoUpper(s)
    ensures NoUpper(TrimStart(s))
    decreases |s|
  {
    if s != [] && IsSpace(s[0]) {
      TrimStartNoUpper(s[1..]);
    }
  }

  lemma {:induction false} CollapseSpacesFixpoint(s: string)
    requires NoSpace(s)
    ensures CollapseSpaces(s) == s
    decreases |s|
  {
    if s != [] {
      CollapseSpacesFixpoint(s[1..]);
    }
  }

  /** The result of `normalizeName` holds no whitespace and no upper-case letter. */
  lemma NormalizeShape(v: JsValue)
    ensures NoSpace(NormalizeName(v)) && NoUpper(NormalizeName(v))
  {
    var s := if Truthy(v) then ToStr(v) else "";
    CollapseSpacesNoSpace(Lower(Trim(s)));
  }

  /** A string without whitespace and upper-case letters is left unchanged. */
  lemma NormalizeFixpoint(s: string)
    requires NoSpace(s) && NoUpper(s)
    ensures NormalizeText(s) == s
  {
    assert TrimStart(s) == s;
    assert TrimEnd(s) == s;
    CollapseSpacesFixpoint(s);
  }

  /** `normalizeName(normalizeName(x)) == normalizeName(x)`. */
  lemma NormalizeIdempotent(v: JsValue)
    ensures NormalizeName(Str(NormalizeName(v))) == NormalizeName(v)
  {
    var r := NormalizeName(v);
    NormalizeShape(v);
    if r != "" {
      assert Truthy(Str(r)) && ToStr(Str(r)) == r;
      NormalizeFixpoint(r);
    }
  }

  // ---------------------------------------------------------------------
  // The words view of normalizeName
  // ---------------------------------------------------------------------

  /** The longest prefix without whitespace. */
  function TakeWord(s: string): (w: string)
    ensures |w| <= |s|
    ensures s != [] && !IsSpace(s[0]) ==> |w| >= 1
  {
    if s == [] || IsSpace(s[0]) then [] else [s[0]] + TakeWord(s[1..])
  }

  /** The maximal whitespace-free runs of a string, left to right. */
  function Words(s: string): seq<string>
    decreases |s|
  {
    if s == [] then []
    else if IsSpace(s[0]) then Words(s[1..])
    else [TakeWord(s)] + Words(s[|TakeWord(s)|..])
  }

  /** Words joined by `_`. */
  function JoinUnderscore(ws: seq<string>): string {
    if |ws| == 0 then ""
    else if |ws| == 1 then ws[0]
    else ws[0] + "_" + JoinUnderscore(ws[1..])
  }

  lemma {:induction false} TakeWordSpec(s: string)
    ensures var w := TakeWord(s);
      && s == w + s[|w|..] && NoSpace(w)
      && (|w| == |s| || IsSpace(s[|w|]))
    decreases |s|
  {
    if s != [] && !IsSpace(s[0]) {
      TakeWordSpec(s[1..]);
      var w := TakeWord(s[1..]);
      assert s[1..] == w + s[1..][|w|..];
      assert s[1..][|w|..] == s[|w| + 1..];
    }
  }

  lemma {:induction false} TakeWordExact(s: string, k: nat)
    requires k <= |s| && (k == |s| || IsSpace(s[k]))
    requires NoSpace(s[..k])
    ensures TakeWord(s) == s[..k]
    decreases k
  {
    if k > 0 {
      assert !IsSpace(s[..k][0]);
      assert s[1..][..k - 1] == s[1..k];
      assert forall i :: 0 <= i < k - 1 ==> s[1..k][i] == s[..k][i + 1];
      TakeWordExact(s[1..], k - 1);
      assert s[..k] == [s[0]] + s[1..k];
    }
  }

  lemma {:induction false} WordsTrimStart(s: string)
    ensures Words(TrimStart(s)) == Words(s)
    decreases |s|
  {
    if s != [] && IsSpace(s[0]) {
      WordsTrimStart(s[1..]);
    }
  }

  lemma {:induction false} WordsOfSpaces(sp: string)
    requires AllSpace(sp)
    ensures Words(sp) == []
    decreases |sp|
  {
    if sp != [] {
      assert forall i :: 0 <= i < |sp| - 1 ==> sp[1..][i] == sp[i + 1];
      WordsOfSpaces(sp[1..]);
    }
  }

  lemma {:induction false} CollapseSpacesAppend(w: string, r: string)
    requires NoSpace(w)
    ensures CollapseSpaces(w + r) == w + CollapseSpaces(r)
    decreases |w|
  {
    if w != [] {
      assert (w + r)[0] == w[0] && !IsSpace(w[0]);
      assert (w + r)[1..] == w[1..] + r;
      CollapseSpacesAppend(w[1..], r);
      assert w + CollapseSpaces(r) == [w[0]] + (w[1..] + CollapseSpaces(r));
    } else {
      assert w + r == r;
    }
  }

  /** When `r` has a non-space character, trimming the end of `w + r` keeps all of `w`. */
  lemma {:induction false} TrimEndAppend(w: string, r: string)
    requires !AllSpace(r)
    ensures TrimEnd(w + r) == w + TrimEnd(r)
    decreases |r|
  {
    if IsSpace(r[|r| - 1]) {
      var p := r[..|r| - 1];
      assert (w + r)[..|w + r| - 1] == w + p;
      var i :| 0 <= i < |r| && !IsSpace(r[i]);
      assert i < |r| - 1 && p[i] == r[i];
      TrimEndAppend(w, p);
    }
  }

  lemma {:induction false} TrimEndAppendAllSpaces(w: string, r: string)
    requires NoSpace(w) && AllSpace(r)
    ensures TrimEnd(w + r) == w
  {
    var s := w + r;
    assert s[..|w|] == w && s[|w|..] == r;
    TrimEndExact(s, |w|);
  }

  lemma {:induction false} TrimEndKeepsFirst(s: string)
    requires !AllSpace(s)
    ensures TrimEnd(s) != [] && TrimEnd(s)[0] == s[0] && !AllSpace(TrimEnd(s))
    decreases |s|
  {
    if IsSpace(s[|s| - 1]) {
      var p := s[..|s| - 1];
      var i :| 0 <= i < |s| && !IsSpace(s[i]);
      assert i < |s| - 1 && p[i] == s[i];
      TrimEndKeepsFirst(p);
    }
  }

  lemma {:induction false} TrimEndTrimStartCommute(s: string)
    ensures TrimStart(TrimEnd(s)) == TrimEnd(TrimStart(s))
    decreases |s|
  {
    if s == [] || !IsSpace(s[0]) {
      var e := TrimEnd(s);
      if e != [] {
        TrimEndIsPrefix(s);
        assert e[0] == s[0];
      }
    } else if AllSpace(s) {
      TrimStartEmptyIff(s);
      AllSpaceTrimEnd(s);
    } else {
      var tail := s[1..];
      assert s == [s[0]] + tail;
      assert !AllSpace(tail) by {
        var i :| 0 <= i < |s| && !IsSpace(s[i]);
        assert i >= 1 && tail[i - 1] == s[i];
      }
      TrimEndAppend([s[0]], tail);
      var e := TrimEnd(tail);
      assert ([s[0]] + e)[1..] == e;
      TrimEndTrimStartCommute(tail);
    }
  }

  lemma {:induction false} TrimEndIsPrefix(s: string)
    ensures TrimEnd(s) == s[..|TrimEnd(s)|]
    decreases |s|
  {
    if s != [] && IsSpace(s[|s| - 1]) {
      var p := s[..|s| - 1];
      TrimEndIsPrefix(p);
      assert p[..|TrimEnd(p)|] == s[..|TrimEnd(p)|];
    }
  }

  lemma ConcatAssoc(a: string, b: string, c: string)
    ensures a + (b + c) == a + b + c
  {
  }

  lemma JoinCons(w: string, ws: seq<string>)
    requires ws != []
    ensures JoinUnderscore([w] + ws) == w + "_" + JoinUnderscore(ws)
  {
    assert ([w] + ws)[1..] == ws;
  }

  /** Whitespace that is followed by more words collapses to a single `_`. */
  lemma SpaceBeforeWord(r: string)
    requires r != [] && IsSpace(r[0]) && !AllSpace(r)
    ensures CollapseSpaces(TrimEnd(r)) == ['_'] + CollapseSpaces(TrimEnd(TrimStart(r)))
    ensures Words(r) == Words(TrimStart(r)) && Words(r) != []
  {
    TrimEndKeepsFirst(r);
    var e := TrimEnd(r);
    assert TrimStart(e) == TrimStart(e[1..]);
    TrimEndTrimStartCommute(r);
    WordsTrimStart(r);
    TrimStartEmptyIff(r);
    TrimStartNoLead(r);
  }

  lemma CollapseAfterWord(t: string, w: string, e: string)
    requires NoSpace(w) && TrimEnd(t) == w + e
    ensures CollapseSpaces(TrimEnd(t)) == w + CollapseSpaces(e)
  {
    CollapseSpacesAppend(w, e);
  }

  /** A word followed by more words: the whitespace between becomes one `_`. */
  lemma InnerWord(t: string, w: string, rest: string)
    requires t == w + rest && NoSpace(w)
    requires rest != [] && IsSpace(rest[0]) && !AllSpace(rest)
    ensures CollapseSpaces(TrimEnd(t)) == w + "_" + CollapseSpaces(TrimEnd(TrimStart(rest)))
  {
    TrimEndAppend(w, rest);
    CollapseAfterWord(t, w, TrimEnd(rest));
    SpaceBeforeWord(rest);
    ConcatAssoc(w, "_", CollapseSpaces(TrimEnd(TrimStart(rest))));
  }

  /** Core of the words view for a string without leading whitespace. */
  lemma {:induction false} CollapseTrimEndIsJoin(t: string)
    requires t == [] || !IsSpace(t[0])
    ensures CollapseSpaces(TrimEnd(t)) == JoinUnderscore(Words(t))
    decreases |t|
  {
    if t != [] {
      var w := TakeWord(t);
      var rest := t[|w|..];
      TakeWordSpec(t);
      assert Words(t) == [w] + Words(rest);
      if AllSpace(rest) {
        WordsOfSpaces(rest);
        TrimEndAppendAllSpaces(w, rest);
        CollapseSpacesFixpoint(w);
      } else {
        InnerWord(t, w, rest);
        SpaceBeforeWord(rest);
        var t2 := TrimStart(rest);
        TrimStartNoLead(rest);
        CollapseTrimEndIsJoin(t2);
        JoinCons(w, Words(rest));
      }
    }
  }

  lemma {:induction false} LowerTrimStart(s: string)
    ensures Lower(TrimStart(s)) == TrimStart(Lower(s))
    decreases |s|
  {
    if s != [] && IsSpace(s[0]) {
      assert Lower(s)[1..] == Lower(s[1..]);
      LowerTrimStart(s[1..]);
    }
  }

  lemma {:induction false} LowerTrimEnd(s: string)
    ensures Lower(TrimEnd(s)) == TrimEnd(Lower(s))
    decreases |s|
  {
    if s != [] && IsSpace(s[|s| - 1]) {
      assert Lower(s)[..|s| - 1] == Lower(s[..|s| - 1]);
      LowerTrimEnd(s[..|s| - 1]);
    }
  }

  /** `normalizeName` of a string is its lower-cased whitespace-free words joined by `_`:
      leading and trailing whitespace disappear and each inner run becomes exactly one `_`. */
  lemma NormalizeIsJoinedWords(s: string)
    ensures NormalizeText(s) == JoinUnderscore(Words(Lower(s)))
  {
    var x := Lower(s);
    LowerTrimStart(s);
    LowerTrimEnd(TrimStart(s));
    TrimStartNoLead(x);
    CollapseTrimEndIsJoin(TrimStart(x));
    WordsTrimStart(x);
  }

  /** Leading whitespace, a word, and then whitespace or nothing: the word comes first. */
  lemma {:induction false} WordsSplit(sp: string, w: string, rest: string)
    requires AllSpace(sp) && w != [] && NoSpace(w)
    requires rest == [] || IsSpace(rest[0])
    ensures Words(sp + w + rest) == [w] + Words(rest)
    decreases |sp|
  {
    var s := sp + w + rest;
    if sp == [] {
      assert s == w + rest;
      assert (w + rest)[..|w|] == w;
      TakeWordExact(w + rest, |w|);
      assert s[|w|..] == rest;
    } else {
      assert s[0] == sp[0];
      assert s[1..] == sp[1..] + w + rest;
      assert forall i :: 0 <= i < |sp| - 1 ==> sp[1..][i] == sp[i + 1];
      WordsSplit(sp[1..], w, rest);
    }
  }

  lemma LowerAppend(a: string, b: string)
    ensures Lower(a + b) == Lower(a) + Lower(b)
  {
  }

  lemma LowerKeepsSpaces(s: string)
    ensures AllSpace(s) ==> AllSpace(Lower(s))
    ensures NoSpace(s) ==> NoSpace(Lower(s))
    ensures s != [] ==> Lower(s) != []
  {
  }

  /** Lower-casing five concatenated pieces lower-cases each piece. */
  lemma LowerFive(a: string, w1: string, b: string, w2: string, c: string)
    ensures Lower(a + w1 + b + w2 + c) == Lower(a) + Lower(w1) + (Lower(b) + Lower(w2) + Lower(c))
  {
    assert a + w1 + b + w2 + c == a + w1 + (b + w2 + c);
    LowerAppend(a + w1, b + w2 + c);
    LowerAppend(a, w1);
    LowerAppend(b + w2, c);
    LowerAppend(b, w2);
  }

  /** Two words separated and surrounded by whitespace are exactly the words. */
  lemma WordsTwo(a: string, w1: string, b: string, w2: string, c: string)
    requires AllSpace(a) && AllSpace(b) && AllSpace(c) && b != []
    requires w1 != [] && NoSpace(w1) && w2 != [] && NoSpace(w2)
    ensures Words(a + w1 + (b + w2 + c)) == [w1, w2]
  {
    WordsSplit(a, w1, b + w2 + c);
    WordsSplit(b, w2, c);
    WordsOfSpaces(c);
  }

  /** Two words with whitespace around and between them normalize to `w1_w2`, lower-cased. */
  lemma NormalizeTwoWords(a: string, w1: string, b: string, w2: string, c: string)
    requires AllSpace(a) && AllSpace(b) && AllSpace(c) && b != []
    requires w1 != [] && NoSpace(w1) && w2 != [] && NoSpace(w2)
    ensures NormalizeText(a + w1 + b + w2 + c) == Lower(w1) + "_" + Lower(w2)
  {
    LowerFive(a, w1, b, w2, c);
    LowerKeepsSpaces(a); LowerKeepsSpaces(w1); LowerKeepsSpaces(b);
    LowerKeepsSpaces(w2); LowerKeepsSpaces(c);
    WordsTwo(Lower(a), Lower(w1), Lower(b), Lower(w2), Lower(c));
    JoinCons(Lower(w1), [Lower(w2)]);
    NormalizeIsJoinedWords(a + w1 + b + w2 + c);
  }

  lemma ExampleLowered()
    ensures Lower("Net") == "net" && Lower("Sales") == "sales"
    ensures "net" + "_" + "sales" == "net_sales"
  {
  }

  /** `normalizeName("  Net   Sales ")` is `"net_sales"`. */
  lemma NormalizeExample()
    ensures NormalizeName(Str("  Net   Sales ")) == "net_sales"
  {
    var s := "  " + "Net" + "   " + "Sales" + " ";
    assert s == "  Net   Sales ";
    assert NormalizeName(Str(s)) == NormalizeText(s);
    NormalizeTwoWords("  ", "Net", "   ", "Sales", " ");
    ExampleLowered();
  }

  // ---------------------------------------------------------------------
  // columnIndexToLetter
  // ---------------------------------------------------------------------

  /** The bijective base-26 numeral of `n` (1 = "A", 26 = "Z", 27 = "AA"); "" when n <= 0. */
  function ColumnLetters(n: int): string
    decreases n
  {
    if n <= 0 then "" else ColumnLetters((n - 1) / 26) + [(65 + (n - 1) % 26) as char]
  }

  /** Reads a letters string as Σ (c - 'A' + 1) * 26^k. */
  function LettersValue(s: string): int {
    if s == [] then 0 else LettersValue(s[..|s| - 1]) * 26 + (s[|s| - 1] as int - 64)
  }

  /** `columnIndexToLetter(index)`: zero-based column index to its letters. */
  method ColumnIndexToLetter(index: int) returns (letters: string)
    ensures letters == ColumnLetters(index + 1)
  {
    var n := index + 1;
    letters := "";
    while n > 0
      invariant ColumnLetters(n) + letters == ColumnLetters(index + 1)
      decreases n
    {
      var rem := (n - 1) % 26;
      letters := [(65 + rem) as char] + letters;
      n := (n - 1) / 26;
    }
  }

  /** For every index >= 0 the letters are non-empty and drawn from 'A'..'Z'. */
  lemma {:induction false} ColumnLettersAlphabet(n: int)
    requires n >= 1
    ensures |ColumnLetters(n)| >= 1
    ensures forall i :: 0 <= i < |ColumnLetters(n)| ==> IsUpper(ColumnLetters(n)[i])
    decreases n
  {
    if (n - 1) / 26 >= 1 {
      ColumnLettersAlphabet((n - 1) / 26);
    }
  }

  /** Decoding the letters and subtracting 1 gives back the index. */
  lemma {:induction false} ColumnLettersRoundTrip(n: int)
    requires n >= 0
    ensures LettersValue(ColumnLetters(n)) == n
    decreases n
  {
    if n > 0 {
      var s := ColumnLetters(n);
      ColumnLettersRoundTrip((n - 1) / 26);
      assert s[..|s| - 1] == ColumnLetters((n - 1) / 26);
    }
  }

  /** Every string of letters is the numeral of exactly its value: the mapping is onto. */
  lemma {:induction false} ColumnLettersOnto(s: string)
    requires forall i :: 0 <= i < |s| ==> IsUpper(s[i])
    ensures LettersValue(s) >= 0
    ensures ColumnLetters(LettersValue(s)) == s
    decreases |s|
  {
    if s != [] {
      var p := s[..|s| - 1];
      ColumnLettersOnto(p);
      var k := s[|s| - 1] as int - 64;
      var n := LettersValue(p) * 26 + k;
      assert (n - 1) / 26 == LettersValue(p);
      assert (n - 1) % 26 == k - 1;
      assert s == p + [s[|s| - 1]];
    }
  }

  /** Distinct indices get distinct letters. */
  lemma ColumnLettersInjective(i: int, j: int)
    requires i >= 0 && j >= 0
    requires ColumnLetters(i + 1) == ColumnLetters(j + 1)
    ensures i == j
  {
    ColumnLettersRoundTrip(i + 1);
    ColumnLettersRoundTrip(j + 1);
  }

  /** 0 -> "A", 25 -> "Z", 26 -> "AA", 51 -> "AZ", 52 -> "BA". */
  lemma ColumnLetterExamples()
    ensures ColumnLetters(0 + 1) == "A"
    ensures ColumnLetters(25 + 1) == "Z"
    ensures ColumnLetters(26 + 1) == "AA"
    ensures ColumnLetters(51 + 1) == "AZ"
    ensures ColumnLetters(52 + 1) == "BA"
  {
    assert ColumnLetters(1) == "A";
    assert ColumnLetters(2) == "B";
    assert ColumnLetters(27) == ColumnLetters(1) + "A";
    assert ColumnLetters(52) == ColumnLetters(1) + "Z";
    assert ColumnLetters(53) == ColumnLetters(2) + "A";
  }
}
