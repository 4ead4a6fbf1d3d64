/**
  JavaScript values as the request handlers of server.js see them, and the
  few string operations the handlers use (template interpolation, `||`
  defaults, `toLowerCase`, `toUpperCase`, `trim`, `startsWith`).
 */
module Values {

  datatype Option<+T> = None | Some(value: T)

  /** A request field: absent, JSON `null`, or a string. */
  datatype Field = Undefined | Null | Str(s: string)

  /** JavaScript truthiness of a field: only a non-empty string is truthy. */
  predicate Truthy(f: Field) {
    f.Str? && f.s != ""
  }

  /** What `${f}` prints inside a template literal. */
  function Render(f: Field): (r: string)
    ensures f.Str? ==> r == f.s
    ensures f.Undefined? ==> r == "undefined"
    ensures f.Null? ==> r == "null"
  {
    match f
    case Undefined => "undefined"
    case Null => "null"
    case Str(s) => s
  }

  /** `f || fallback` for a string fallback. */
  function OrElse(f: Field, fallback: string): (r: string)
    ensures Truthy(f) ==> r == f.s
    ensures !Truthy(f) ==> r == fallback
  {
    if Truthy(f) then f.s else fallback
  }

  // ---------------------------------------------------------------------
  // Substrings

  predicate StartsWith(s: string, prefix: string) {
    |prefix| <= |s| && s[..|prefix|] == prefix
  }

  /** `t` occurs somewhere in `s`. */
  ghost predicate Contains(s: string, t: string) {
    exists i | 0 <= i <= |s| - |t| :: s[i..][..|t|] == t
  }

  lemma ContainsInfix(a: string, t: string, b: string)
    ensures Contains(a + t + b, t)
  {
    var s := a + t + b;
    assert s[|a|..][..|t|] == t;
  }

  /** Whatever occurs in `s` still occurs once text is put around `s`. */
  lemma {:induction false} ContainsWithin(a: string, s: string, b: string, t: string)
    requires Contains(s, t)
    ensures Contains(a + s + b, t)
  {
    var i :| 0 <= i <= |s| - |t| && s[i..][..|t|] == t;
    var w := a + s + b;
    assert w[|a| + i..][..|t|] == s[i..][..|t|];
  }

  /** Every character of an occurring text is a character of the whole. */
  lemma {:induction false} ContainsChar(s: string, t: string, c: char)
    requires Contains(s, t) && c in t
    ensures c in s
  {
    var i :| 0 <= i <= |s| - |t| && s[i..][..|t|] == t;
    var k :| 0 <= k < |t| && t[k] == c;
    assert s[i + k] == c;
  }

  // ---------------------------------------------------------------------
  // Text built piece by piece, as `body += piece` builds it

  /** The pieces written one after the other. */
  function Join(pieces: seq<string>): string {
    if pieces == [] then "" else Join(pieces[..|pieces| - 1]) + pieces[|pieces| - 1]
  }

  lemma {:induction false} JoinAppend(a: seq<string>, b: seq<string>)
    ensures Join(a + b) == Join(a) + Join(b)
  {
    if b == [] {
      assert a + b == a;
    } else {
      assert (a + b)[..|a + b| - 1] == a + b[..|b| - 1];
      JoinAppend(a, b[..|b| - 1]);
    }
  }

  lemma AppendAssoc(a: string, b: string, c: string)
    ensures a + b + c == a + (b + c)
  {
  }

  lemma SplitAt<T>(s: seq<T>, i: nat)
    requires i < |s|
    ensures s[..i + 1] == s[..i] + [s[i]] && s == s[..i + 1] + s[i + 1..]
  {
  }

  lemma SeqAssoc<T>(a: seq<T>, b: seq<T>, c: seq<T>)
    ensures a + b + c == a + (b + c)
  {
  }

  /** Appending one piece appends it to the text. */
  lemma JoinSnoc(pieces: seq<string>, piece: string)
    ensures Join(pieces + [piece]) == Join(pieces) + piece
  {
    assert (pieces + [piece])[..|pieces|] == pieces;
  }

  /** Every piece occurs in the text, with the pieces before it in front of
      it and the pieces after it behind it. */
  lemma JoinAt(pieces: seq<string>, i: nat)
    requires i < |pieces|
    ensures Join(pieces) == Join(pieces[..i]) + pieces[i] + Join(pieces[i + 1..])
  {
    var front, back := pieces[..i + 1], pieces[i + 1..];
    SplitAt(pieces, i);
    JoinAppend(front, back);
    JoinSnoc(pieces[..i], pieces[i]);
  }

  /** Two pieces occur in the text in the order of the pieces. */
  lemma JoinAtBoth(pieces: seq<string>, i: nat, j: nat)
    requires i < j < |pieces|
    ensures Join(pieces) == Join(pieces[..i]) + pieces[i] + Join(pieces[i + 1..j]) + pieces[j] + Join(pieces[j + 1..])
  {
    var front := pieces[..j];
    JoinAt(pieces, j);
    JoinAt(front, i);
    assert front[..i] == pieces[..i];
    assert front[i + 1..] == pieces[i + 1..j];
    assert front[i] == pieces[i];
  }

  /** Whatever occurs in one piece occurs in the text. */
  lemma JoinHas(pieces: seq<string>, i: nat, t: string)
    requires i < |pieces| && Contains(pieces[i], t)
    ensures Contains(Join(pieces), t)
  {
    JoinAt(pieces, i);
    ContainsWithin(Join(pieces[..i]), pieces[i], Join(pieces[i + 1..]), t);
  }

  /** Every piece occurs in the text. */
  lemma JoinHasPiece(pieces: seq<string>, i: nat)
    requires i < |pieces|
    ensures Contains(Join(pieces), pieces[i])
  {
    ContainsInfix("", pieces[i], "");
    assert "" + pieces[i] + "" == pieces[i];
    JoinHas(pieces, i, pieces[i]);
  }

  /** A character that no piece has is not in the text. */
  lemma {:induction false} JoinLacks(pieces: seq<string>, c: char)
    requires forall k | 0 <= k < |pieces| :: c !in pieces[k]
    ensures c !in Join(pieces)
  {
    if pieces != [] {
      JoinLacks(pieces[..|pieces| - 1], c);
    }
  }

  /** Number of occurrences of `c` in `s`. */
  function Count(s: string, c: char): (n: nat)
    ensures n <= |s|
    ensures n == 0 <==> c !in s
  {
    if s == [] then 0 else (if s[0] == c then 1 else 0) + Count(s[1..], c)
  }

  lemma {:induction false} CountAppend(a: string, b: string, c: char)
    ensures Count(a + b, c) == Count(a, c) + Count(b, c)
  {
    if a == [] {
      assert a + b == b;
    } else {
      assert (a + b)[1..] == a[1..] + b;
      CountAppend(a[1..], b, c);
    }
  }

  // ---------------------------------------------------------------------
  // Case mapping, restricted to ASCII and the letters of the Lithuanian
  // alphabet; every other character maps to itself.

  function LowerChar(c: char): (r: char)
    ensures 'A' <= c <= 'Z' ==> r as int == c as int + 32
    ensures r == c || ('A' <= c <= 'Z') || c in "ĄČĘĖĮŠŲŪŽ"
  {
    if 'A' <= c <= 'Z' then (c as int + 32) as char
    else match c
      case 'Ą' => 'ą' case 'Č' => 'č' case 'Ę' => 'ę' case 'Ė' => 'ė' case 'Į' => 'į'
      case 'Š' => 'š' case 'Ų' => 'ų' case 'Ū' => 'ū' case 'Ž' => 'ž'
      case _ => c
  }

  function UpperChar(c: char): (r: char)
    ensures 'a' <= c <= 'z' ==> r as int == c as int - 32
    ensures r == c || ('a' <= c <= 'z') || c in "ąčęėįšųūž"
  {
    if 'a' <= c <= 'z' then (c as int - 32) as char
    else match c
      case 'ą' => 'Ą' case 'č' => 'Č' case 'ę' => 'Ę' case 'ė' => 'Ė' case 'į' => 'Į'
      case 'š' => 'Š' case 'ų' => 'Ų' case 'ū' => 'Ū' case 'ž' => 'Ž'
      case _ => c
  }

  /** `s.toLowerCase()` */
  function Lower(s: string): (r: string)
    ensures |r| == |s|
    ensures forall i :: 0 <= i < |s| ==> r[i] == LowerChar(s[i])
  {
    seq(|s|, i requires 0 <= i < |s| => LowerChar(s[i]))
  }

  /** `s.toUpperCase()` */
  function Upper(s: string): (r: string)
    ensures |r| == |s|
    ensures forall i :: 0 <= i < |s| ==> r[i] == UpperChar(s[i])
  {
    seq(|s|, i requires 0 <= i < |s| => UpperChar(s[i]))
  }

  lemma LowerCharIdempotent(c: char)
    ensures LowerChar(LowerChar(c)) == LowerChar(c)
  {
    if 'A' <= c <= 'Z' {
      assert 'a' <= LowerChar(c) <= 'z';
    }
  }

  lemma UpperCharIdempotent(c: char)
    ensures UpperChar(UpperChar(c)) == UpperChar(c)
  {
    if 'a' <= c <= 'z' {
      assert 'A' <= UpperChar(c) <= 'Z';
    }
  }

  lemma LowerIdempotent(s: string)
    ensures Lower(Lower(s)) == Lower(s)
  {
    forall i | 0 <= i < |s| ensures Lower(Lower(s))[i] == Lower(s)[i] {
      LowerCharIdempotent(s[i]);
    }
  }

  lemma UpperIdempotent(s: string)
    ensures Upper(Upper(s)) == Upper(s)
  {
    forall i | 0 <= i < |s| ensures Upper(Upper(s))[i] == Upper(s)[i] {
      UpperCharIdempotent(s[i]);
    }
  }

  /** Lower-casing commutes with taking a prefix. */
  lemma LowerPrefix(s: string, k: nat)
    requires k <= |s|
    ensures Lower(s)[..k] == Lower(s[..k])
  {
  }

  // ---------------------------------------------------------------------
  // `String.prototype.trim`: white space and line terminators of
  // ECMAScript (the Unicode Zs category, TAB, VT, FF, BOM, LF, CR, LS, PS).

  predicate IsSpace(c: char) {
    c == ' ' || c == '\t' || c == '\n' || c == '\r' || c == '\U{000B}' || c == '\U{000C}'
    || c == '\U{00A0}' || c == '\U{1680}' || ('\U{2000}' <= c <= '\U{200A}')
    || c == '\U{2028}' || c == '\U{2029}' || c == '\U{202F}' || c == '\U{205F}'
    || c == '\U{3000}' || c == '\U{FEFF}'
  }

  predicate AllSpace(s: string) {
    forall i :: 0 <= i < |s| ==> IsSpace(s[i])
  }

  function TrimStart(s: string): (r: string)
    ensures |r| <= |s| && r == s[|s| - |r|..]
    ensures AllSpace(s[..|s| - |r|])
    ensures r == [] || !IsSpace(r[0])
  {
    if s != [] && IsSpace(s[0]) then TrimStart(s[1..]) else s
  }

  function TrimEnd(s: string): (r: string)
    ensures |r| <= |s| && r == s[..|r|]
    ensures AllSpace(s[|r|..])
    ensures r == [] || !IsSpace(r[|r| - 1])
  {
    if s != [] && IsSpace(s[|s| - 1]) then TrimEnd(s[..|s| - 1]) else s
  }

  /** `s.trim()`: `s` is the result surrounded by white space only, and the
      result neither starts nor ends with white space. */
  function Trim(s: string): (r: string)
    ensures exists i, j | 0 <= i <= j <= |s| :: r == s[i..j] && AllSpace(s[..i]) && AllSpace(s[j..])
    ensures r == [] || (!IsSpace(r[0]) && !IsSpace(r[|r| - 1]))
  {
    var t := TrimStart(s);
    var r := TrimEnd(t);
    var i := |s| - |t|;
    assert r == s[i..i + |r|];
    assert s[i + |r|..] == t[|r|..];
    r
  }

  lemma TrimIdempotent(s: string)
    ensures Trim(Trim(s)) == Trim(s)
  {
    var r := Trim(s);
    assert r == [] || !IsSpace(r[0]);
    assert TrimStart(r) == r;
    assert TrimEnd(r) == r;
  }
}
