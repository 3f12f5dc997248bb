/** The string operations the client relies on: `toLowerCase` (restricted to
    ASCII), `trim` and `includes`. */
module Text {

  /** One character of `String.prototype.toLowerCase`, for ASCII letters. */
  function LowerChar(c: char): char {
    if 'A' <= c <= 'Z' then (c as int + 32) as char else c
  }

  predicate IsAsciiUpper(c: char) {
    'A' <= c <= 'Z'
  }

  /** `s.toLowerCase()`: every ASCII capital replaced by its small letter, all
      other characters kept, positions unchanged. */
  function Lower(s: string): (r: string)
    ensures |r| == |s|
    ensures forall i :: 0 <= i < |s| ==> r[i] == LowerChar(s[i])
    ensures forall i :: 0 <= i < |r| ==> !IsAsciiUpper(r[i])
  {
    if s == [] then [] else [LowerChar(s[0])] + Lower(s[1..])
  }

  /** Lower-casing twice is lower-casing once. */
  lemma LowerIdempotent(s: string)
    ensures Lower(Lower(s)) == Lower(s)
  {
    var once := Lower(s);
    var twice := Lower(once);
    forall i | 0 <= i < |s|
      ensures twice[i] == once[i]
    {
      assert !IsAsciiUpper(once[i]);
    }
  }

  /** `t` occurs in `s` starting at position `i`. */
  predicate OccursAt(s: string, t: string, i: int) {
    0 <= i && i + |t| <= |s| && s[i..i + |t|] == t
  }

  /** `s.includes(t)`: `t` occurs in `s` at some position. */
  predicate Contains(s: string, t: string) {
    exists i | 0 <= i <= |s| - |t| :: OccursAt(s, t, i)
  }

  /** Every string includes the empty string. */
  lemma ContainsEmpty(s: string)
    ensures Contains(s, "")
  {
    assert OccursAt(s, "", 0);
  }

  /** The characters `String.prototype.trim` removes: ECMAScript WhiteSpace
      and LineTerminator code points. */
  predicate IsJsSpace(c: char) {
    || c == '\t' || c == '\n' || c == '\U{B}' || c == '\U{C}' || c == '\r'
    || c == ' ' || c == '\U{A0}' || c == '\U{1680}'
    || ('\U{2000}' <= c <= '\U{200A}')
    || c == '\U{2028}' || c == '\U{2029}' || c == '\U{202F}' || c == '\U{205F}'
    || c == '\U{3000}' || c == '\U{FEFF}'
  }

  /** Drops the leading white space of `s`. */
  function TrimStart(s: string): string {
    if s != [] && IsJsSpace(s[0]) then TrimStart(s[1..]) else s
  }

  /** Drops the trailing white space of `s`. */
  function TrimEnd(s: string): string {
    if s != [] && IsJsSpace(s[|s| - 1]) then TrimEnd(s[..|s| - 1]) else s
  }

  /** `s.trim()`. */
  function Trim(s: string): string {
    TrimEnd(TrimStart(s))
  }

  /** TrimStart keeps a suffix of `s`, drops only white space, and leaves no
      white space in front. */
  lemma {:induction false} TrimStartDropsLeadingSpace(s: string)
    ensures var r := TrimStart(s);
            && |r| <= |s| && r == s[|s| - |r|..]
            && (forall j :: 0 <= j < |s| - |r| ==> IsJsSpace(s[j]))
            && (r != [] ==> !IsJsSpace(r[0]))
  {
    if s != [] && IsJsSpace(s[0]) {
      TrimStartDropsLeadingSpace(s[1..]);
    }
  }

  /** TrimEnd keeps a prefix of `s`, drops only white space, and leaves no
      white space at the end. */
  lemma {:induction false} TrimEndDropsTrailingSpace(s: string)
    ensures var r := TrimEnd(s);
            && |r| <= |s| && r == s[..|r|]
            && (forall j :: |r| <= j < |s| ==> IsJsSpace(s[j]))
            && (r != [] ==> !IsJsSpace(r[|r| - 1]))
  {
    if s != [] && IsJsSpace(s[|s| - 1]) {
      TrimEndDropsTrailingSpace(s[..|s| - 1]);
    }
  }

  /** `!s.trim()` holds exactly when every character of `s` is white space. */
  lemma TrimEmptyIffBlank(s: string)
    ensures Trim(s) == "" <==> forall i :: 0 <= i < |s| ==> IsJsSpace(s[i])
  {
    var front := TrimStart(s);
    TrimStartDropsLeadingSpace(s);
    TrimEndDropsTrailingSpace(front);
    if Trim(s) == "" {
      assert front == [];
    } else {
      assert front != [] && !IsJsSpace(front[0]);
      assert front[0] == s[|s| - |front|];
    }
  }

  /** Leading and trailing white space are removed, inner characters kept. */
  lemma TrimKeepsInnerText(pre: string, body: string, post: string)
    requires forall i :: 0 <= i < |pre| ==> IsJsSpace(pre[i])
    requires forall i :: 0 <= i < |post| ==> IsJsSpace(post[i])
    requires body != [] && !IsJsSpace(body[0]) && !IsJsSpace(body[|body| - 1])
    ensures Trim(pre + body + post) == body
  {
    var s := pre + body + post;
    TrimStartPrefix(pre, body + post);
    assert s == pre + (body + post);
    TrimEndSuffix(body, post);
  }

  lemma {:induction false} TrimStartPrefix(pre: string, rest: string)
    requires forall i :: 0 <= i < |pre| ==> IsJsSpace(pre[i])
    requires rest != [] && !IsJsSpace(rest[0])
    ensures TrimStart(pre + rest) == rest
  {
    if pre != [] {
      assert (pre + rest)[1..] == pre[1..] + rest;
      TrimStartPrefix(pre[1..], rest);
    }
  }

  lemma {:induction false} TrimEndSuffix(rest: string, post: string)
    requires forall i :: 0 <= i < |post| ==> IsJsSpace(post[i])
    requires rest != [] && !IsJsSpace(rest[|rest| - 1])
    ensures TrimEnd(rest + post) == rest
  {
    if post != [] {
      var n := |rest + post|;
      assert (rest + post)[..n - 1] == rest + post[..|post| - 1];
      TrimEndSuffix(rest, post[..|post| - 1]);
    } else {
      assert rest + post == rest;
    }
  }
}
