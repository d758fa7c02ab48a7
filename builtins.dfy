/**
 * The JavaScript built-ins the router and the demo server rely on:
 * `String.prototype.toLowerCase` (ASCII letters only), `indexOf`,
 * `Array.prototype.find`, and the `split`-based cookie token extraction.
 */
module Builtins {
  import opened Wrappers

  /** `toLowerCase` on one character, for the ASCII letters. */
  function LowerChar(c: char): char
  {
    if 'A' <= c <= 'Z' then (c as int + 32) as char else c
  }

  /** `s.toLowerCase()`, for the ASCII letters: every character is lowered in place. */
  function Lower(s: string): (r: string)
    ensures |r| == |s|
    ensures forall i :: 0 <= i < |s| ==> r[i] == LowerChar(s[i])
  {
    seq(|s|, i requires 0 <= i < |s| => LowerChar(s[i]))
  }

  /** A string with no lower-case ASCII letter, such as every method Node's parser accepts. */
  predicate NoLowerCase(s: string)
  {
    forall i :: 0 <= i < |s| ==> !('a' <= s[i] <= 'z')
  }

  /** Lowering twice is lowering once. */
  lemma LowerIdempotent(s: string)
    ensures Lower(Lower(s)) == Lower(s)
  {
  }

  /** Two strings without lower-case letters that lower to the same string are equal. */
  lemma LowerDeterminesUpper(m: string, w: string)
    requires NoLowerCase(m) && NoLowerCase(w) && Lower(m) == Lower(w)
    ensures m == w
  {
  }

  /** Lowering neither creates nor removes a space. */
  lemma LowerKeepsSpaces(s: string)
    ensures (' ' in Lower(s)) <==> (' ' in s)
  {
  }

  /**
   * `m + " " + p` can be split back into its parts whenever the string it is
   * compared with is itself `a + " " + b` with no space in `a` or `b`.
   */
  lemma JoinSplits(m: string, p: string, a: string, b: string)
    requires ' ' !in a && ' ' !in b
    ensures (m + " " + p == a + " " + b) <==> (m == a && p == b)
  {
    if m + " " + p == a + " " + b {
      var s := a + " " + b;
      assert s[|m|] == ' ' && s[|a|] == ' ';
      assert |m| == |a|;
      assert m == s[..|m|] && a == s[..|a|];
      assert p == s[|m| + 1..] && b == s[|a| + 1..];
    }
  }

  /** `s` holds `pat` at position `i`. */
  predicate StartsAt(s: string, pat: string, i: nat)
  {
    i + |pat| <= |s| && s[i..i + |pat|] == pat
  }

  /** `s.indexOf(pat, from)`: the first position at or after `from` where `pat` occurs. */
  function IndexFrom(s: string, pat: string, from: nat): (r: Option<nat>)
    decreases |s| - from
    ensures r.Some? ==> from <= r.value && StartsAt(s, pat, r.value)
    ensures forall j :: from <= j && (r.None? || j < r.value) ==> !StartsAt(s, pat, j)
  {
    if from + |pat| > |s| then None
    else if StartsAt(s, pat, from) then Some(from)
    else IndexFrom(s, pat, from + 1)
  }

  /** `s.indexOf(c)`, with `|s|` standing for "absent". */
  function CharIndex(s: string, c: char): (k: nat)
    ensures k <= |s| && c !in s[..k]
    ensures k < |s| ==> s[k] == c
  {
    if s == [] || s[0] == c then 0 else 1 + CharIndex(s[1..], c)
  }

  /**
   * `arr.findIndex(p)` as an option: the position of the first element that
   * satisfies `p`; `arr.find(p)` is the element there.
   */
  function Find<T>(s: seq<T>, p: T -> bool): (r: Option<nat>)
    ensures r.Some? ==> r.value < |s| && p(s[r.value])
    ensures forall j :: 0 <= j < |s| && (r.None? || j < r.value) ==> !p(s[j])
  {
    if s == [] then None
    else if p(s[0]) then Some(0)
    else match Find(s[1..], p)
      case None => None
      case Some(k) => Some(k + 1)
  }

  /** `find` stops at the first element that satisfies the predicate. */
  lemma FindFirst<T>(s: seq<T>, p: T -> bool, i: nat)
    requires i < |s| && p(s[i]) && forall j :: 0 <= j < i ==> !p(s[j])
    ensures Find(s, p) == Some(i)
  {
  }

  const TokenMark: string := "token="

  /** `k` is the first occurrence of `token=` in the cookie. */
  predicate FirstMark(cookie: string, k: nat)
  {
    StartsAt(cookie, TokenMark, k) && forall j :: 0 <= j < k ==> !StartsAt(cookie, TokenMark, j)
  }

  /**
   * `t` is the text that starts at `start` and runs up to the next `;`, the
   * next `token=`, or the end of the cookie, whichever comes first.
   */
  predicate TokenAfter(cookie: string, start: nat, t: string)
  {
    && start + |t| <= |cookie|
    && cookie[start..start + |t|] == t
    && ';' !in t
    && (forall j :: start <= j < start + |t| ==> !StartsAt(cookie, TokenMark, j))
    && (start + |t| == |cookie| || cookie[start + |t|] == ';' || StartsAt(cookie, TokenMark, start + |t|))
  }

  /** `t` is the token a cookie carries: what follows its first `token=`. */
  ghost predicate IsCookieToken(cookie: string, t: string)
  {
    exists k: nat :: FirstMark(cookie, k) && TokenAfter(cookie, k + |TokenMark|, t)
  }

  /**
   * `cookie.split('token=')[1]?.split(';')[0]`: absent exactly when the cookie
   * has no `token=`, and otherwise the token it carries.
   */
  function CookieToken(cookie: string): (r: Option<string>)
    ensures r.None? <==> forall j :: 0 <= j ==> !StartsAt(cookie, TokenMark, j)
    ensures r.Some? ==> IsCookieToken(cookie, r.value)
  {
    match IndexFrom(cookie, TokenMark, 0)
    case None => None
    case Some(k) =>
      var start := k + |TokenMark|;
      var stop := match IndexFrom(cookie, TokenMark, start)
        case Some(j) => j
        case None => |cookie|;
      var piece := cookie[start..stop];
      var t := piece[..CharIndex(piece, ';')];
      assert TokenAfter(cookie, start, t);
      assert FirstMark(cookie, k);
      Some(t)
  }

  /** A cookie carries at most one token. */
  lemma CookieTokenUnique(cookie: string, t1: string, t2: string)
    requires IsCookieToken(cookie, t1) && IsCookieToken(cookie, t2)
    ensures t1 == t2
  {
  }
}
