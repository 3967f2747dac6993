/**
 * Cookie lookup by name over a `document.cookie` string, whose cookies are
 * separated by "; " as section 5.4 of RFC 6265 lays them out
 * (frontend/lib/utils.ts). The cookie string is a parameter here.
 */
module Cookies {
  import opened Wrappers

  /** `p` occurs in `s` starting at index `i`. */
  predicate OccursAt(s: string, p: string, i: int) {
    0 <= i && i + |p| <= |s| && s[i..i + |p|] == p
  }

  /** `p` occurs nowhere in `s`. */
  ghost predicate Free(s: string, p: string) {
    forall j :: !OccursAt(s, p, j)
  }

  /** The leftmost index at or after `from` where `p` occurs in `s`. */
  function FindFrom(s: string, p: string, from: nat): (r: Option<nat>)
    ensures r.Some? ==> from <= r.value && OccursAt(s, p, r.value)
    ensures r.Some? ==> forall j :: from <= j < r.value ==> !OccursAt(s, p, j)
    ensures r.None? ==> forall j :: from <= j ==> !OccursAt(s, p, j)
    decreases |s| - from
  {
    if from + |p| > |s| then None
    else if s[from..from + |p|] == p then Some(from)
    else FindFrom(s, p, from + 1)
  }

  lemma OccursInPrefix(s: string, p: string, i: nat, j: int)
    requires i <= |s| && OccursAt(s[..i], p, j)
    ensures OccursAt(s, p, j)
  {
    assert s[..i][j..j + |p|] == s[j..j + |p|];
  }

  lemma OccursInSuffix(s: string, p: string, m: nat, j: int)
    requires m <= |s|
    ensures OccursAt(s[m..], p, j) <==> j >= 0 && OccursAt(s, p, m + j)
  {
    if 0 <= j && j + |p| <= |s| - m {
      assert s[m..][j..j + |p|] == s[m + j..m + j + |p|];
    }
  }

  /**
   * `s.split(sep)` for a non-empty separator: the text between successive
   * leftmost, non-overlapping occurrences of `sep`.
   */
  function Split(s: string, sep: string): (parts: seq<string>)
    requires |sep| > 0
    ensures |parts| >= 1
    ensures forall k :: 0 <= k < |parts| ==> Free(parts[k], sep)
    decreases |s|
  {
    match FindFrom(s, sep, 0)
    case None => [s]
    case Some(i) =>
      var rest := Split(s[i + |sep|..], sep);
      assert Free(s[..i], sep) by {
        forall j | OccursAt(s[..i], sep, j) ensures false {
          OccursInPrefix(s, sep, i, j);
        }
      }
      [s[..i]] + rest
  }

  /** `parts.join(sep)`: the inverse of splitting. */
  function Join(parts: seq<string>, sep: string): string
    requires |parts| >= 1
    decreases |parts|
  {
    if |parts| == 1 then parts[0] else parts[0] + sep + Join(parts[1..], sep)
  }

  lemma {:induction false} JoinSplit(s: string, sep: string)
    requires |sep| > 0
    ensures Join(Split(s, sep), sep) == s
    decreases |s|
  {
    if FindFrom(s, sep, 0).Some? {
      var i := FindFrom(s, sep, 0).value;
      var rest := s[i + |sep|..];
      calc {
        Join(Split(s, sep), sep);
      == { SplitAfterFirst(s, sep); }
        Join([s[..i]] + Split(rest, sep), sep);
      == { JoinCons(s[..i], Split(rest, sep), sep); }
        s[..i] + sep + Join(Split(rest, sep), sep);
      == { JoinSplit(rest, sep); }
        s[..i] + sep + rest;
      == { SliceAround(s, i, |sep|); }
        s;
      }
    }
  }

  lemma SliceAround(s: string, i: nat, n: nat)
    requires i + n <= |s|
    ensures s == s[..i] + s[i..i + n] + s[i + n..]
  {
  }

  lemma JoinCons(head: string, tail: seq<string>, sep: string)
    requires |tail| >= 1
    ensures Join([head] + tail, sep) == head + sep + Join(tail, sep)
  {
    assert ([head] + tail)[1..] == tail;
  }

  lemma SplitAfterFirst(s: string, sep: string)
    requires |sep| > 0 && FindFrom(s, sep, 0).Some?
    ensures var f := FindFrom(s, sep, 0).value;
      Split(s, sep) == [s[..f]] + Split(s[f + |sep|..], sep)
  {
  }

  /** Splitting yields a single part exactly when the separator does not occur. */
  lemma SplitSingle(s: string, sep: string)
    requires |sep| > 0
    ensures |Split(s, sep)| == 1 <==> Free(s, sep)
  {
    match FindFrom(s, sep, 0)
    case None =>
    case Some(i) =>
  }

  /** The first part of `t.split(c)`: `t` up to, not including, its first `c`. */
  lemma SplitHead(t: string, c: char)
    ensures var h := Split(t, [c])[0];
      h == t[..|h|] && c !in h && (|h| < |t| ==> t[|h|] == c)
  {
    var h := Split(t, [c])[0];
    match FindFrom(t, [c], 0)
    case None =>
      forall k | 0 <= k < |t| ensures t[k] != c {
        assert !OccursAt(t, [c], k);
        assert t[k..k + 1] == [t[k]];
      }
    case Some(i) =>
      assert h == t[..i];
      assert t[i..i + 1] == [c];
      forall k | 0 <= k < i ensures t[k] != c {
        assert !OccursAt(t, [c], k);
        assert t[k..k + 1] == [t[k]];
      }
  }

  /** `r` is `after` up to, not including, its first ";" (or all of it). */
  predicate ValueAfter(r: string, after: string) {
    |r| <= |after| && r == after[..|r|] && ';' !in r && (|r| < |after| ==> after[|r|] == ';')
  }

  /** The text `getCookie` splits on: "; " + name + "=". */
  function CookiePattern(name: string): string {
    "; " + name + "="
  }

  /**
   * `getCookie(name)`: split "; " + cookies at "; name="; when that gives
   * exactly two parts, the second one up to its first ";", else "".
   */
  function GetCookie(name: string, cookies: string): (r: string)
    ensures ';' !in r
    ensures r != "" ==> |Split("; " + cookies, CookiePattern(name))| == 2
  {
    var parts := Split("; " + cookies, CookiePattern(name));
    if |parts| == 2 then
      SplitHead(parts[1], ';');
      Split(parts[1], ";")[0]
    else ""
  }

  /** Two non-overlapping occurrences of the separator give at least three parts. */
  lemma SplitRepeated(s: string, sep: string, i: nat, j: nat)
    requires |sep| > 0 && OccursAt(s, sep, i) && OccursAt(s, sep, j) && i + |sep| <= j
    ensures |Split(s, sep)| >= 3
  {
    var f := FindFrom(s, sep, 0).value;
    SplitAfterFirst(s, sep);
    OccursInSuffix(s, sep, f + |sep|, j - f - |sep|);
    SplitSingle(s[f + |sep|..], sep);
  }

  /** A single occurrence at `i` splits the text into what precedes and follows it. */
  lemma SplitUnique(s: string, sep: string, i: nat)
    requires |sep| > 0 && OccursAt(s, sep, i)
    requires forall j :: j != i ==> !OccursAt(s, sep, j)
    ensures Split(s, sep) == [s[..i], s[i + |sep|..]]
  {
    var after := s[i + |sep|..];
    assert FindFrom(s, sep, 0) == Some(i);
    forall j ensures !OccursAt(after, sep, j) {
      OccursInSuffix(s, sep, i + |sep|, j);
    }
    SplitSingle(after, sep);
    SplitAfterFirst(s, sep);
  }

  /** Two parts: the second is what follows an occurrence of the separator. */
  lemma SplitTwo(s: string, sep: string)
    requires |sep| > 0 && |Split(s, sep)| == 2
    ensures exists i :: OccursAt(s, sep, i) && Split(s, sep)[1] == s[i + |sep|..]
  {
    match FindFrom(s, sep, 0)
    case None =>
    case Some(i) =>
      SplitAfterFirst(s, sep);
      SplitSingle(s[i + |sep|..], sep);
      assert Split(s, sep)[1] == s[i + |sep|..];
  }

  /** No cookie of that name: the lookup gives "". */
  lemma GetCookieAbsent(name: string, cookies: string)
    requires Free("; " + cookies, CookiePattern(name))
    ensures GetCookie(name, cookies) == ""
  {
    SplitSingle("; " + cookies, CookiePattern(name));
  }

  /** Two non-overlapping matches of the pattern: the lookup gives "". */
  lemma GetCookieRepeated(name: string, cookies: string, i: nat, j: nat)
    requires OccursAt("; " + cookies, CookiePattern(name), i)
    requires OccursAt("; " + cookies, CookiePattern(name), j)
    requires i + |CookiePattern(name)| <= j
    ensures GetCookie(name, cookies) == ""
  {
    SplitRepeated("; " + cookies, CookiePattern(name), i, j);
  }

  /**
   * A single match at index `i`: the lookup gives the text after the match
   * up to the first ";" (or to the end).
   */
  lemma GetCookieUnique(name: string, cookies: string, i: nat)
    requires OccursAt("; " + cookies, CookiePattern(name), i)
    requires forall j :: j != i ==> !OccursAt("; " + cookies, CookiePattern(name), j)
    ensures ValueAfter(GetCookie(name, cookies), ("; " + cookies)[i + |CookiePattern(name)|..])
  {
    var s, p := "; " + cookies, CookiePattern(name);
    SplitUnique(s, p, i);
    SplitHead(s[i + |p|..], ';');
  }

  /**
   * Conversely, a non-empty result came from a match of the pattern, and is
   * the text after that match up to the first ";".
   */
  lemma GetCookieFound(name: string, cookies: string)
    requires GetCookie(name, cookies) != ""
    ensures exists i :: OccursAt("; " + cookies, CookiePattern(name), i) &&
                        ValueAfter(GetCookie(name, cookies), ("; " + cookies)[i + |CookiePattern(name)|..])
  {
    var s, p := "; " + cookies, CookiePattern(name);
    SplitTwo(s, p);
    var i :| OccursAt(s, p, i) && Split(s, p)[1] == s[i + |p|..];
    SplitHead(s[i + |p|..], ';');
  }
}
