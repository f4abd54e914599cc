/** The few operations on Python `str` values that the runner relies on. */
module Strings {
  import opened Wrappers

  /** Python truthiness of an optional string: `None` and `""` are both false. */
  predicate Truthy(s: Option<string>)
  {
    s.Some? && s.value != ""
  }

  /** From position `j` on, `needle` agrees with `hay` read from position
      `i`, compared one character at a time. */
  predicate MatchesAt(hay: string, needle: string, i: nat, j: nat)
    requires i + |needle| <= |hay| && j <= |needle|
    decreases |needle| - j
  {
    j == |needle| || (hay[i + j] == needle[j] && MatchesAt(hay, needle, i, j + 1))
  }

  lemma {:induction false} MatchesAtSlice(hay: string, needle: string, i: nat, j: nat)
    requires i + |needle| <= |hay| && j <= |needle|
    ensures MatchesAt(hay, needle, i, j) <==> hay[i + j..i + |needle|] == needle[j..]
    decreases |needle| - j
  {
    if j < |needle| {
      MatchesAtSlice(hay, needle, i, j + 1);
      assert hay[i + j..i + |needle|] == [hay[i + j]] + hay[i + j + 1..i + |needle|];
      assert needle[j..] == [needle[j]] + needle[j + 1..];
    }
  }

  /** `s.startswith(prefix)` */
  predicate StartsWith(s: string, prefix: string)
  {
    |prefix| <= |s| && MatchesAt(s, prefix, 0, 0)
  }

  lemma StartsWithPrefix(s: string, prefix: string)
    ensures StartsWith(s, prefix) <==> |prefix| <= |s| && s[..|prefix|] == prefix
  {
    if |prefix| <= |s| {
      MatchesAtSlice(s, prefix, 0, 0);
    }
  }

  /** `s.split(" ", 1)`: the text before the first space and, when there is
      a space, the text after it. */
  function SplitOnce(s: string): (r: (string, Option<string>))
    ensures ' ' !in r.0
    ensures r.1.None? ==> r.0 == s
    ensures r.1.Some? ==> s == r.0 + " " + r.1.value
  {
    if s == "" then ("", None)
    else if s[0] == ' ' then ("", Some(s[1..]))
    else
      var (head, rest) := SplitOnce(s[1..]);
      ([s[0]] + head, rest)
  }

  /** The split is the one at the first space: any decomposition around a
      space with no space before it is the one `SplitOnce` finds. */
  lemma {:induction false} SplitOnceAt(s: string, head: string, rest: string)
    requires ' ' !in head && s == head + " " + rest
    ensures SplitOnce(s) == (head, Some(rest))
  {
    if head == "" {
      assert s[1..] == rest;
    } else {
      assert s[0] == head[0];
      assert s[1..] == head[1..] + " " + rest;
      SplitOnceAt(s[1..], head[1..], rest);
      assert [s[0]] + head[1..] == head;
    }
  }

  /** `s.split(" ")[0]`: the longest prefix of `s` without a space. */
  function FirstToken(s: string): (r: string)
    ensures ' ' !in r
    ensures StartsWith(s, r)
    ensures |r| < |s| ==> s[|r|] == ' '
  {
    var (head, rest) := SplitOnce(s);
    assert rest.Some? ==> s[..|head|] == head && s[|head|] == ' ' by {
      if rest.Some? {
        assert s == head + " " + rest.value;
      }
    }
    StartsWithPrefix(s, head);
    head
  }

  /** `needle` sits in `hay` starting at position `i`. */
  predicate OccursAt(hay: string, needle: string, i: nat)
  {
    i + |needle| <= |hay| && hay[i..i + |needle|] == needle
  }

  /** The meaning of Python's `needle in hay` on strings. */
  ghost predicate IsSubstring(needle: string, hay: string)
  {
    exists i: nat :: OccursAt(hay, needle, i)
  }

  /** Some start position from `i` on holds `needle`, tried left to right. */
  predicate ContainsFrom(hay: string, needle: string, i: nat)
    decreases |hay| - i
  {
    i + |needle| <= |hay| && (MatchesAt(hay, needle, i, 0) || ContainsFrom(hay, needle, i + 1))
  }

  /** `needle in hay` */
  predicate Contains(hay: string, needle: string)
  {
    ContainsFrom(hay, needle, 0)
  }

  lemma {:induction false} ContainsFromOccurs(hay: string, needle: string, i: nat)
    ensures ContainsFrom(hay, needle, i) <==> exists k: nat :: i <= k && OccursAt(hay, needle, k)
    decreases |hay| - i
  {
    if i + |needle| <= |hay| {
      MatchesAtSlice(hay, needle, i, 0);
      ContainsFromOccurs(hay, needle, i + 1);
      if MatchesAt(hay, needle, i, 0) {
        assert OccursAt(hay, needle, i);
      }
      if exists k: nat :: i <= k && OccursAt(hay, needle, k) {
        var k: nat :| i <= k && OccursAt(hay, needle, k);
        assert k == i || (i + 1 <= k && OccursAt(hay, needle, k));
      }
    }
  }

  lemma ContainsIsSubstring(hay: string, needle: string)
    ensures Contains(hay, needle) <==> IsSubstring(needle, hay)
  {
    ContainsFromOccurs(hay, needle, 0);
  }

  /** Some keyword of `keywords` from index `k` on is in `hay`. */
  predicate ContainsAnyFrom(hay: string, keywords: seq<string>, k: nat)
    decreases |keywords| - k
  {
    k < |keywords| && (Contains(hay, keywords[k]) || ContainsAnyFrom(hay, keywords, k + 1))
  }

  /** `any(kw in hay for kw in keywords)` */
  predicate ContainsAny(hay: string, keywords: seq<string>)
  {
    ContainsAnyFrom(hay, keywords, 0)
  }

  /** Some keyword of `keywords` is a substring of `hay`. */
  ghost predicate MentionsAny(hay: string, keywords: seq<string>)
  {
    exists k :: 0 <= k < |keywords| && IsSubstring(keywords[k], hay)
  }

  lemma {:induction false} ContainsAnyFromMentions(hay: string, keywords: seq<string>, k: nat)
    ensures ContainsAnyFrom(hay, keywords, k) <==>
      exists m :: k <= m < |keywords| && IsSubstring(keywords[m], hay)
    decreases |keywords| - k
  {
    if k < |keywords| {
      ContainsIsSubstring(hay, keywords[k]);
      ContainsAnyFromMentions(hay, keywords, k + 1);
      if exists m :: k <= m < |keywords| && IsSubstring(keywords[m], hay) {
        var m :| k <= m < |keywords| && IsSubstring(keywords[m], hay);
        assert m == k || (k + 1 <= m && IsSubstring(keywords[m], hay));
      }
    }
  }

  lemma ContainsAnyMentions(hay: string, keywords: seq<string>)
    ensures ContainsAny(hay, keywords) <==> MentionsAny(hay, keywords)
  {
    ContainsAnyFromMentions(hay, keywords, 0);
  }

  /** U+212A KELVIN SIGN, the one non-ASCII character that `str.lower`
      turns into a lone ASCII letter. */
  const KelvinSign: char := '\U{212A}'

  /** Lower-casing of one character: ASCII capitals and the Kelvin sign. */
  function LowerChar(c: char): (r: char)
    ensures !('A' <= r <= 'Z') && r != KelvinSign
    ensures c == KelvinSign ==> r == 'k'
    ensures !('A' <= c <= 'Z') && c != KelvinSign ==> r == c
  {
    if 'A' <= c <= 'Z' then (c as int + 32) as char
    else if c == KelvinSign then 'k'
    else c
  }

  /** `s.lower()`, restricted to ASCII letters and the Kelvin sign. */
  function Lower(s: string): (r: string)
    ensures |r| == |s|
    ensures forall i :: 0 <= i < |s| ==> !('A' <= r[i] <= 'Z') && r[i] != KelvinSign
    ensures forall i :: 0 <= i < |s| ==>
      if 'A' <= s[i] <= 'Z' then r[i] as int == s[i] as int + 32
      else if s[i] == KelvinSign then r[i] == 'k'
      else r[i] == s[i]
  {
    seq(|s|, i requires 0 <= i < |s| => LowerChar(s[i]))
  }
}
