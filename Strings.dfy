/** Character-sequence counterparts of the PHP string functions the plugins call. */
module Strings {

  import opened Wrappers

  /**
   * PHP's `str_starts_with($s, $prefix)`: an exact, case-sensitive prefix test -- `s` is at
   * least as long as `prefix` and agrees with it character by character.
   */
  predicate StartsWith(s: string, prefix: string)
    ensures StartsWith(s, prefix) <==>
      |prefix| <= |s| && forall i :: 0 <= i < |prefix| ==> s[i] == prefix[i]
  {
    |prefix| <= |s| && s[..|prefix|] == prefix
  }

  /** A prefix stays a prefix whatever is appended. */
  lemma StartsWithExtended(s: string, prefix: string, more: string)
    requires StartsWith(s, prefix)
    ensures StartsWith(s + more, prefix)
  {
    assert (s + more)[..|prefix|] == s[..|prefix|];
  }

  /** `pat` occurs in `s` starting at index `i`. */
  predicate OccursAt(s: string, pat: string, i: nat)
  {
    i + |pat| <= |s| && s[i..i + |pat|] == pat
  }

  /** PHP's `rtrim($s, '/')`: `s` without its trailing run of '/'. */
  function TrimTrailingSlashes(s: string): (r: string)
    ensures |r| <= |s| && r == s[..|r|]
    ensures r == [] || r[|r| - 1] != '/'
    ensures forall i :: |r| <= i < |s| ==> s[i] == '/'
  {
    if s != [] && s[|s| - 1] == '/' then TrimTrailingSlashes(s[..|s| - 1]) else s
  }

  /** C's `iscntrl` in the default locale: the character codes 0-31 and 127. */
  predicate IsControl(c: char)
  {
    c as int < 32 || c as int == 127
  }

  /**
   * What PHP's `parse_url` does to each part it returns: every control character becomes
   * '_', and every other character is kept in place.
   */
  function ReplaceControlChars(s: string): (r: string)
    ensures |r| == |s| && '\n' !in r
    ensures forall i :: 0 <= i < |s| ==> !IsControl(r[i])
    ensures forall i :: 0 <= i < |s| ==> r[i] == (if IsControl(s[i]) then '_' else s[i])
  {
    if s == [] then [] else [if IsControl(s[0]) then '_' else s[0]] + ReplaceControlChars(s[1..])
  }

  /** The replacement works character by character, so it distributes over concatenation. */
  lemma ReplaceControlCharsAppend(a: string, b: string)
    ensures ReplaceControlChars(a + b) == ReplaceControlChars(a) + ReplaceControlChars(b)
  {
    var l, r := ReplaceControlChars(a + b), ReplaceControlChars(a) + ReplaceControlChars(b);
    forall i | 0 <= i < |l| ensures l[i] == r[i] {
      if i < |a| {
        assert (a + b)[i] == a[i];
      } else {
        assert (a + b)[i] == b[i - |a|];
      }
    }
  }

  /** A string without control characters is left as it is. */
  lemma ReplaceControlCharsKeeps(s: string)
    requires forall i :: 0 <= i < |s| ==> !IsControl(s[i])
    ensures ReplaceControlChars(s) == s
  {
  }

  /** The longest prefix of `s` that holds no character of `stops`. */
  function PrefixBefore(s: string, stops: set<char>): (r: string)
    ensures |r| <= |s| && r == s[..|r|]
    ensures forall i :: 0 <= i < |r| ==> r[i] !in stops
    ensures |r| < |s| ==> s[|r|] in stops
  {
    if s == [] || s[0] in stops then [] else [s[0]] + PrefixBefore(s[1..], stops)
  }

  /** `s` from its first character in `stops` on; empty when no character of `s` is in `stops`. */
  function SuffixFrom(s: string, stops: set<char>): (r: string)
    ensures |r| <= |s| && r == s[|s| - |r|..]
    ensures r == [] || r[0] in stops
    ensures forall i :: 0 <= i < |s| - |r| ==> s[i] !in stops
  {
    if s == [] || s[0] in stops then s else SuffixFrom(s[1..], stops)
  }

  /** The text after the first occurrence of `sep` at or after index `i`, if there is one. */
  function AfterFrom(s: string, sep: string, i: nat): (r: Option<string>)
    ensures r.None? ==> forall j :: i <= j ==> !OccursAt(s, sep, j)
    ensures r.Some? ==>
      exists j :: i <= j && OccursAt(s, sep, j) && r.value == s[j + |sep|..] &&
        forall k :: i <= k < j ==> !OccursAt(s, sep, k)
    decreases |s| - i
  {
    if i + |sep| > |s| then None
    else if OccursAt(s, sep, i) then Some(s[i + |sep|..])
    else AfterFrom(s, sep, i + 1)
  }

  /** The text after the first occurrence of `sep` in `s`, if there is one. */
  function After(s: string, sep: string): Option<string>
  {
    AfterFrom(s, sep, 0)
  }

  /** A separator whose first character never appears in `head` is found right after `head`. */
  lemma AfterPastHead(head: string, sep: string, tail: string)
    requires sep != [] && sep[0] !in head
    ensures After(head + sep + tail, sep) == Some(tail)
  {
    var s := head + sep + tail;
    assert s[|head|..|head| + |sep|] == sep;
    assert OccursAt(s, sep, |head|);
    var r := After(s, sep);
    var j :| 0 <= j && OccursAt(s, sep, j) && r.value == s[j + |sep|..] &&
      forall k :: 0 <= k < j ==> !OccursAt(s, sep, k);
    assert j == |head|;
    assert s[|head| + |sep|..] == tail;
  }

  /** Stripping a prefix free of `stops` up to the first stop leaves exactly the rest. */
  lemma SuffixFromPastHead(head: string, rest: string, stops: set<char>)
    requires forall i :: 0 <= i < |head| ==> head[i] !in stops
    requires rest != [] && rest[0] in stops
    ensures SuffixFrom(head + rest, stops) == rest
  {
    var s := head + rest;
    var r := SuffixFrom(s, stops);
    assert forall i :: 0 <= i < |head| ==> s[i] !in stops;
    assert s[|head|] in stops;
    assert |r| >= |rest|;
    assert r[0] == s[|s| - |r|];
    assert s[|s| - |rest|..] == rest;
  }

  /** Cutting at the first stop keeps exactly a stop-free head when the rest starts with a stop. */
  lemma PrefixBeforeHead(head: string, rest: string, stops: set<char>)
    requires forall i :: 0 <= i < |head| ==> head[i] !in stops
    requires rest == [] || rest[0] in stops
    ensures PrefixBefore(head + rest, stops) == head
  {
    var s := head + rest;
    var r := PrefixBefore(s, stops);
    assert forall i :: 0 <= i < |head| ==> s[i] !in stops;
    assert forall i :: 0 <= i < |r| ==> s[i] !in stops;
    assert rest != [] ==> s[|head|] in stops;
    assert s[..|head|] == head;
  }

  /** A character absent from `s` is absent from every slice of it. */
  lemma AbsentFromSlice(s: string, lo: nat, hi: nat, c: char)
    requires c !in s && lo <= hi <= |s|
    ensures c !in s[lo..hi]
  {
    var t := s[lo..hi];
    forall i | 0 <= i < |t| ensures t[i] != c {
      assert t[i] == s[lo + i];
    }
  }

  /** `s` does not start with `prefix` when the two differ at an index both have. */
  lemma DiffersAt(s: string, prefix: string, k: nat)
    requires k < |s| && k < |prefix| && s[k] != prefix[k]
    ensures !StartsWith(s, prefix)
  {
  }
}
