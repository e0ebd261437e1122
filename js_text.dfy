/**
 * The JavaScript string built-ins the chat command parser relies on, written
 * out over `seq<char>`: `trim`, `startsWith`, `indexOf` / `replace` with a
 * string pattern, `split(" ")` and `join(" ")`.
 *
 * Every character the parser looks for lies in the Basic Multilingual Plane,
 * so working on code points instead of UTF-16 code units changes nothing here.
 */
module JsText {
  import opened Wrappers

  /** The separator the bot splits and joins on: a single U+0020. */
  const Space: char := ' '

  // ---------------------------------------------------------------------------
  // trim
  // ---------------------------------------------------------------------------

  /** The characters `String.prototype.trim` strips: ECMAScript's WhiteSpace
      (TAB, VT, FF, ZWNBSP and every Unicode space separator) and its
      LineTerminator (LF, CR, LS, PS). */
  predicate IsTrimmable(c: char) {
    c == '\t' || c == '\n' || c == '\U{000B}' || c == '\U{000C}' || c == '\r'
    || c == ' ' || c == '\U{00A0}' || c == '\U{1680}'
    || ('\U{2000}' <= c && c <= '\U{200A}')
    || c == '\U{2028}' || c == '\U{2029}' || c == '\U{202F}' || c == '\U{205F}'
    || c == '\U{3000}' || c == '\U{FEFF}'
  }

  predicate AllTrimmable(s: string) {
    forall i :: 0 <= i < |s| ==> IsTrimmable(s[i])
  }

  /** A string `trim` leaves as it is: it neither starts nor ends with a
      trimmable character. */
  predicate IsTrimmed(s: string) {
    s == [] || (!IsTrimmable(s[0]) && !IsTrimmable(s[|s| - 1]))
  }

  /** Drops the leading run of trimmable characters: the result is a suffix
      of `s`, what was dropped is all trimmable, and what is left does not
      start with a trimmable character. */
  function TrimStart(s: string): (r: string)
    ensures |r| <= |s| && r == s[|s| - |r|..]
    ensures AllTrimmable(s[..|s| - |r|])
    ensures r == [] || !IsTrimmable(r[0])
  {
    if |s| > 0 && IsTrimmable(s[0]) then
      var r := TrimStart(s[1..]);
      assert s[..|s| - |r|] == [s[0]] + s[1..][..|s| - 1 - |r|];
      r
    else s
  }

  /** Drops the trailing run of trimmable characters: the result is a prefix
      of `s`, what was dropped is all trimmable, and what is left does not
      end with a trimmable character. */
  function TrimEnd(s: string): (r: string)
    ensures |r| <= |s| && r == s[..|r|]
    ensures AllTrimmable(s[|r|..])
    ensures r == [] || !IsTrimmable(r[|r| - 1])
  {
    if |s| > 0 && IsTrimmable(s[|s| - 1]) then
      var r := TrimEnd(s[..|s| - 1]);
      assert s[|r|..] == s[..|s| - 1][|r|..] + [s[|s| - 1]];
      r
    else s
  }

  /** `s.trim()`: its result is trimmed, and a string that is already trimmed
      comes back unchanged (so trimming twice is trimming once). */
  function Trim(s: string): (r: string)
    ensures IsTrimmed(r)
    ensures IsTrimmed(s) ==> r == s
  {
    TrimEnd(TrimStart(s))
  }

  /** What `trim` removes is exactly a trimmable prefix and a trimmable suffix:
      the result is the middle slice `s[i..j]` of the input. */
  lemma TrimIsMiddleSlice(s: string)
    ensures exists i, j :: 0 <= i <= j <= |s| && Trim(s) == s[i..j]
                           && AllTrimmable(s[..i]) && AllTrimmable(s[j..])
  {
    var t := TrimStart(s);
    var r := TrimEnd(t);
    var i := |s| - |t|;
    var j := i + |r|;
    assert r == s[i..j] && t[|r|..] == s[j..] by {
      assert t == s[i..];
    }
  }

  // ---------------------------------------------------------------------------
  // startsWith, indexOf, replace
  // ---------------------------------------------------------------------------

  /** `s.startsWith(prefix)`. */
  predicate StartsWith(s: string, prefix: string) {
    |prefix| <= |s| && s[..|prefix|] == prefix
  }

  /** `pat` occurs in `s` starting at index `k`. */
  predicate OccursAt(s: string, pat: string, k: nat) {
    k + |pat| <= |s| && s[k..k + |pat|] == pat
  }

  /** `s.includes(pat)`: plain substring containment. */
  predicate Contains(s: string, pat: string) {
    exists k: nat | k <= |s| :: OccursAt(s, pat, k)
  }

  /** The first occurrence of `pat` in `s` at or after `from`. */
  function IndexOfFrom(s: string, pat: string, from: nat): (r: Option<nat>)
    ensures r.Some? ==> from <= r.value && OccursAt(s, pat, r.value)
    ensures forall k: nat :: from <= k && (r.None? || k < r.value) ==> !OccursAt(s, pat, k)
    decreases |s| - from
  {
    if from + |pat| > |s| then None
    else if OccursAt(s, pat, from) then Some(from)
    else IndexOfFrom(s, pat, from + 1)
  }

  /** `s.indexOf(pat)`, with `None` for JavaScript's -1: it finds an index
      exactly when `pat` occurs in `s`, and that index is the first one. */
  function IndexOf(s: string, pat: string): (r: Option<nat>)
    ensures r.Some? <==> Contains(s, pat)
    ensures r.Some? ==> OccursAt(s, pat, r.value)
                        && forall k: nat :: k < r.value ==> !OccursAt(s, pat, k)
  {
    IndexOfFrom(s, pat, 0)
  }

  /** `s.startsWith(prefix)` holds exactly when `s.indexOf(prefix) === 0`. */
  lemma StartsWithIsIndexZero(s: string, prefix: string)
    ensures StartsWith(s, prefix) <==> IndexOf(s, prefix) == Some(0)
  {
    assert StartsWith(s, prefix) <==> OccursAt(s, prefix, 0);
  }

  /** `s.replace(pat, rep)` with a string pattern: the body replaces the
      first occurrence only. The contract states the leading-copy case, the
      one the keyword rule uses; ReplaceFirstLength adds that `s` comes back
      unchanged when the pattern does not occur. (The replacement strings
      the bot uses contain no `$` patterns.) */
  function ReplaceFirst(s: string, pat: string, rep: string): (r: string)
    ensures StartsWith(s, pat) ==> r == rep + s[|pat|..]
  {
    match IndexOf(s, pat)
    case None => s
    case Some(k) =>
      assert StartsWith(s, pat) ==> OccursAt(s, pat, 0) && k == 0;
      s[..k] + rep + s[k + |pat|..]
  }

  /** Replacing changes the length by the difference between the
      replacement and the pattern when the pattern occurs, and changes
      nothing otherwise. */
  lemma ReplaceFirstLength(s: string, pat: string, rep: string)
    ensures !Contains(s, pat) ==> ReplaceFirst(s, pat, rep) == s
    ensures Contains(s, pat) ==> |ReplaceFirst(s, pat, rep)| == |s| - |pat| + |rep|
  {
  }

  // ---------------------------------------------------------------------------
  // split(" ") and join(" ")
  // ---------------------------------------------------------------------------

  /** The number of spaces in `s`. */
  function CountSpaces(s: string): nat {
    if s == [] then 0 else (if s[0] == Space then 1 else 0) + CountSpaces(s[1..])
  }

  /** A text counts no spaces exactly when it holds none. */
  lemma {:induction false} CountSpacesZero(s: string)
    ensures CountSpaces(s) == 0 <==> Space !in s
  {
    if s != [] {
      assert Space in s <==> s[0] == Space || Space in s[1..];
      CountSpacesZero(s[1..]);
    }
  }

  lemma {:induction false} CountSpacesAppend(a: string, b: string)
    ensures CountSpaces(a + b) == CountSpaces(a) + CountSpaces(b)
  {
    if a != [] {
      assert (a + b)[1..] == a[1..] + b;
      CountSpacesAppend(a[1..], b);
    } else {
      assert a + b == b;
    }
  }

  /** `s.split(" ")`: cuts at every single space, so consecutive spaces give
      empty parts and the empty string gives `[""]`. There is one part more
      than there are spaces, and no part holds a space. */
  function Split(s: string): (parts: seq<string>)
    ensures |parts| == CountSpaces(s) + 1
    ensures forall i :: 0 <= i < |parts| ==> Space !in parts[i]
    decreases |s|
  {
    if s == [] then [""]
    else if s[0] == Space then [""] + Split(s[1..])
    else
      var rest := Split(s[1..]);
      [[s[0]] + rest[0]] + rest[1..]
  }

  /** `parts.join(" ")`; `[].join(" ")` is the empty string. What it
      produces is stated by the lemmas below: JoinUnfold, JoinCountsSpaces,
      JoinSplit and SplitJoin. */
  function Join(parts: seq<string>): string
  {
    if |parts| == 0 then ""
    else if |parts| == 1 then parts[0]
    else parts[0] + [Space] + Join(parts[1..])
  }

  /** One step of `join`: the first part, a space, and the join of the rest. */
  lemma JoinUnfold(parts: seq<string>)
    requires |parts| >= 2
    ensures Join(parts) == parts[0] + [Space] + Join(parts[1..])
  {
  }

  /** Joining space-free parts puts exactly one space between each two of
      them and no other. */
  lemma {:induction false} JoinCountsSpaces(parts: seq<string>)
    requires |parts| >= 1
    requires forall i :: 0 <= i < |parts| ==> Space !in parts[i]
    ensures CountSpaces(Join(parts)) == |parts| - 1
  {
    CountSpacesZero(parts[0]);
    if |parts| > 1 {
      JoinCountsSpaces(parts[1..]);
      CountSpacesAppend(parts[0], [Space]);
      CountSpacesAppend(parts[0] + [Space], Join(parts[1..]));
    }
  }

  /** Joining the parts of a split with the same separator gives back the
      original text. */
  lemma {:induction false} JoinSplit(s: string)
    ensures Join(Split(s)) == s
    decreases |s|
  {
    if s == [] {
    } else if s[0] == Space {
      JoinSplit(s[1..]);
      assert s == [Space] + s[1..];
    } else {
      var rest := Split(s[1..]);
      JoinSplit(s[1..]);
      assert s == [s[0]] + s[1..];
      if |rest| > 1 {
        var parts := Split(s);
        assert parts == [[s[0]] + rest[0]] + rest[1..];
        assert Join(parts) == ([s[0]] + rest[0]) + [Space] + Join(rest[1..]) by {
          JoinUnfold(parts);
          assert parts[1..] == rest[1..];
        }
        JoinUnfold(rest);
      }
    }
  }

  /** A space-free word in front of any text becomes the head of the text's
      first part. */
  lemma {:induction false} SplitPrependWord(a: string, b: string)
    requires Space !in a
    ensures Split(a + b) == [a + Split(b)[0]] + Split(b)[1..]
    decreases |a|
  {
    if a == [] {
      assert a + b == b;
      assert a + Split(b)[0] == Split(b)[0];
      assert Split(b) == [Split(b)[0]] + Split(b)[1..];
    } else {
      assert a[0] in a;
      assert (a + b)[0] == a[0] != Space;
      assert (a + b)[1..] == a[1..] + b;
      SplitPrependWord(a[1..], b);
      var rest := Split(a[1..] + b);
      assert rest[0] == a[1..] + Split(b)[0];
      assert [a[0]] + rest[0] == a + Split(b)[0];
    }
  }

  /** A space-free word followed by a space is exactly the first part. */
  lemma SplitAfterWord(a: string, b: string)
    requires Space !in a
    ensures Split(a + [Space] + b) == [a] + Split(b)
  {
    SplitPrependWord(a, [Space] + b);
    assert a + [Space] + b == a + ([Space] + b);
    assert ([Space] + b)[1..] == b;
    assert Split([Space] + b) == [""] + Split(b);
    assert a + "" == a;
  }

  /** Splitting a join of space-free parts gives back the parts: together
      with JoinSplit this makes `split(" ")` and `join(" ")` inverse. */
  lemma {:induction false} SplitJoin(parts: seq<string>)
    requires |parts| >= 1
    requires forall i :: 0 <= i < |parts| ==> Space !in parts[i]
    ensures Split(Join(parts)) == parts
    decreases |parts|
  {
    if |parts| == 1 {
      SplitPrependWord(parts[0], "");
      assert parts[0] + "" == parts[0];
    } else {
      SplitJoin(parts[1..]);
      SplitAfterWord(parts[0], Join(parts[1..]));
      assert parts == [parts[0]] + parts[1..];
    }
  }
}
