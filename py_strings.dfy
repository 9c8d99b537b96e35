/**
 * The few Python `str` operations the tagger relies on, with Python's
 * semantics: `s.split(sep)`, `s.split(c, 1)`, `s.strip()`,
 * `s.startswith(p)` and `sub in s`.
 */
module PyStrings {

  /** Python's `str.isspace()` on one character: what `str.strip()` removes. */
  predicate IsSpace(c: char) {
    || c == ' '
    || '\t' <= c <= '\r'
    || '\U{1c}' <= c <= '\U{1f}'
    || c == '\U{85}' || c == '\U{a0}' || c == '\U{1680}'
    || '\U{2000}' <= c <= '\U{200a}'
    || c == '\U{2028}' || c == '\U{2029}' || c == '\U{202f}' || c == '\U{205f}' || c == '\U{3000}'
  }

  predicate AllSpace(s: string) {
    forall k :: 0 <= k < |s| ==> IsSpace(s[k])
  }

  /** `s.lstrip()`. */
  function TrimLeft(s: string): string {
    if s != "" && IsSpace(s[0]) then TrimLeft(s[1..]) else s
  }

  /** `s.rstrip()`. */
  function TrimRight(s: string): string {
    if s != "" && IsSpace(s[|s| - 1]) then TrimRight(s[..|s| - 1]) else s
  }

  /** `s.lstrip()` is the suffix of `s` left after its leading whitespace. */
  lemma {:induction false} TrimLeftSpec(s: string)
    ensures |TrimLeft(s)| <= |s| && TrimLeft(s) == s[|s| - |TrimLeft(s)|..]
    ensures AllSpace(s[..|s| - |TrimLeft(s)|])
    ensures TrimLeft(s) == "" || !IsSpace(TrimLeft(s)[0])
  {
    if s != "" && IsSpace(s[0]) {
      var r := TrimLeft(s[1..]);
      TrimLeftSpec(s[1..]);
      assert s[..|s| - |r|] == [s[0]] + s[1..][..|s| - 1 - |r|];
    }
  }

  /** `s.rstrip()` is the prefix of `s` left before its trailing whitespace. */
  lemma {:induction false} TrimRightSpec(s: string)
    ensures |TrimRight(s)| <= |s| && TrimRight(s) == s[..|TrimRight(s)|]
    ensures AllSpace(s[|TrimRight(s)|..])
    ensures TrimRight(s) == "" || !IsSpace(TrimRight(s)[|TrimRight(s)| - 1])
  {
    if s != "" && IsSpace(s[|s| - 1]) {
      var r := TrimRight(s[..|s| - 1]);
      TrimRightSpec(s[..|s| - 1]);
      assert s[|r|..] == s[..|s| - 1][|r|..] + [s[|s| - 1]];
    }
  }

  /** `s.strip()`. */
  function Strip(s: string): string {
    TrimRight(TrimLeft(s))
  }

  /**
   * `s.strip()` neither starts nor ends with whitespace, and it is empty
   * exactly when `s` is all whitespace.
   */
  lemma StripSpec(s: string)
    ensures Strip(s) != "" ==> !IsSpace(Strip(s)[0]) && !IsSpace(Strip(s)[|Strip(s)| - 1])
    ensures Strip(s) == "" <==> AllSpace(s)
  {
    var left := TrimLeft(s);
    var r := Strip(s);
    TrimLeftSpec(s);
    TrimRightSpec(left);
    assert r == "" ==> s == s[..|s| - |left|] + left[|r|..];
  }

  /** Where the stripped text starts in `s`. */
  function StripStart(s: string): nat {
    TrimLeftSpec(s);
    |s| - |TrimLeft(s)|
  }

  /** `s` is whitespace, then `s.strip()`, then whitespace. */
  lemma StripIsSlice(s: string)
    ensures StripStart(s) + |Strip(s)| <= |s|
    ensures AllSpace(s[..StripStart(s)])
    ensures s[StripStart(s)..StripStart(s) + |Strip(s)|] == Strip(s)
    ensures AllSpace(s[StripStart(s) + |Strip(s)|..])
  {
    var left := TrimLeft(s);
    TrimLeftSpec(s);
    TrimRightSpec(left);
    var i := StripStart(s);
    var r := Strip(s);
    assert s[i..i + |r|] == left[..|r|];
    assert s[i + |r|..] == left[|r|..];
  }

  /** `s.startswith(p)`, compared character by character. */
  function StartsWith(s: string, p: string): (b: bool)
    ensures b <==> |p| <= |s| && s[..|p|] == p
  {
    p == "" || (s != "" && s[0] == p[0] && StartsWith(s[1..], p[1..]))
  }

  /** `sep in s` for a separator string: `sep` occurs somewhere in `s`. */
  predicate Occurs(sep: string, s: string)
    decreases |s|
  {
    StartsWith(s, sep) || (s != "" && Occurs(sep, s[1..]))
  }

  /**
   * `s.split(sep)` for a non-empty separator: scans left to right and cuts
   * at every non-overlapping occurrence of `sep`.
   */
  function Split(s: string, sep: string): (parts: seq<string>)
    requires sep != ""
    ensures |parts| >= 1
    decreases |s|
  {
    if StartsWith(s, sep) then [""] + Split(s[|sep|..], sep)
    else if s == "" then [""]
    else
      var rest := Split(s[1..], sep);
      [[s[0]] + rest[0]] + rest[1..]
  }

  /** `sep.join(parts)`. */
  function Join(parts: seq<string>, sep: string): string
    requires |parts| >= 1
  {
    if |parts| == 1 then parts[0] else parts[0] + sep + Join(parts[1..], sep)
  }

  /** `s.split(c, 1)` when `c in s`: the text before the first `c` and the text after it. */
  function SplitOnce(s: string, c: char): (halves: (string, string))
    requires c in s
    ensures c !in halves.0
    ensures s == halves.0 + [c] + halves.1
  {
    if s[0] == c then ("", s[1..])
    else
      var h := SplitOnce(s[1..], c);
      assert s == [s[0]] + s[1..];
      ([s[0]] + h.0, h.1)
  }

  /** The first occurrence of `c` is where `s.split(c, 1)` cuts. */
  lemma {:induction false} SplitOnceOf(before: string, c: char, after: string)
    requires c !in before
    ensures SplitOnce(before + [c] + after, c) == (before, after)
    decreases |before|
  {
    var s := before + [c] + after;
    if before != "" {
      assert s[0] == before[0] && s[0] != c;
      assert s[1..] == before[1..] + [c] + after;
      SplitOnceOf(before[1..], c, after);
      assert before == [before[0]] + before[1..];
    }
  }

  /** A one-character separator occurs exactly when the character is in the string. */
  lemma {:induction false} OccursChar(c: char, s: string)
    ensures Occurs([c], s) <==> c in s
    decreases |s|
  {
    if s != "" {
      OccursChar(c, s[1..]);
      assert s == [s[0]] + s[1..];
    }
  }

  lemma {:induction false} JoinConsChar(c: char, parts: seq<string>, sep: string)
    requires |parts| >= 1
    ensures Join([[c] + parts[0]] + parts[1..], sep) == [c] + Join(parts, sep)
  {
    var q := [[c] + parts[0]] + parts[1..];
    if |parts| > 1 {
      assert q[1..] == parts[1..];
    }
  }

  /** Joining a first part onto at least one more puts the separator between them. */
  lemma JoinCons(first: string, parts: seq<string>, sep: string)
    requires |parts| >= 1
    ensures Join([first] + parts, sep) == first + sep + Join(parts, sep)
    ensures first == "" ==> Join([first] + parts, sep) == sep + Join(parts, sep)
  {
    assert ([first] + parts)[1..] == parts;
  }

  /** The last part of a join comes after the last separator. */
  lemma {:induction false} JoinLast(parts: seq<string>, sep: string)
    requires |parts| >= 2
    ensures Join(parts, sep) == Join(parts[..|parts| - 1], sep) + sep + parts[|parts| - 1]
    decreases |parts|
  {
    if |parts| > 2 {
      var init := parts[..|parts| - 1];
      JoinLast(parts[1..], sep);
      assert parts[1..][..|parts| - 2] == init[1..];
      assert Join(init, sep) == parts[0] + sep + Join(init[1..], sep);
    } else {
      assert parts[..1] == [parts[0]];
    }
  }

  /** Splitting and joining again gives back the string. */
  lemma {:induction false} SplitJoin(s: string, sep: string)
    requires sep != ""
    ensures Join(Split(s, sep), sep) == s
    decreases |s|
  {
    if StartsWith(s, sep) {
      SplitJoin(s[|sep|..], sep);
      SplitJoinAtSeparator(s, sep);
    } else if s != "" {
      SplitJoin(s[1..], sep);
      SplitJoinAtChar(s, sep);
    }
  }

  /** The step of `SplitJoin` for a string that starts with the separator. */
  lemma SplitJoinAtSeparator(s: string, sep: string)
    requires sep != "" && StartsWith(s, sep)
    requires Join(Split(s[|sep|..], sep), sep) == s[|sep|..]
    ensures Join(Split(s, sep), sep) == s
  {
    var rest := Split(s[|sep|..], sep);
    SplitAtSeparator(s, sep);
    JoinCons("", rest, sep);
    assert s == sep + s[|sep|..];
  }

  /** A string that starts with the separator splits into an empty part and the parts after the separator. */
  lemma SplitAtSeparator(s: string, sep: string)
    requires sep != "" && StartsWith(s, sep)
    ensures Split(s, sep) == [""] + Split(s[|sep|..], sep)
  {
  }

  /** The step of `SplitJoin` for a non-empty string that does not start with the separator. */
  lemma SplitJoinAtChar(s: string, sep: string)
    requires sep != "" && !StartsWith(s, sep) && s != ""
    requires Join(Split(s[1..], sep), sep) == s[1..]
    ensures Join(Split(s, sep), sep) == s
  {
    JoinConsChar(s[0], Split(s[1..], sep), sep);
    assert s == [s[0]] + s[1..];
  }

  lemma {:induction false} JoinStartsWithFirst(parts: seq<string>, sep: string)
    requires |parts| >= 1
    ensures StartsWith(Join(parts, sep), parts[0])
  {
    if |parts| > 1 {
      assert Join(parts, sep) == parts[0] + (sep + Join(parts[1..], sep));
    }
  }

  lemma PrefixStartsWith(s: string, p: string, sep: string)
    requires StartsWith(s, p)
    ensures StartsWith(p, sep) ==> StartsWith(s, sep)
  {
    if |sep| <= |p| {
      assert p[..|sep|] == s[..|sep|];
    }
  }

  /** No part of a split contains the separator. */
  lemma {:induction false} SplitPartsFree(s: string, sep: string)
    requires sep != ""
    ensures forall i :: 0 <= i < |Split(s, sep)| ==> !Occurs(sep, Split(s, sep)[i])
    decreases |s|
  {
    if StartsWith(s, sep) {
      SplitPartsFree(s[|sep|..], sep);
      SplitPartsFreeAtSeparator(s, sep);
    } else if s != "" {
      SplitPartsFree(s[1..], sep);
      SplitPartsFreeAtChar(s, sep);
    }
  }

  /** The step of `SplitPartsFree` for a string that starts with the separator. */
  lemma SplitPartsFreeAtSeparator(s: string, sep: string)
    requires sep != "" && StartsWith(s, sep)
    requires forall i :: 0 <= i < |Split(s[|sep|..], sep)| ==> !Occurs(sep, Split(s[|sep|..], sep)[i])
    ensures forall i :: 0 <= i < |Split(s, sep)| ==> !Occurs(sep, Split(s, sep)[i])
  {
    var parts := Split(s, sep);
    assert parts[1..] == Split(s[|sep|..], sep);
    assert !Occurs(sep, parts[0]);
  }

  /** The step of `SplitPartsFree` for a non-empty string that does not start with the separator. */
  lemma SplitPartsFreeAtChar(s: string, sep: string)
    requires sep != "" && !StartsWith(s, sep) && s != ""
    requires forall i :: 0 <= i < |Split(s[1..], sep)| ==> !Occurs(sep, Split(s[1..], sep)[i])
    ensures forall i :: 0 <= i < |Split(s, sep)| ==> !Occurs(sep, Split(s, sep)[i])
  {
    var parts := Split(s, sep);
    var rest := Split(s[1..], sep);
    assert parts[1..] == rest[1..];
    var first := [s[0]] + rest[0];
    assert first == parts[0];
    SplitJoin(s[1..], sep);
    JoinStartsWithFirst(rest, sep);
    assert s == [s[0]] + s[1..];
    assert StartsWith(s, first);
    PrefixStartsWith(s, first, sep);
    assert first[1..] == rest[0];
  }

  /** A string free of the separator splits into itself alone. */
  lemma {:induction false} SplitNoSeparator(s: string, sep: string)
    requires sep != "" && !Occurs(sep, s)
    ensures Split(s, sep) == [s]
    decreases |s|
  {
    if s != "" {
      SplitNoSeparator(s[1..], sep);
      assert s == [s[0]] + s[1..];
    }
  }

  /** When the separator occurs, there are at least two parts. */
  lemma {:induction false} SplitWithSeparator(s: string, sep: string)
    requires sep != "" && Occurs(sep, s)
    ensures |Split(s, sep)| >= 2
    decreases |s|
  {
    if !StartsWith(s, sep) {
      SplitWithSeparator(s[1..], sep);
    }
  }

  /** Cutting at one character splits the two sides independently. */
  lemma {:induction false} SplitAppend(a: string, c: char, b: string)
    ensures Split(a + [c] + b, [c]) == Split(a, [c]) + Split(b, [c])
    decreases |a|
  {
    var s := a + [c] + b;
    if a == "" {
      assert s == [c] + b;
      assert s[1..] == b;
    } else {
      assert s[1..] == a[1..] + [c] + b;
      SplitAppend(a[1..], c, b);
      if a[0] == c {
        assert StartsWith(a, [c]);
      } else {
        assert !StartsWith(s, [c]);
        assert !StartsWith(a, [c]);
      }
    }
  }

  /** A leading field free of the separator is the first part. */
  lemma SplitFirstField(field: string, c: char, rest: string)
    requires c !in field
    ensures Split(field + [c] + rest, [c]) == [field] + Split(rest, [c])
  {
    SplitAppend(field, c, rest);
    OccursChar(c, field);
    SplitNoSeparator(field, [c]);
  }

  /** Parts free of the separator are recovered by splitting their join: split is the inverse of join. */
  lemma {:induction false} SplitOfJoin(parts: seq<string>, c: char)
    requires |parts| >= 1
    requires forall i :: 0 <= i < |parts| ==> c !in parts[i]
    ensures Split(Join(parts, [c]), [c]) == parts
    decreases |parts|
  {
    OccursChar(c, parts[0]);
    SplitNoSeparator(parts[0], [c]);
    if |parts| > 1 {
      SplitOfJoin(parts[1..], c);
      SplitAppend(parts[0], c, Join(parts[1..], [c]));
      assert Join(parts, [c]) == parts[0] + [c] + Join(parts[1..], [c]);
      assert parts == [parts[0]] + parts[1..];
    }
  }

  /** `len(s.split(c)) == s.count(c) + 1`. */
  lemma {:induction false} SplitCount(s: string, c: char)
    ensures |Split(s, [c])| == multiset(s)[c] + 1
    decreases |s|
  {
    if s != "" {
      SplitCount(s[1..], c);
      assert s == [s[0]] + s[1..];
      assert StartsWith(s, [c]) <==> s[0] == c;
    }
  }
}
