/** The JavaScript string operations the adapter relies on, over `seq<char>`:
    `includes`, `indexOf`, `lastIndexOf`, `split`, `join`, `trim`,
    `toLowerCase`, and the line structure that a regular expression with the
    `m` flag sees. */
module Strings {
  import opened Wrappers

  /** `sub` occurs in `s` starting at index `i`. */
  predicate OccursAt(s: string, sub: string, i: int) {
    0 <= i && i + |sub| <= |s| && s[i..i + |sub|] == sub
  }

  predicate StartsWith(s: string, prefix: string) {
    OccursAt(s, prefix, 0)
  }

  predicate EndsWith(s: string, suffix: string) {
    OccursAt(s, suffix, |s| - |suffix|)
  }

  /** Two strings found side by side form their concatenation there. */
  lemma OccursConcat(s: string, a: string, b: string, i: int)
    requires OccursAt(s, a, i) && OccursAt(s, b, i + |a|)
    ensures OccursAt(s, a + b, i)
  {
    assert s[i..i + |a| + |b|] == s[i..i + |a|] + s[i + |a|..i + |a| + |b|];
  }

  /** A run of lines is the lines before one of them, that line, and the
      lines after it. */
  lemma AroundLine(lines: seq<string>, i: int)
    requires 0 <= i < |lines|
    ensures lines == (lines[..i] + [lines[i]]) + lines[i + 1..]
  {
    assert lines == (lines[..i] + [lines[i]]) + lines[i + 1..];
  }

  /** `s.includes(sub)` */
  predicate Contains(s: string, sub: string) {
    exists i :: 0 <= i <= |s| && OccursAt(s, sub, i)
  }

  /** The first occurrence of `sub` in `s` at or after `from`. */
  function IndexFrom(s: string, sub: string, from: nat): (r: Option<nat>)
    requires from <= |s|
    ensures r.Some? ==> from <= r.value && OccursAt(s, sub, r.value)
    ensures r.Some? ==> forall j :: from <= j < r.value ==> !OccursAt(s, sub, j)
    ensures r.None? ==> forall j :: from <= j <= |s| ==> !OccursAt(s, sub, j)
    decreases |s| - from
  {
    if OccursAt(s, sub, from) then Some(from)
    else if from == |s| then None
    else IndexFrom(s, sub, from + 1)
  }

  /** `s.indexOf(sub)`, with `None` for -1. */
  function IndexOf(s: string, sub: string): (r: Option<nat>)
    ensures r.None? <==> !Contains(s, sub)
    ensures r.Some? ==> OccursAt(s, sub, r.value)
    ensures r.Some? ==> forall j :: 0 <= j < r.value ==> !OccursAt(s, sub, j)
  {
    IndexFrom(s, sub, 0)
  }

  /** The last occurrence of `sub` in `s` at or before `upTo`. */
  function LastIndexAtMost(s: string, sub: string, upTo: int): (r: Option<nat>)
    ensures r.Some? ==> r.value <= upTo && OccursAt(s, sub, r.value)
    ensures r.Some? ==> forall j :: r.value < j <= upTo ==> !OccursAt(s, sub, j)
    ensures r.None? ==> forall j :: 0 <= j <= upTo ==> !OccursAt(s, sub, j)
    decreases upTo + 1
  {
    if upTo < 0 then None
    else if OccursAt(s, sub, upTo) then Some(upTo)
    else LastIndexAtMost(s, sub, upTo - 1)
  }

  /** `s.lastIndexOf(sub)`, with `None` for -1. */
  function LastIndexOf(s: string, sub: string): (r: Option<nat>)
    ensures r.None? <==> !Contains(s, sub)
    ensures r.Some? ==> OccursAt(s, sub, r.value)
    ensures r.Some? ==> forall j :: r.value < j <= |s| ==> !OccursAt(s, sub, j)
  {
    LastIndexAtMost(s, sub, |s|)
  }

  lemma ContainsCharIff(s: string, c: char)
    ensures Contains(s, [c]) <==> c in s
  {
    if c in s {
      var i :| 0 <= i < |s| && s[i] == c;
      assert OccursAt(s, [c], i);
    }
    forall i | OccursAt(s, [c], i) ensures s[i] == c {
      assert s[i..i + 1][0] == s[i];
    }
  }

  /** A string that lacks one character of `sub` cannot contain `sub`. */
  lemma MissingCharExcludes(s: string, sub: string, c: char)
    requires c in sub && c !in s
    ensures !Contains(s, sub)
  {
    var k :| 0 <= k < |sub| && sub[k] == c;
    forall i | 0 <= i <= |s| ensures !OccursAt(s, sub, i) {
      if i + |sub| <= |s| {
        assert s[i..i + |sub|][k] == s[i + k];
        assert s[i + k] in s;
      }
    }
  }

  /** `parts.join(sep)` */
  function Join(parts: seq<string>, sep: string): string
  {
    if |parts| == 0 then ""
    else if |parts| == 1 then parts[0]
    else parts[0] + sep + Join(parts[1..], sep)
  }

  /** Joining one more part adds one separator and that part at the end. */
  lemma {:induction false} JoinSnoc(parts: seq<string>, last: string, sep: string)
    ensures Join(parts + [last], sep) ==
            if parts == [] then last else Join(parts, sep) + sep + last
  {
    if |parts| >= 2 {
      assert (parts + [last])[1..] == parts[1..] + [last];
      JoinSnoc(parts[1..], last, sep);
    } else if |parts| == 1 {
      assert (parts + [last])[1..] == [last];
    }
  }

  /** The same, for a joined list written between a prefix and a suffix. */
  lemma JoinSnocInside(pre: string, parts: seq<string>, last: string, sep: string, post: string)
    ensures pre + Join(parts + [last], sep) + post ==
            if parts == [] then pre + last + post else pre + Join(parts, sep) + sep + last + post
  {
    JoinSnoc(parts, last, sep);
    if parts != [] {
      var j := Join(parts, sep);
      assert pre + (j + sep + last) == pre + j + sep + last;
    }
  }

  /** Every part appears in the joined string. */
  lemma {:induction false} JoinContainsPart(parts: seq<string>, sep: string, i: nat)
    requires i < |parts|
    ensures Contains(Join(parts, sep), parts[i])
  {
    var j := Join(parts, sep);
    if |parts| == 1 {
      assert OccursAt(j, parts[i], 0);
    } else if i == 0 {
      assert j == parts[0] + (sep + Join(parts[1..], sep));
      assert OccursAt(j, parts[0], 0);
    } else {
      JoinContainsPart(parts[1..], sep, i - 1);
      var tail := Join(parts[1..], sep);
      var k :| 0 <= k <= |tail| && OccursAt(tail, parts[i], k);
      var off := |parts[0] + sep|;
      assert j == (parts[0] + sep) + tail;
      assert j[off + k..off + k + |parts[i]|] == tail[k..k + |parts[i]|];
      assert OccursAt(j, parts[i], off + k);
    }
  }

  /** No character of `s` is in `seps`. */
  predicate FreeOf(s: string, seps: set<char>) {
    forall c :: c in s ==> c !in seps
  }

  /** A concatenation avoids the separators when both halves do. */
  lemma FreeOfConcat(a: string, b: string, seps: set<char>)
    requires FreeOf(a, seps) && FreeOf(b, seps)
    ensures FreeOf(a + b, seps)
  {
    forall c | c in a + b ensures c !in seps {
      var i :| 0 <= i < |a + b| && (a + b)[i] == c;
      if i < |a| { assert a[i] == c; } else { assert b[i - |a|] == c; }
    }
  }

  /** What occurs in a part occurs in the whole. */
  lemma ContainsTrans(a: string, b: string, c: string)
    requires Contains(a, b) && Contains(b, c)
    ensures Contains(a, c)
  {
    var i :| 0 <= i <= |a| && OccursAt(a, b, i);
    var j :| 0 <= j <= |b| && OccursAt(b, c, j);
    forall k | 0 <= k < |c| ensures a[i + j + k] == c[k] {
      assert b[j..j + |c|][k] == c[k] && a[i..i + |b|][j + k] == b[j + k];
    }
    assert a[i + j..i + j + |c|] == c;
    assert OccursAt(a, c, i + j);
  }

  /** A string occurs in itself after any prefix and before any suffix. */
  lemma ContainsInside(pre: string, mid: string, post: string)
    ensures Contains(pre + mid + post, mid)
  {
    assert (pre + mid + post)[|pre|..|pre| + |mid|] == mid;
    assert OccursAt(pre + mid + post, mid, |pre|);
  }

  /** `s.split(c)` generalised to a set of one-character separators: the
      pieces between consecutive separator characters, always at least one. */
  function SplitOn(s: string, seps: set<char>): (r: seq<string>)
    ensures |r| >= 1
    ensures forall p :: p in r ==> FreeOf(p, seps)
    decreases |s|
  {
    if |s| == 0 then [""]
    else
      var rest := SplitOn(s[1..], seps);
      assert rest[0] in rest && forall p :: p in rest[1..] ==> p in rest;
      if s[0] in seps then [""] + rest
      else [[s[0]] + rest[0]] + rest[1..]
  }

  /** The first piece of a split is a prefix of the string that ends at
      its end or at a separator. */
  lemma {:induction false} FirstPieceEnds(s: string, seps: set<char>)
    ensures SplitOn(s, seps)[0] <= s
    ensures |SplitOn(s, seps)[0]| == |s| || s[|SplitOn(s, seps)[0]|] in seps
    decreases |s|
  {
    if |s| > 0 && s[0] !in seps {
      FirstPieceEnds(s[1..], seps);
      var p := SplitOn(s[1..], seps)[0];
      assert SplitOn(s, seps)[0] == [s[0]] + p;
      assert s == [s[0]] + s[1..];
    }
  }

  /** An occurrence in a suffix is an occurrence in the whole string,
      shifted by the suffix's start. */
  lemma OccursInSuffix(s: string, sub: string, k: nat, i: int)
    requires k <= |s|
    ensures OccursAt(s[k..], sub, i) <==> 0 <= i && OccursAt(s, sub, k + i)
  {
    if 0 <= i && k + i + |sub| <= |s| {
      assert s[k..][i..i + |sub|] == s[k + i..k + i + |sub|];
    }
  }

  /** A separator-free prefix is glued onto the first piece. */
  lemma {:induction false} SplitOnFreePrefix(a: string, b: string, seps: set<char>)
    requires FreeOf(a, seps)
    ensures SplitOn(a + b, seps) == [a + SplitOn(b, seps)[0]] + SplitOn(b, seps)[1..]
    decreases |a|
  {
    var sb := SplitOn(b, seps);
    if |a| > 0 {
      assert (a + b)[1..] == a[1..] + b;
      assert (a + b)[0] == a[0] && a[0] in a;
      assert forall x :: x in a[1..] ==> x in a;
      SplitOnFreePrefix(a[1..], b, seps);
      var rest := SplitOn(a[1..] + b, seps);
      assert rest[0] == a[1..] + sb[0] && rest[1..] == sb[1..];
      assert [a[0]] + (a[1..] + sb[0]) == a + sb[0];
    } else {
      assert a + b == b && a + sb[0] == sb[0];
      assert sb == [sb[0]] + sb[1..];
    }
  }

  /** A leading separator splits off an empty first piece. */
  lemma SplitOnLeadingSep(c: char, t: string, seps: set<char>)
    requires c in seps
    ensures SplitOn([c] + t, seps) == [""] + SplitOn(t, seps)
  {
    assert ([c] + t)[1..] == t;
  }

  /** Splitting on a separator undoes joining with it, provided no part
      holds a separator character. */
  lemma {:induction false} SplitJoin(parts: seq<string>, c: char, seps: set<char>)
    requires |parts| >= 1 && c in seps
    requires forall p :: p in parts ==> FreeOf(p, seps)
    ensures SplitOn(Join(parts, [c]), seps) == parts
  {
    var head := parts[0];
    assert head in parts;
    if |parts| == 1 {
      SplitOnFreePrefix(head, "", seps);
      assert head + "" == head;
    } else {
      var rest := parts[1..];
      assert forall p :: p in rest ==> p in parts;
      SplitJoin(rest, c, seps);
      SplitJoinStep(head, rest, c, seps);
      assert parts == [head] + rest;
    }
  }

  /** The inductive step of `SplitJoin`: a separator-free part in front. */
  lemma SplitJoinStep(head: string, rest: seq<string>, c: char, seps: set<char>)
    requires |rest| >= 1 && c in seps && FreeOf(head, seps)
    requires SplitOn(Join(rest, [c]), seps) == rest
    ensures SplitOn(Join([head] + rest, [c]), seps) == [head] + rest
  {
    var tail := Join(rest, [c]);
    var after := [c] + tail;
    assert ([head] + rest)[1..] == rest;
    assert Join([head] + rest, [c]) == head + after;
    SplitOnLeadingSep(c, tail, seps);
    SplitOnFreePrefix(head, after, seps);
    assert head + "" == head;
  }

  /** Joining the pieces of a split with the one separator gives back the
      string. */
  lemma {:induction false} JoinSplit(s: string, c: char)
    ensures Join(SplitOn(s, {c}), [c]) == s
    decreases |s|
  {
    if |s| > 0 {
      var rest := SplitOn(s[1..], {c});
      JoinSplit(s[1..], c);
      if s[0] == c {
        assert s == [c] + s[1..];
      } else {
        var r := [[s[0]] + rest[0]] + rest[1..];
        if |rest| == 1 {
          assert s == [s[0]] + s[1..];
        } else {
          assert r[1..] == rest[1..];
          assert rest == [rest[0]] + rest[1..];
          assert Join(rest, [c]) == rest[0] + [c] + Join(rest[1..], [c]);
          assert s == [s[0]] + s[1..];
        }
      }
    }
  }

  /** The characters JavaScript's `String.prototype.trim` removes: WhiteSpace
      and LineTerminator of ECMA-262. */
  predicate IsWhitespace(c: char) {
    c == '\t' || c == '\n' || c == '\U{000B}' || c == '\U{000C}' || c == '\r' || c == ' '
    || c == '\U{00A0}' || c == '\U{FEFF}' || c == '\U{1680}'
    || ('\U{2000}' <= c <= '\U{200A}')
    || c == '\U{2028}' || c == '\U{2029}' || c == '\U{202F}' || c == '\U{205F}' || c == '\U{3000}'
  }

  /** The characters at which a regular expression with the `m` flag ends a
      line (and which `.` does not match). */
  predicate IsLineTerminator(c: char) {
    c == '\n' || c == '\r' || c == '\U{2028}' || c == '\U{2029}'
  }

  const LineTerminators: set<char> := {'\n', '\r', '\U{2028}', '\U{2029}'}

  /** The lines of `s` as `^` and `$` see them under the `m` flag. */
  function Lines(s: string): (r: seq<string>)
    ensures |r| >= 1
    ensures forall l :: l in r ==> FreeOf(l, LineTerminators)
  {
    SplitOn(s, LineTerminators)
  }

  /** A string without line terminators is a single line. */
  lemma {:induction false} SingleLine(s: string)
    requires FreeOf(s, LineTerminators)
    ensures Lines(s) == [s]
    decreases |s|
  {
    if |s| > 0 {
      assert FreeOf(s[1..], LineTerminators) by {
        forall c | c in s[1..] ensures c !in LineTerminators {
          assert c in s;
        }
      }
      SingleLine(s[1..]);
      assert s == [s[0]] + s[1..];
    }
  }

  /** Every character of `s` from index `lo` up to `hi` is whitespace. */
  predicate WhitespaceBetween(s: string, lo: int, hi: int) {
    forall k :: lo <= k < hi && 0 <= k < |s| ==> IsWhitespace(s[k])
  }

  /** The end of the whitespace run that starts at `i`. */
  function RunEnd(s: string, i: nat): (j: nat)
    requires i <= |s|
    ensures i <= j <= |s|
    ensures WhitespaceBetween(s, i, j)
    ensures j == |s| || !IsWhitespace(s[j])
    decreases |s| - i
  {
    if i < |s| && IsWhitespace(s[i]) then RunEnd(s, i + 1) else i
  }

  /** The start of the whitespace run that ends at `j`, not going below `lo`. */
  function RunStart(s: string, lo: nat, j: nat): (k: nat)
    requires lo <= j <= |s|
    ensures lo <= k <= j
    ensures WhitespaceBetween(s, k, j)
    ensures k == lo || !IsWhitespace(s[k - 1])
    decreases j
  {
    if j > lo && IsWhitespace(s[j - 1]) then RunStart(s, lo, j - 1) else j
  }

  /** `s.trim()`: `s` without its leading and trailing whitespace. */
  function Trim(s: string): (r: string)
    ensures exists i :: OccursAt(s, r, i) && WhitespaceBetween(s, 0, i) && WhitespaceBetween(s, i + |r|, |s|)
    ensures r == [] || (!IsWhitespace(r[0]) && !IsWhitespace(r[|r| - 1]))
  {
    var a := RunEnd(s, 0);
    var b := RunStart(s, a, |s|);
    assert OccursAt(s, s[a..b], a);
    s[a..b]
  }

  /** Trimming leaves a string alone when it neither starts nor ends with
      whitespace. */
  lemma TrimUnchanged(s: string)
    requires s != [] && !IsWhitespace(s[0]) && !IsWhitespace(s[|s| - 1])
    ensures Trim(s) == s
  {
    assert s[0..|s|] == s;
  }

  function LowerChar(c: char): char {
    if 'A' <= c <= 'Z' then (c as int - 'A' as int + 'a' as int) as char else c
  }

  /** `s.toLowerCase()` on the ASCII letters. */
  function ToLower(s: string): (r: string)
    ensures |r| == |s|
    ensures forall i :: 0 <= i < |s| ==> r[i] == LowerChar(s[i])
  {
    seq(|s|, i requires 0 <= i < |s| => LowerChar(s[i]))
  }
}
