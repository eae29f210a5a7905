/** The Node.js dependency collector, which exists twice with the same body:
    lib/config-builder/dependencies/node.js (`extract(compute)` reads
    `compute.code`) and lib/workspace/code/dependencies/builders/node.js
    (`extract(code)`). Every `require('<specifier>')` of the code adds the
    package the specifier belongs to to an insertion-ordered set. */
module NodeDependencies {
  import opened Wrappers
  import opened Strings
  import opened OrderedSets
  import opened Descriptors

  /** `_extractRootDependency(dep)`: the first '/'-segment, followed by the
      second when the first contains '@' (a scoped package). */
  function RootDependency(dep: string): string {
    var parts := SplitOn(dep, {'/'});
    if |parts| > 1 && Contains(parts[0], "@") then parts[0] + "/" + parts[1] else parts[0]
  }

  /** The root of a specifier is its first segment, and the second one too
      when the first names a scope; whatever follows is dropped. */
  lemma RootOfSegments(first: string, second: string, rest: string)
    requires '/' !in first && '/' !in second
    requires rest == [] || rest[0] == '/'
    ensures RootDependency(first + "/" + second + rest)
            == if Contains(first, "@") then first + "/" + second else first
  {
    var seps := {'/'};
    assert FreeOf(first, seps) && FreeOf(second, seps);
    var tail := SplitOn(rest, seps);
    assert tail[0] == "" by {
      if rest != [] {
        assert rest == [rest[0]] + rest[1..];
        SplitOnLeadingSep(rest[0], rest[1..], seps);
      }
    }
    SplitOnFreePrefix(second, rest, seps);
    assert second + "" == second;
    SplitOnLeadingSep('/', second + rest, seps);
    SplitOnFreePrefix(first, "/" + (second + rest), seps);
    assert first + "" == first;
    var parts := SplitOn(first + ("/" + (second + rest)), seps);
    assert |parts| > 1 && parts[0] == first && parts[1] == second;
    assert first + "/" + second + rest == first + ("/" + (second + rest));
  }

  /** A specifier without '/' is its own root. */
  lemma RootOfPlain(dep: string)
    requires '/' !in dep
    ensures RootDependency(dep) == dep
  {
    SplitOnFreePrefix(dep, "", {'/'});
    assert dep + "" == dep;
  }

  /** The text that opens a `require` call, and the text that closes it. */
  const RequireOpen := "require('"
  const RequireClose := "')"

  /** `/require\('(.*)'\)/gm` on one line: the first "require('" of the
      line, then the greedy group up to the line's last "')" after it. */
  function RequireSpecifier(line: string): Option<string> {
    match IndexOf(line, RequireOpen)
    case None => None
    case Some(p) =>
      var rest := line[p + 9..];
      match LastIndexOf(rest, RequireClose)
      case None => None
      case Some(j) => Some(rest[..j])
  }

  /** A line yields a specifier exactly when a "')" follows its first
      "require('". */
  lemma RequireSpecifierWhen(line: string)
    ensures RequireSpecifier(line).Some? <==>
      Contains(line, RequireOpen) && Contains(line[IndexOf(line, RequireOpen).value + 9..], RequireClose)
  {
  }

  /** The specifier is everything between the first "require('" and the
      last "')" after it, so the line reads "require('<specifier>')" from
      the first "require('" on and holds no "')" after it. */
  lemma RequireSpecifierShape(line: string)
    requires RequireSpecifier(line).Some?
    ensures var p := IndexOf(line, RequireOpen).value;
      var d := RequireSpecifier(line).value;
      && OccursAt(line, RequireOpen + d + RequireClose, p)
      && forall j :: p + 9 + |d| < j <= |line| ==> !OccursAt(line, RequireClose, j)
  {
    RequireSpecifierCall(line);
    RequireSpecifierLastClose(line);
  }

  /** The call text "require('<specifier>')" stands at the first "require('". */
  lemma RequireSpecifierCall(line: string)
    requires RequireSpecifier(line).Some?
    ensures OccursAt(line, RequireOpen + RequireSpecifier(line).value + RequireClose,
                     IndexOf(line, RequireOpen).value)
  {
    var p := IndexOf(line, RequireOpen).value;
    var rest := line[p + 9..];
    var j := LastIndexOf(rest, RequireClose).value;
    var d := rest[..j];
    assert OccursAt(rest, d, 0);
    OccursInSuffix(line, d, p + 9, 0);
    OccursInSuffix(line, RequireClose, p + 9, j);
    CallAt(line, p, d);
  }

  /** "require('", a specifier and "')" in a row form the call text. */
  lemma CallAt(line: string, p: int, d: string)
    requires OccursAt(line, RequireOpen, p) && OccursAt(line, d, p + 9)
    requires OccursAt(line, RequireClose, p + 9 + |d|)
    ensures OccursAt(line, RequireOpen + d + RequireClose, p)
  {
    OccursConcat(line, RequireOpen, d, p);
    OccursConcat(line, RequireOpen + d, RequireClose, p);
  }

  /** No "')" follows the one that closes the specifier. */
  lemma RequireSpecifierLastClose(line: string)
    requires RequireSpecifier(line).Some?
    ensures var p := IndexOf(line, RequireOpen).value;
      forall k :: p + 9 + |RequireSpecifier(line).value| < k <= |line| ==> !OccursAt(line, RequireClose, k)
  {
    var p := IndexOf(line, RequireOpen).value;
    var rest := line[p + 9..];
    var j := LastIndexOf(rest, RequireClose).value;
    forall k | p + 9 + j < k <= |line| ensures !OccursAt(line, RequireClose, k) {
      OccursInSuffix(line, RequireClose, p + 9, k - p - 9);
    }
  }

  /** The root one line contributes: that of its `require`, if any. */
  function LineRoots(line: string): (r: seq<string>)
    ensures |r| <= 1
    ensures r != [] <==> RequireSpecifier(line).Some?
  {
    match RequireSpecifier(line)
    case Some(d) => [RootDependency(d)]
    case None => []
  }

  /** The roots of all the `require`s in the lines, in order. */
  function Roots(lines: seq<string>): seq<string> {
    if |lines| == 0 then []
    else
      var last := |lines| - 1;
      Roots(lines[..last]) + LineRoots(lines[last])
  }

  /** The roots of a code text: one per line that holds a `require`, in
      line order. */
  lemma RootsFromLines(lines: seq<string>)
    ensures |Roots(lines)| <= |lines|
    ensures forall r :: r in Roots(lines) ==>
      exists i :: 0 <= i < |lines| && RequireSpecifier(lines[i]).Some?
                  && r == RootDependency(RequireSpecifier(lines[i]).value)
    ensures forall i :: 0 <= i < |lines| && RequireSpecifier(lines[i]).Some? ==>
      Roots(lines) == Roots(lines[..i]) + [RootDependency(RequireSpecifier(lines[i]).value)] + Roots(lines[i + 1..])
    ensures forall i :: 0 <= i < |lines| && RequireSpecifier(lines[i]).None? ==>
      Roots(lines) == Roots(lines[..i]) + Roots(lines[i + 1..])
  {
    RootsSources(lines);
    forall i | 0 <= i < |lines| {
      RootsAt(lines, i);
    }
  }

  /** Every root comes from a line that holds a `require`. */
  lemma {:induction false} RootsSources(lines: seq<string>)
    ensures |Roots(lines)| <= |lines|
    ensures forall r :: r in Roots(lines) ==>
      exists i :: 0 <= i < |lines| && RequireSpecifier(lines[i]).Some?
                  && r == RootDependency(RequireSpecifier(lines[i]).value)
    decreases |lines|
  {
    if |lines| > 0 {
      var last := |lines| - 1;
      var init := lines[..last];
      RootsSources(init);
      forall r | r in Roots(lines)
        ensures exists i :: 0 <= i < |lines| && RequireSpecifier(lines[i]).Some?
                            && r == RootDependency(RequireSpecifier(lines[i]).value)
      {
        if r in Roots(init) {
          var i :| 0 <= i < |init| && RequireSpecifier(init[i]).Some?
                   && r == RootDependency(RequireSpecifier(init[i]).value);
          assert init[i] == lines[i];
        } else {
          assert r in LineRoots(lines[last]);
          assert RequireSpecifier(lines[last]).Some?;
        }
      }
    }
  }

  /** One more line adds its root, if any, at the end. */
  lemma RootsSnoc(lines: seq<string>, line: string)
    ensures Roots(lines + [line]) == Roots(lines) + LineRoots(line)
  {
    assert (lines + [line])[..|lines|] == lines;
  }

  /** The roots of two runs of lines are the roots of each, in order. */
  lemma {:induction false} RootsConcat(a: seq<string>, b: seq<string>)
    ensures Roots(a + b) == Roots(a) + Roots(b)
    decreases |b|
  {
    if |b| > 0 {
      var last := |b| - 1;
      var init := b[..last];
      assert b == init + [b[last]];
      assert a + b == (a + init) + [b[last]];
      RootsSnoc(a + init, b[last]);
      RootsSnoc(init, b[last]);
      RootsConcat(a, init);
    } else {
      assert a + b == a;
    }
  }

  /** The roots of a code text are those of the lines before any one line,
      then that line's root if it holds a `require`, then those of the lines
      after it. */
  lemma RootsAt(lines: seq<string>, i: int)
    requires 0 <= i < |lines|
    ensures Roots(lines) == Roots(lines[..i]) + LineRoots(lines[i]) + Roots(lines[i + 1..])
  {
    AroundLine(lines, i);
    RootsAround(lines[..i], lines[i], lines[i + 1..]);
  }

  /** The roots of the lines around one line and of that line, in order. */
  lemma RootsAround(before: seq<string>, line: string, after: seq<string>)
    ensures Roots((before + [line]) + after) == Roots(before) + LineRoots(line) + Roots(after)
  {
    RootsConcat(before + [line], after);
    RootsSnoc(before, line);
  }

  /** The collector: `dependencies` is the `Set`, kept as a sequence in
      insertion order. */
  class DependencyCollector {
    var dependencies: seq<string>

    predicate Valid()
      reads this
    {
      NoDuplicates(dependencies)
    }

    constructor()
      ensures dependencies == [] && Valid()
    {
      dependencies := [];
    }

    /** `extract(code)`: adds the root of every `require` in the code. */
    method Extract(code: string)
      requires Valid()
      modifies this
      ensures dependencies == AddAll(old(dependencies), Roots(Lines(code)))
      ensures Valid()
    {
      var lines := Lines(code);
      ghost var start := dependencies;
      for i := 0 to |lines|
        invariant dependencies == AddAll(start, Roots(lines[..i]))
      {
        assert lines[..i + 1][..i] == lines[..i];
        assert Roots(lines[..i + 1]) == Roots(lines[..i]) + LineRoots(lines[i]);
        var spec := RequireSpecifier(lines[i]);
        if spec.Some? {
          var root := RootDependency(spec.value);
          assert LineRoots(lines[i]) == [root];
          AddAllConcat(start, Roots(lines[..i]), [root]);
          assert AddAll(dependencies, [root]) == Add(dependencies, root);
          dependencies := Add(dependencies, root);
        } else {
          assert LineRoots(lines[i]) == [];
          assert Roots(lines[..i]) + [] == Roots(lines[..i]);
        }
      }
      assert lines[..|lines|] == lines;
    }

    /** `extract(compute)` of the configuration builder's copy. */
    method ExtractCompute(c: ComputeResource)
      requires Valid()
      modifies this
      ensures dependencies == AddAll(old(dependencies), Roots(Lines(c.code)))
      ensures Valid()
    {
      Extract(c.code);
    }

    /** `list()`: the dependencies in first-insertion order. */
    method List() returns (r: seq<string>)
      requires Valid()
      ensures r == dependencies && NoDuplicates(r)
    {
      r := dependencies;
    }
  }

  /** Extraction only adds: what was collected stays, in place, and what is
      collected is exactly the old dependencies and the code's roots. */
  lemma ExtractOnlyAdds(deps: seq<string>, code: string)
    ensures deps <= AddAll(deps, Roots(Lines(code)))
    ensures forall x :: x in AddAll(deps, Roots(Lines(code))) <==> x in deps || x in Roots(Lines(code))
  {
    AddAllExtends(deps, Roots(Lines(code)));
  }

  /** With no '(' before it, the first "require('" is the one written
      after the prefix. */
  lemma FirstRequireAfter(prefix: string, tail: string)
    requires '(' !in prefix && StartsWith(tail, RequireOpen)
    ensures IndexOf(prefix + tail, RequireOpen) == Some(|prefix|)
  {
    var line := prefix + tail;
    var p := |prefix|;
    assert line[p..p + 9] == tail[..9];
    forall i | 0 <= i < p ensures !OccursAt(line, RequireOpen, i) {
      if i + 9 <= |line| {
        if i + 7 < p {
          assert line[i + 7] == prefix[i + 7] && prefix[i + 7] in prefix;
        } else {
          assert line[i + 7] == tail[i + 7 - p] == RequireOpen[i + 7 - p];
        }
        assert line[i..i + 9][7] != '(';
      }
    }
    assert OccursAt(line, RequireOpen, p);
    var r := IndexOf(line, RequireOpen);
    assert r.Some?;
    assert !(r.value < p) && !(p < r.value);
  }

  /** With no quote after it, the last "')" is the one right after the
      specifier. */
  lemma LastCloseAfter(specifier: string, suffix: string)
    requires '\'' !in suffix
    ensures LastIndexOf(specifier + RequireClose + suffix, RequireClose) == Some(|specifier|)
  {
    var rest := specifier + RequireClose + suffix;
    var n := |specifier|;
    assert rest[n..n + 2] == RequireClose;
    forall j | n < j <= |rest| ensures !OccursAt(rest, RequireClose, j) {
      if j + 2 <= |rest| {
        if j == n + 1 {
          assert rest[j] == ')';
        } else {
          assert rest[j] == suffix[j - n - 2] && suffix[j - n - 2] in suffix;
        }
        assert rest[j..j + 2][0] != '\'';
      }
    }
    assert OccursAt(rest, RequireClose, n);
    var r := LastIndexOf(rest, RequireClose);
    assert r.Some?;
    assert !(r.value < n) && !(n < r.value);
  }

  /** A line `<prefix>require('<specifier>')<suffix>`, with no '(' before
      the `require` and no quote after it, yields that specifier, whatever
      the specifier holds. */
  lemma RequireLine(prefix: string, specifier: string, suffix: string)
    requires '(' !in prefix && '\'' !in suffix
    ensures RequireSpecifier(prefix + RequireOpen + specifier + RequireClose + suffix) == Some(specifier)
  {
    var rest := specifier + RequireClose + suffix;
    var tail := RequireOpen + rest;
    var line := prefix + tail;
    assert line == prefix + RequireOpen + specifier + RequireClose + suffix;
    assert tail[..9] == RequireOpen;
    FirstRequireAfter(prefix, tail);
    assert line[|prefix|..] == tail && tail[9..] == rest;
    LastCloseAfter(specifier, suffix);
    assert rest[..|specifier|] == specifier;
  }

  /** A `require` line adds its specifier's root after those of the lines
      before it. */
  lemma RootsStep(lines: seq<string>, k: nat, prefix: string, specifier: string, suffix: string)
    requires k < |lines| && '(' !in prefix && '\'' !in suffix
    requires lines[k] == prefix + RequireOpen + specifier + RequireClose + suffix
    ensures Roots(lines[..k + 1]) == Roots(lines[..k]) + [RootDependency(specifier)]
  {
    RequireLine(prefix, specifier, suffix);
    assert lines[..k + 1][..k] == lines[..k];
  }

  /** A scoped specifier keeps its two segments. */
  lemma ScopedRoot()
    ensures RootDependency("@foo/bar") == "@foo/bar"
  {
    RootOfSegments("@foo", "bar", "");
    assert "@foo" + "/" + "bar" + "" == "@foo/bar";
    assert OccursAt("@foo", "@", 0);
  }

  /** An unscoped specifier with a path keeps its first segment only. */
  lemma NestedRoot()
    ensures RootDependency("alpha/bravo/charlie") == "alpha"
  {
    var first, second, rest := "alpha", "bravo", "/charlie";
    assert '/' !in first && '/' !in second;
    assert first + "/" + second + rest == "alpha/bravo/charlie";
    RootOfSegments(first, second, rest);
    MissingCharExcludes(first, "@", '@');
  }

  /** The roots of the collector's unit test, line by line. */
  lemma TestLineRoots(lines: seq<string>, prefixes: seq<string>, suffixes: seq<string>)
    requires |lines| == |prefixes| == |suffixes| == 3
    requires forall k :: 0 <= k < 3 ==> '(' !in prefixes[k] && '\'' !in suffixes[k]
    requires lines[0] == prefixes[0] + RequireOpen + "@foo/bar" + RequireClose + suffixes[0]
    requires lines[1] == prefixes[1] + RequireOpen + "baz" + RequireClose + suffixes[1]
    requires lines[2] == prefixes[2] + RequireOpen + "alpha/bravo/charlie" + RequireClose + suffixes[2]
    ensures Roots(lines[..3]) == ["@foo/bar", "baz", "alpha"]
  {
    ScopedThenPlainRoots(lines, prefixes, suffixes);
    NestedRoot();
    RootsStep(lines, 2, prefixes[2], "alpha/bravo/charlie", suffixes[2]);
  }

  /** Three different roots are collected as they come. */
  lemma TestRootsDistinct(roots: seq<string>)
    requires roots == ["@foo/bar", "baz", "alpha"]
    ensures AddAll([], roots) == roots
  {
    AddAllFresh([], roots);
  }

  /** The first two lines of the collector's unit test. */
  lemma ScopedThenPlainRoots(lines: seq<string>, prefixes: seq<string>, suffixes: seq<string>)
    requires 2 <= |lines| && 2 <= |prefixes| && 2 <= |suffixes|
    requires forall k :: 0 <= k < 2 ==> '(' !in prefixes[k] && '\'' !in suffixes[k]
    requires lines[0] == prefixes[0] + RequireOpen + "@foo/bar" + RequireClose + suffixes[0]
    requires lines[1] == prefixes[1] + RequireOpen + "baz" + RequireClose + suffixes[1]
    ensures Roots(lines[..2]) == ["@foo/bar", "baz"]
  {
    assert '(' !in prefixes[0] && '\'' !in suffixes[0];
    assert '(' !in prefixes[1] && '\'' !in suffixes[1];
    TwoRequireLines(lines, prefixes[0], "@foo/bar", suffixes[0], prefixes[1], "baz", suffixes[1]);
    ScopedRoot();
    RootOfPlain("baz");
  }

  /** Two `require` lines give their two roots, in order. */
  lemma TwoRequireLines(lines: seq<string>, prefix0: string, specifier0: string, suffix0: string,
                        prefix1: string, specifier1: string, suffix1: string)
    requires 2 <= |lines| && '(' !in prefix0 && '\'' !in suffix0 && '(' !in prefix1 && '\'' !in suffix1
    requires lines[0] == prefix0 + RequireOpen + specifier0 + RequireClose + suffix0
    requires lines[1] == prefix1 + RequireOpen + specifier1 + RequireClose + suffix1
    ensures Roots(lines[..2]) == [RootDependency(specifier0), RootDependency(specifier1)]
  {
    assert lines[..0] == [];
    RootsStep(lines, 0, prefix0, specifier0, suffix0);
    RootsStep(lines, 1, prefix1, specifier1, suffix1);
  }

  /** The collector's unit test: lines that `require` '@foo/bar', 'baz'
      and 'alpha/bravo/charlie' (as `const depN = require('...');`, or with
      any other text around the call that has no '(' before it and no quote
      after it) give exactly '@foo/bar', 'baz' and 'alpha'. */
  lemma ScopedAndNestedRoots(lines: seq<string>, prefixes: seq<string>, suffixes: seq<string>)
    requires |lines| == |prefixes| == |suffixes| == 3
    requires forall k :: 0 <= k < 3 ==> '(' !in prefixes[k] && '\'' !in suffixes[k]
    requires lines[0] == prefixes[0] + RequireOpen + "@foo/bar" + RequireClose + suffixes[0]
    requires lines[1] == prefixes[1] + RequireOpen + "baz" + RequireClose + suffixes[1]
    requires lines[2] == prefixes[2] + RequireOpen + "alpha/bravo/charlie" + RequireClose + suffixes[2]
    ensures AddAll([], Roots(lines)) == ["@foo/bar", "baz", "alpha"]
  {
    TestLineRoots(lines, prefixes, suffixes);
    assert lines[..3] == lines;
    TestRootsDistinct(Roots(lines));
  }
}
