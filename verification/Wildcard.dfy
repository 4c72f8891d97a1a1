/** Greedy wildcard matching (internal/core/core.go) is exact. */
module Wildcard {
  import opened Names

  /** What a pattern means: `*` stands for any string, every other character for itself. */
  ghost predicate Glob(pattern: string, value: string) {
    if pattern == "" then value == ""
    else if pattern[0] == '*' then exists i :: 0 <= i <= |value| && Glob(pattern[1..], value[i..])
    else value != "" && value[0] == pattern[0] && Glob(pattern[1..], value[1..])
  }

  predicate FoundAt(s: string, part: string, i: int) {
    0 <= i <= |s| - |part| && s[i..i + |part|] == part
  }

  /** strings.Index: the leftmost occurrence, or -1. */
  function Index(s: string, part: string): (r: int)
    ensures r == -1 || FoundAt(s, part, r)
    ensures forall i :: FoundAt(s, part, i) ==> 0 <= r <= i
  {
    IndexFrom(s, part, 0)
  }

  function IndexFrom(s: string, part: string, from: nat): (r: int)
    requires forall i :: FoundAt(s, part, i) ==> from <= i
    ensures r == -1 || FoundAt(s, part, r)
    ensures forall i :: FoundAt(s, part, i) ==> 0 <= r <= i
    decreases |s| - from
  {
    if from + |part| > |s| then -1 else if FoundAt(s, part, from) then from else IndexFrom(s, part, from + 1)
  }

  /** strings.Split at the stars. */
  function Split(pattern: string): (parts: seq<string>)
    ensures |parts| >= 1
  {
    if pattern == "" then [""]
    else if pattern[0] == '*' then [""] + Split(pattern[1..])
    else
      var rest := Split(pattern[1..]);
      [[pattern[0]] + rest[0]] + rest[1..]
  }

  /** The value consists of the parts in order, anything before each of them, nothing after the last. */
  ghost predicate Starred(parts: seq<string>, value: string) {
    if parts == [] then value == ""
    else exists i :: FoundAt(value, parts[0], i) && Starred(parts[1..], value[i + |parts[0]|..])
  }

  /** The first part, then the rest, each after a star. */
  ghost predicate Parted(parts: seq<string>, value: string)
    requires parts != []
  {
    HasPrefix(value, parts[0]) && Starred(parts[1..], value[|parts[0]|..])
  }

  /** What follows a star may start anywhere. */
  lemma PartedAt(parts: seq<string>, value: string, i: nat)
    requires parts != [] && i <= |value|
    ensures Parted(parts, value[i..]) <==> FoundAt(value, parts[0], i) && Starred(parts[1..], value[i + |parts[0]|..])
  {
    var n := |parts[0]|;
    if n <= |value| - i {
      assert value[i..][..n] == value[i..i + n];
      assert value[i..][n..] == value[i + n..];
    }
  }

  lemma StarThenParted(parts: seq<string>, value: string)
    requires parts != []
    ensures Starred(parts, value) <==> exists i :: 0 <= i <= |value| && Parted(parts, value[i..])
  {
    forall i | 0 <= i <= |value|
      ensures Parted(parts, value[i..]) <==> FoundAt(value, parts[0], i) && Starred(parts[1..], value[i + |parts[0]|..])
    {
      PartedAt(parts, value, i);
    }
    hide Parted;
  }

  lemma {:induction false} GlobIsParted(pattern: string, value: string)
    ensures Glob(pattern, value) <==> Parted(Split(pattern), value)
    decreases |pattern|
  {
    if pattern == "" {
    } else {
      var rest := Split(pattern[1..]);
      if pattern[0] == '*' {
        forall i | 0 <= i <= |value| ensures Glob(pattern[1..], value[i..]) <==> Parted(rest, value[i..]) {
          GlobIsParted(pattern[1..], value[i..]);
        }
        StarThenParted(rest, value);
        PartedAfterStar(rest, value);
        hide Parted, Starred;
      } else if value == "" {
        assert |Split(pattern)[0]| > 0;
        hide Starred;
      } else {
        GlobIsParted(pattern[1..], value[1..]);
        PartedAfterChar(pattern[0], rest, value);
        hide Parted, Starred;
      }
    }
  }

  lemma PartedAfterStar(parts: seq<string>, value: string)
    ensures Parted([""] + parts, value) <==> Starred(parts, value)
  {
    hide Starred;
    assert ([""] + parts)[1..] == parts && value[0..] == value;
  }

  lemma PartedAfterChar(c: char, parts: seq<string>, value: string)
    requires parts != [] && value != ""
    ensures Parted([[c] + parts[0]] + parts[1..], value) <==> value[0] == c && Parted(parts, value[1..])
  {
    hide Starred;
    var more := [[c] + parts[0]] + parts[1..];
    assert more[1..] == parts[1..];
    var n := |parts[0]|;
    if n <= |value| - 1 {
      assert value[..n + 1] == [value[0]] + value[1..][..n];
      assert value[1..][n..] == value[n + 1..];
    }
  }

  /** A star absorbs whatever is in front. */
  lemma StarAbsorbs(parts: seq<string>, value: string, k: nat)
    requires parts != [] && k <= |value| && Starred(parts, value[k..])
    ensures Starred(parts, value)
  {
    var part := parts[0];
    var i :| FoundAt(value[k..], part, i) && Starred(parts[1..], value[k..][i + |part|..]);
    assert value[k..][i..i + |part|] == value[k + i..k + i + |part|];
    assert value[k..][i + |part|..] == value[k + i + |part|..];
    assert FoundAt(value, part, k + i);
  }

  /** Before another star, the leftmost occurrence is as good as any. */
  lemma LeftmostIsBest(parts: seq<string>, value: string)
    requires |parts| >= 2
    ensures var r := Index(value, parts[0]);
            Starred(parts, value) <==> r >= 0 && Starred(parts[1..], value[r + |parts[0]|..])
  {
    var part, r := parts[0], Index(value, parts[0]);
    if Starred(parts, value) {
      var i :| FoundAt(value, part, i) && Starred(parts[1..], value[i + |part|..]);
      assert value[r + |part|..][i - r..] == value[i + |part|..];
      StarAbsorbs(parts[1..], value[r + |part|..], i - r);
    }
  }

  /** The last part must end the value. */
  lemma LastIsSuffix(part: string, value: string)
    ensures Starred([part], value) <==> HasSuffix(value, part)
  {
    if HasSuffix(value, part) {
      var i := |value| - |part|;
      assert FoundAt(value, part, i) && [part][1..] == [] && value[i + |part|..] == "";
      assert Starred([part][1..], value[i + |part|..]);
    }
    if Starred([part], value) {
      var i :| FoundAt(value, part, i) && Starred([part][1..], value[i + |part|..]);
      assert value[i + |part|..] == "";
    }
  }

  lemma {:induction false} SplitEnds(pattern: string)
    requires '*' in pattern
    ensures |Split(pattern)| >= 2
    ensures var parts := Split(pattern); HasSuffix(pattern, "*") <==> parts[|parts| - 1] == ""
    decreases |pattern|
  {
    var rest := Split(pattern[1..]);
    if '*' in pattern[1..] {
      SplitEnds(pattern[1..]);
      assert pattern[|pattern| - 1..] == pattern[1..][|pattern| - 2..];
    } else {
      WholePattern(pattern[1..]);
      if pattern[1..] != "" {
        assert pattern[|pattern| - 1] == pattern[1..][|pattern| - 2];
      }
    }
  }

  lemma {:induction false} WholePattern(pattern: string)
    requires '*' !in pattern
    ensures Split(pattern) == [pattern]
  {
    if pattern == "" {
    } else {
      WholePattern(pattern[1..]);
      assert [pattern[0]] + pattern[1..] == pattern;
    }
  }

  /** A suffix of what is left is a suffix of the whole, and the other way round when it fits. */
  lemma SuffixOfRest(value: string, done: nat, part: string)
    requires done <= |value| && |part| <= |value| - done
    ensures HasSuffix(value[done..], part) <==> HasSuffix(value, part)
  {
    assert value[done..][|value| - done - |part|..] == value[|value| - |part|..];
  }

  /** A star before an empty part is two stars in a row. */
  lemma EmptyPart(parts: seq<string>, value: string)
    requires |parts| >= 2 && parts[0] == ""
    ensures Starred(parts, value) <==> Starred(parts[1..], value)
  {
    LeftmostIsBest(parts, value);
    assert FoundAt(value, "", 0);
    assert value[0 + |""|..] == value;
  }

  /** One turn of the loop after the first: the part is skipped, or its leftmost occurrence consumed. */
  lemma Turn(parts: seq<string>, i: nat, value: string, done: nat, at: int)
    requires 1 <= i < |parts| && done <= |value| && at == Index(value[done..], parts[i])
    ensures parts[i] != "" && at < 0 ==> !Starred(parts[i..], value[done..])
    ensures i + 1 < |parts| && parts[i] == "" ==>
        (Starred(parts[i..], value[done..]) <==> Starred(parts[i + 1..], value[done..]))
    ensures i + 1 < |parts| && at >= 0 ==>
        (Starred(parts[i..], value[done..]) <==> Starred(parts[i + 1..], value[done + at + |parts[i]|..]))
    ensures i + 1 == |parts| && at >= 0 ==> (Starred(parts[i..], value[done..]) <==> HasSuffix(value, parts[i]))
  {
    var rest := value[done..];
    assert parts[i..][1..] == parts[i + 1..];
    if i + 1 < |parts| {
      LeftmostIsBest(parts[i..], rest);
      if parts[i] == "" {
        EmptyPart(parts[i..], rest);
      }
      if at >= 0 {
        assert rest[at + |parts[i]|..] == value[done + at + |parts[i]|..];
      }
    } else {
      assert parts[i..] == [parts[i]];
      LastIsSuffix(parts[i], rest);
      assert HasSuffix(rest, parts[i]) ==> FoundAt(rest, parts[i], |rest| - |parts[i]|);
      if at >= 0 {
        SuffixOfRest(value, done, parts[i]);
      }
    }
  }

  /** The first part must start the value. */
  lemma FirstTurn(pattern: string, value: string)
    requires '*' in pattern
    ensures var parts := Split(pattern);
            Glob(pattern, value) <==> HasPrefix(value, parts[0]) && Starred(parts[1..], value[|parts[0]|..])
    ensures Split(pattern)[0] != "" ==> !HasPrefix(pattern, "*")
  {
    GlobIsParted(pattern, value);
    hide Glob, Starred;
  }

  lemma AnyValue(value: string)
    ensures Glob("*", value)
  {
    assert Glob("*"[1..], value[|value|..]);
  }

  /** Without a star a pattern means itself. */
  lemma NoStar(pattern: string, value: string)
    requires '*' !in pattern
    ensures Glob(pattern, value) <==> pattern == value
  {
    GlobIsParted(pattern, value);
    WholePattern(pattern);
    hide Glob, Split;
    assert HasPrefix(value, pattern) && value[|pattern|..] == "" ==> value == pattern;
  }

  /** `wildcardMatches`: exactly the values the pattern means. */
  method WildcardMatches(pattern: string, value: string) returns (matches: bool)
    ensures matches <==> Glob(pattern, value)
  {
    hide Glob, Starred, Split;
    if pattern == "*" {
      AnyValue(value);
      return true;
    }
    if '*' !in pattern {
      NoStar(pattern, value);
      return pattern == value;
    }
    SplitEnds(pattern);
    FirstTurn(pattern, value);
    var parts := Split(pattern);
    var rest := value;
    ghost var done := 0;
    for i := 0 to |parts|
      invariant 0 <= done <= |value| && rest == value[done..]
      invariant i == 0 ==> done == 0
      invariant 1 <= i < |parts| ==> (Glob(pattern, value) <==> Starred(parts[i..], rest))
      invariant i == |parts| ==> (Glob(pattern, value) <==> HasSuffix(value, parts[|parts| - 1]))
    {
      var part := parts[i];
      if i > 0 {
        Turn(parts, i, value, done, Index(rest, part));
      }
      if part == "" {
        continue;
      }
      if i == 0 && !HasPrefix(pattern, "*") {
        if !HasPrefix(rest, part) {
          return false;
        }
        rest := rest[|part|..];
        done := |part|;
        continue;
      }
      var at := Index(rest, part);
      if at < 0 {
        return false;
      }
      rest := rest[at + |part|..];
      done := done + at + |part|;
    }
    return HasSuffix(pattern, "*") || HasSuffix(value, parts[|parts| - 1]);
  }
}
