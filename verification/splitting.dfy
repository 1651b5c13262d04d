/** Splitting a string at a separator, leftmost occurrence first, and joining the parts again. */
module Splitting {
  import opened Base

  predicate OccursAt(s: string, sep: string, i: nat) {
    i + |sep| <= |s| && s[i..i + |sep|] == sep
  }

  predicate Contains(s: string, sep: string) {
    exists i: nat | i <= |s| :: OccursAt(s, sep, i)
  }

  /** The leftmost occurrence of `sep`. */
  function Find(s: string, sep: string): (r: Option<nat>)
    ensures r.Some? ==> OccursAt(s, sep, r.value) && forall j: nat | j < r.value :: !OccursAt(s, sep, j)
    ensures r.None? ==> forall j: nat :: !OccursAt(s, sep, j)
    decreases |s|
  {
    FindStep(s, sep);
    if OccursAt(s, sep, 0) then Some(0)
    else if s == [] then None
    else
      var r := Find(s[1..], sep);
      if r.None? then None else Some(r.value + 1)
  }

  lemma FindStep(s: string, sep: string)
    ensures s != [] ==> forall j: nat :: OccursAt(s, sep, j + 1) <==> OccursAt(s[1..], sep, j)
    ensures s != [] ==> forall j: nat | j > 0 :: OccursAt(s, sep, j) ==> OccursAt(s[1..], sep, j - 1)
    ensures s == [] ==> forall j: nat | OccursAt(s, sep, j) :: j == 0
  {
    if s != [] {
      forall j: nat ensures OccursAt(s, sep, j + 1) <==> OccursAt(s[1..], sep, j) {
        if j + 1 + |sep| <= |s| {
          var a, b := s[j + 1..j + 1 + |sep|], s[1..][j..j + |sep|];
          assert |a| == |b| && forall k | 0 <= k < |a| :: a[k] == b[k];
        }
      }
      forall j: nat | j > 0 ensures OccursAt(s, sep, j) ==> OccursAt(s[1..], sep, j - 1) {
        assert OccursAt(s, sep, (j - 1) + 1) <==> OccursAt(s[1..], sep, j - 1);
      }
    }
  }

  function Split(s: string, sep: string): (parts: seq<string>)
    requires sep != []
    ensures parts != []
    decreases |s|
  {
    var r := Find(s, sep);
    if r.None? then [s] else [s[..r.value]] + Split(s[r.value + |sep|..], sep)
  }

  function Join(parts: seq<string>, sep: string): string
    requires parts != []
    decreases |parts|
  {
    if |parts| == 1 then parts[0] else parts[0] + sep + Join(parts[1..], sep)
  }

  /** Joining what was split gives the string back. */
  lemma {:induction false} JoinSplit(s: string, sep: string)
    requires sep != []
    ensures Join(Split(s, sep), sep) == s
    decreases |s|
  {
    hide OccursAt;
    var r := Find(s, sep);
    if r.Some? {
      FoundSplits(s, sep, r.value);
      var rest := s[r.value + |sep|..];
      JoinSplit(rest, sep);
      JoinMore(s[..r.value], Split(rest, sep), sep);
    }
  }

  lemma FoundSplits(s: string, sep: string, i: nat)
    requires OccursAt(s, sep, i)
    ensures i + |sep| <= |s| && s == s[..i] + sep + s[i + |sep|..]
  {
    assert s[i..i + |sep|] == sep;
  }

  lemma JoinMore(first: string, rest: seq<string>, sep: string)
    requires rest != []
    ensures Join([first] + rest, sep) == first + sep + Join(rest, sep)
  {
    assert ([first] + rest)[1..] == rest;
  }

  /** The separator is found first right behind `p`. */
  predicate EndsAt(p: string, sep: string) {
    Find(p + sep, sep) == Some(|p|)
  }

  lemma SameOccurrences(p: string, sep: string, t: string, j: nat)
    requires j <= |p|
    ensures OccursAt(p + sep + t, sep, j) <==> OccursAt(p + sep, sep, j)
  {
    assert (p + sep + t)[j..j + |sep|] == (p + sep)[j..j + |sep|];
  }

  lemma FindFirstSeparator(p: string, sep: string, t: string)
    requires sep != []
    ensures Find(p + sep + t, sep) == Some(|p|) <==> EndsAt(p, sep)
    ensures Find(p + sep + t, sep).Some? && Find(p + sep + t, sep).value <= |p|
  {
    assert (p + sep)[|p|..|p| + |sep|] == sep;
    assert OccursAt(p + sep, sep, |p|);
    forall j: nat | j <= |p| ensures OccursAt(p + sep + t, sep, j) <==> OccursAt(p + sep, sep, j) {
      SameOccurrences(p, sep, t, j);
    }
  }

  /** Each part but the last is found again, and the last one has no separator in it. */
  ghost predicate Separable(parts: seq<string>, sep: string)
    requires parts != []
  {
    && (forall i | 0 <= i < |parts| - 1 :: EndsAt(parts[i], sep))
    && !Contains(parts[|parts| - 1], sep)
  }

  lemma ContainsIsFound(s: string, sep: string)
    ensures Contains(s, sep) <==> Find(s, sep).Some?
  {
    var r := Find(s, sep);
    if r.Some? {
      assert r.value <= |s| && OccursAt(s, sep, r.value);
    }
  }

  /** Splitting gives back exactly the separable parts. */
  lemma {:induction false} SplitJoin(parts: seq<string>, sep: string)
    requires parts != [] && sep != []
    ensures Split(Join(parts, sep), sep) == parts <==> Separable(parts, sep)
    decreases |parts|
  {
    var p := parts[0];
    if |parts| == 1 {
      ContainsIsFound(p, sep);
      if Find(p, sep).Some? {
        assert |Split(p, sep)| >= 2;
      }
    } else {
      var rest := parts[1..];
      var t := Join(rest, sep);
      var text := p + sep + t;
      SplitJoin(rest, sep);
      FindFirstSeparator(p, sep, t);
      SeparableTail(parts, sep);
      assert parts == [p] + rest;
      if EndsAt(p, sep) {
        assert text[..|p|] == p && text[|p| + |sep|..] == t;
        assert Split(text, sep) == [p] + Split(t, sep);
      } else {
        assert |Split(text, sep)[0]| < |p|;
      }
    }
  }

  lemma SeparableTail(parts: seq<string>, sep: string)
    requires |parts| > 1
    ensures Separable(parts, sep) <==> EndsAt(parts[0], sep) && Separable(parts[1..], sep)
  {
    var rest := parts[1..];
    assert forall i | 0 <= i < |rest| :: rest[i] == parts[i + 1];
    if EndsAt(parts[0], sep) && Separable(rest, sep) {
      forall i | 0 <= i < |parts| - 1 ensures EndsAt(parts[i], sep) {
        if i > 0 {
          assert EndsAt(rest[i - 1], sep);
        }
      }
    }
  }

  /** Splitting at one character gives one part more than the character occurs. */
  lemma {:induction false} SplitCounts(s: string, c: char)
    ensures |Split(s, [c])| == Count(s, c) + 1
    decreases |s|
  {
    hide OccursAt, Find, Count;
    FindsFirst(s, c);
    var r := Find(s, [c]);
    if r.None? {
      CountNone(s, c);
    } else {
      var i := r.value;
      var rest := s[i + 1..];
      SplitCounts(rest, c);
      CountAround(s, c, i);
    }
  }

  /** A single character is found where it occurs first. */
  lemma FindsFirst(s: string, c: char)
    ensures var r := Find(s, [c]);
            && (r.None? ==> c !in s)
            && (r.Some? ==> r.value < |s| && s[r.value] == c && c !in s[..r.value])
  {
    hide Find, OccursAt;
    forall i: nat ensures OccursAt(s, [c], i) <==> i < |s| && s[i] == c {
      CharAt(s, c, i);
    }
  }

  lemma CharAt(s: string, c: char, i: nat)
    ensures OccursAt(s, [c], i) <==> i < |s| && s[i] == c
  {
    if i < |s| {
      assert s[i..i + 1] == [s[i]];
    }
  }

  lemma CountAround(s: string, c: char, i: nat)
    requires i < |s| && s[i] == c && c !in s[..i]
    ensures Count(s, c) == 1 + Count(s[i + 1..], c)
  {
    var rest := s[i + 1..];
    CountNone(s[..i], c);
    assert s == s[..i] + ([c] + rest);
    CountConcat(s[..i], [c] + rest, c);
    CountConcat([c], rest, c);
    assert [c][..0] == [] && Count([c], c) == 1;
  }

  lemma {:induction false} CountNone(s: string, c: char)
    requires c !in s
    ensures Count(s, c) == 0
    decreases |s|
  {
    if s != [] {
      CountNone(s[..|s| - 1], c);
    }
  }
}
