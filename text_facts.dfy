/** Facts about the string helpers of `PyText` that the page properties
    rest on: where the pieces of a join sit, and how split and strip undo
    a join. */
module TextFacts {
  import opened PyText

  /** A join starts with its first element. */
  lemma JoinFirst(sep: string, xs: seq<string>)
    requires xs != []
    ensures StartsWith(Join(sep, xs), xs[0])
  {
    if |xs| > 1 {
      assert Join(sep, xs) == xs[0] + (sep + Join(sep, xs[1..]));
    }
  }

  /** A join ends with its last element. */
  lemma {:induction false} JoinLast(sep: string, xs: seq<string>)
    requires xs != []
    ensures EndsWith(Join(sep, xs), xs[|xs| - 1])
    decreases |xs|
  {
    if |xs| > 1 {
      JoinLast(sep, xs[1..]);
      var j := Join(sep, xs);
      var rest := Join(sep, xs[1..]);
      assert j == (xs[0] + sep) + rest;
      assert j[|j| - |rest|..] == rest;
    }
  }

  /** Every element of a join sits between some text before it and some after it. */
  lemma {:induction false} JoinAround(sep: string, xs: seq<string>, i: nat) returns (before: string, after: string)
    requires i < |xs|
    ensures Join(sep, xs) == before + xs[i] + after
    decreases |xs|
  {
    if |xs| == 1 {
      before, after := "", "";
    } else if i == 0 {
      before, after := "", sep + Join(sep, xs[1..]);
    } else {
      var b, a := JoinAround(sep, xs[1..], i - 1);
      before, after := xs[0] + sep + b, a;
    }
  }

  /** `x in before + x + after`. */
  lemma {:induction false} SubstringMiddle(before: string, x: string, after: string)
    ensures IsSubstring(x, before + x + after)
    decreases |before|
  {
    var s := before + x + after;
    if before == [] {
      assert s[..|x|] == x;
    } else {
      SubstringMiddle(before[1..], x, after);
      assert s[1..] == before[1..] + x + after;
    }
  }

  /** Every element of a join is a substring of it. */
  lemma JoinMember(sep: string, xs: seq<string>, x: string)
    requires x in xs
    ensures IsSubstring(x, Join(sep, xs))
  {
    var i :| 0 <= i < |xs| && xs[i] == x;
    var before, after := JoinAround(sep, xs, i);
    SubstringMiddle(before, x, after);
  }

  /** Splitting at the first separator. */
  lemma SplitAt(a: string, b: string, c: char)
    requires c !in a
    ensures Split(a + [c] + b, c) == [a] + Split(b, c)
  {
    var s := a + [c] + b;
    assert s[|a|] == c;
    assert s[..|a|] == a;
    assert s[|a| + 1..] == b;
  }

  /** A string without the separator splits into itself. */
  lemma SplitNone(s: string, c: char)
    requires c !in s
    ensures Split(s, c) == [s]
  {
  }

  predicate AllSpaces(sp: string) {
    forall i :: 0 <= i < |sp| ==> InClass(sp[i], Spaces)
  }

  /** Left-stripping removes a run of spaces and stops at the first other character. */
  lemma {:induction false} TrimSpaces(sp: string, t: string)
    requires AllSpaces(sp)
    requires t == [] || !InClass(t[0], Spaces)
    ensures TrimLeft(sp + t, Spaces) == t
    decreases |sp|
  {
    if sp != [] {
      assert (sp + t)[1..] == sp[1..] + t;
      TrimSpaces(sp[1..], t);
    } else {
      assert sp + t == t;
    }
  }

  /** Stripping a run of spaces in front of a stripped string gives that string. */
  lemma StripPadded(sp: string, t: string)
    requires AllSpaces(sp)
    requires t == [] || (!InClass(t[0], Spaces) && !InClass(t[|t| - 1], Spaces))
    ensures Strip(sp + t) == t
  {
    TrimSpaces(sp, t);
  }
}
