/** String helpers with the meaning JavaScript gives them: `startsWith`, `indexOf`, `includes`,
    `Array.prototype.join` and `String.prototype.split` on a non-empty separator. */
module Text {
  import opened Wrappers

  predicate StartsWith(s: string, p: string) {
    |p| <= |s| && s[..|p|] == p
  }

  /** The first index at or after `i` where `p` occurs in `s`. */
  function IndexFrom(s: string, p: string, i: nat): (r: Option<nat>)
    requires i <= |s|
    ensures r.Some? ==> i <= r.value && r.value + |p| <= |s| && StartsWith(s[r.value..], p)
    ensures r.Some? ==> forall j :: i <= j < r.value ==> !StartsWith(s[j..], p)
    ensures r.None? ==> forall j :: i <= j <= |s| ==> !StartsWith(s[j..], p)
    decreases |s| - i
  {
    if StartsWith(s[i..], p) then Some(i)
    else if i == |s| then None
    else IndexFrom(s, p, i + 1)
  }

  /** `s.indexOf(p)`, with `None` for -1. */
  function IndexOf(s: string, p: string): Option<nat> {
    IndexFrom(s, p, 0)
  }

  /** `s.includes(p)`. */
  predicate Contains(s: string, p: string) {
    IndexOf(s, p).Some?
  }

  /** A character that does not occur in `s` rules out every pattern it starts. */
  lemma AbsentFirstChar(s: string, p: string)
    requires |p| > 0 && p[0] !in s
    ensures IndexOf(s, p) == None
  {
    forall j | 0 <= j < |s|
      ensures !StartsWith(s[j..], p)
    {
      assert s[j..][0] == s[j];
      assert s[j] in s;
    }
  }

  /** `xs.join(sep)`. */
  function Join(xs: seq<string>, sep: string): string {
    if |xs| == 0 then ""
    else if |xs| == 1 then xs[0]
    else xs[0] + sep + Join(xs[1..], sep)
  }

  /** `s.split(sep)` for a non-empty `sep`. */
  function Split(s: string, sep: string): (r: seq<string>)
    requires |sep| > 0
    ensures |r| > 0
    decreases |s|
  {
    match IndexOf(s, sep)
    case None => [s]
    case Some(i) => [s[..i]] + Split(s[i + |sep|..], sep)
  }

  /** `x` followed by `sep` holds no earlier occurrence of `sep`: `x` is one field of a split. */
  predicate SepFree(x: string, sep: string) {
    forall j :: 0 <= j < |x| ==> !StartsWith((x + sep)[j..], sep)
  }

  lemma SepFreeFirst(x: string, sep: string, rest: string)
    requires |sep| > 0 && SepFree(x, sep)
    ensures IndexOf(x + sep + rest, sep) == Some(|x|)
  {
    var s := x + sep + rest;
    assert s[|x|..][..|sep|] == sep;
    forall j | 0 <= j < |x|
      ensures !StartsWith(s[j..], sep)
    {
      assert s[j..][..|sep|] == (x + sep)[j..][..|sep|];
    }
  }

  lemma SepFreeAbsent(x: string, sep: string)
    requires |sep| > 0 && SepFree(x, sep)
    ensures IndexOf(x, sep) == None
  {
    forall j | 0 <= j <= |x|
      ensures !StartsWith(x[j..], sep)
    {
      if j + |sep| <= |x| {
        assert x[j..][..|sep|] == (x + sep)[j..][..|sep|];
      }
    }
  }

  /** Splitting a join gives the fields back when no field holds the separator. */
  lemma {:induction false} SplitJoin(xs: seq<string>, sep: string)
    requires |sep| > 0 && |xs| > 0
    requires forall i :: 0 <= i < |xs| ==> SepFree(xs[i], sep)
    ensures Split(Join(xs, sep), sep) == xs
  {
    if |xs| == 1 {
      SepFreeAbsent(xs[0], sep);
    } else {
      var rest := Join(xs[1..], sep);
      SepFreeFirst(xs[0], sep, rest);
      var s := xs[0] + sep + rest;
      assert s[..|xs[0]|] == xs[0];
      assert s[|xs[0]| + |sep|..] == rest;
      SplitJoin(xs[1..], sep);
      assert [xs[0]] + xs[1..] == xs;
    }
  }

  /** The two host line terminators never occur early in a field without a line feed. */
  lemma NoLineFeedSepFree(x: string, eol: string)
    requires eol == "\n" || eol == "\r\n"
    requires '\n' !in x
    ensures SepFree(x, eol)
  {
    forall j | 0 <= j < |x|
      ensures !StartsWith((x + eol)[j..], eol)
    {
      var t := x + eol;
      var k := j + |eol| - 1;
      assert t[j..][|eol| - 1] == t[k];
      if k < |x| {
        assert t[k] == x[k];
        assert x[k] in x;
      } else {
        assert t[k] == eol[0];
      }
    }
  }
}
