/**
 * Request URLs of the dining pages, and how they split back into their
 * path segments. The pages build URLs by plain "/"-concatenation, so the
 * segments are recoverable only when none of them holds a '/'.
 */
module RequestPath {

  /** Root of every dining-commons request. */
  const ApiRoot: string := "/api/diningcommons/"

  /** The segments of a URL, as JavaScript's `s.split("/")`. */
  function Split(s: string): (r: seq<string>)
    ensures |r| >= 1
    ensures '/' !in s ==> r == [s]
    decreases |s|
  {
    if |s| == 0 then [""]
    else if s[0] == '/' then [""] + Split(s[1..])
    else
      var rest := Split(s[1..]);
      assert '/' !in s ==> '/' !in s[1..] && [s[0]] + s[1..] == s by {
        if '/' !in s {
          forall k | 0 <= k < |s| - 1 ensures s[1..][k] != '/' { assert s[1..][k] == s[k + 1]; }
        }
      }
      [[s[0]] + rest[0]] + rest[1..]
  }

  /** The segments joined with '/', as JavaScript's `segs.join("/")`. */
  function Join(segs: seq<string>): (s: string)
    requires |segs| >= 1
  {
    if |segs| == 1 then segs[0] else segs[0] + "/" + Join(segs[1..])
  }

  /** The API root is the '/'-join of its three segments, plus a '/'. */
  lemma ApiRootIsJoin()
    ensures ApiRoot == Join(["", "api", "diningcommons"]) + "/"
  {
  }

  /** Appending a segment appends "/" and that segment to the join. */
  lemma {:induction false} JoinAppend(segs: seq<string>, x: string)
    requires |segs| >= 1
    ensures Join(segs + [x]) == Join(segs) + "/" + x
    decreases |segs|
  {
    assert (segs + [x])[1..] == segs[1..] + [x];
    if |segs| > 1 {
      JoinAppend(segs[1..], x);
    }
  }

  ghost predicate SlashFree(segs: seq<string>)
  {
    forall i :: 0 <= i < |segs| ==> '/' !in segs[i]
  }

  /** A leading '/'-free segment splits off as one piece. */
  lemma {:induction false} SplitPrefix(a: string, b: string)
    requires '/' !in a
    ensures Split(a + "/" + b) == [a] + Split(b)
    decreases |a|
  {
    if |a| == 0 {
      assert a + "/" + b == ['/'] + b;
      assert (['/'] + b)[1..] == b;
    } else {
      SplitPrefix(a[1..], b);
      assert (a + "/" + b)[1..] == a[1..] + "/" + b;
      assert [a[0]] + a[1..] == a;
    }
  }

  /** Splitting undoes joining whenever no segment holds a '/'. */
  lemma {:induction false} SplitJoin(segs: seq<string>)
    requires |segs| >= 1 && SlashFree(segs)
    ensures Split(Join(segs)) == segs
    decreases |segs|
  {
    if |segs| > 1 {
      assert SlashFree(segs[1..]) by {
        forall i | 0 <= i < |segs| - 1 ensures '/' !in segs[1..][i] {
          assert segs[1..][i] == segs[i + 1];
        }
      }
      SplitJoin(segs[1..]);
      SplitPrefix(segs[0], Join(segs[1..]));
    }
  }

  /** Joining is one-to-one on '/'-free segment lists. */
  lemma JoinInjective(s1: seq<string>, s2: seq<string>)
    requires |s1| >= 1 && |s2| >= 1 && SlashFree(s1) && SlashFree(s2)
    ensures Join(s1) == Join(s2) <==> s1 == s2
  {
    if Join(s1) == Join(s2) {
      SplitJoin(s1);
      SplitJoin(s2);
    }
  }
}
