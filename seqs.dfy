/** Two sequence shapes the source uses more than once: a `map` followed by
    a `filter` (of `null`s, or of checked items), and a chain of fallbacks
    that takes the first candidate that applies. */
module Seqs {
  import opened Wrappers

  /** Keep `f(x)` for every `x` of `s` that `f` maps to `Some`, in order. */
  function FilterMap<A, B>(s: seq<A>, f: A -> Option<B>): (r: seq<B>)
    ensures |r| <= |s|
  {
    if s == [] then []
    else (if f(s[0]).Some? then [f(s[0]).value] else []) + FilterMap(s[1..], f)
  }

  /** The positions of `s` that `f` keeps, in increasing order, each
      shifted by `base`. */
  function KeptFrom<A, B>(s: seq<A>, f: A -> Option<B>, base: nat): (ix: seq<nat>)
  {
    if s == [] then []
    else (if f(s[0]).Some? then [base] else []) + KeptFrom(s[1..], f, base + 1)
  }

  /** The positions of `s` that `f` keeps. */
  function KeptIndices<A, B>(s: seq<A>, f: A -> Option<B>): seq<nat> {
    KeptFrom(s, f, 0)
  }

  lemma {:induction false} KeptFromLength<A, B>(s: seq<A>, f: A -> Option<B>, base: nat)
    ensures |KeptFrom(s, f, base)| == |FilterMap(s, f)|
  {
    if s != [] {
      KeptFromLength(s[1..], f, base + 1);
    }
  }

  /** Kept position `k` lies in `s` and carries output `k`. */
  lemma {:induction false} KeptFromAt<A, B>(s: seq<A>, f: A -> Option<B>, base: nat, k: nat)
    requires k < |KeptFrom(s, f, base)|
    ensures |KeptFrom(s, f, base)| == |FilterMap(s, f)|
    ensures base <= KeptFrom(s, f, base)[k] < base + |s|
    ensures f(s[KeptFrom(s, f, base)[k] - base]) == Some(FilterMap(s, f)[k])
  {
    KeptFromLength(s, f, base);
    var ix, r := KeptFrom(s, f, base), FilterMap(s, f);
    var ix', r' := KeptFrom(s[1..], f, base + 1), FilterMap(s[1..], f);
    KeptFromLength(s[1..], f, base + 1);
    if f(s[0]).Some? {
      assert ix == [base] + ix' && r == [f(s[0]).value] + r';
      if k > 0 {
        assert ix[k] == ix'[k - 1] && r[k] == r'[k - 1];
        KeptFromAt(s[1..], f, base + 1, k - 1);
        assert s[ix[k] - base] == s[1..][ix'[k - 1] - (base + 1)];
      }
    } else {
      assert ix == ix' && r == r';
      KeptFromAt(s[1..], f, base + 1, k);
      assert s[ix[k] - base] == s[1..][ix'[k] - (base + 1)];
    }
  }

  lemma KeptFromValues<A, B>(s: seq<A>, f: A -> Option<B>, base: nat)
    ensures |KeptFrom(s, f, base)| == |FilterMap(s, f)|
    ensures forall k :: 0 <= k < |KeptFrom(s, f, base)| ==>
      base <= KeptFrom(s, f, base)[k] < base + |s|
      && f(s[KeptFrom(s, f, base)[k] - base]) == Some(FilterMap(s, f)[k])
  {
    KeptFromLength(s, f, base);
    forall k | 0 <= k < |KeptFrom(s, f, base)|
      ensures base <= KeptFrom(s, f, base)[k] < base + |s|
      ensures f(s[KeptFrom(s, f, base)[k] - base]) == Some(FilterMap(s, f)[k])
    {
      KeptFromAt(s, f, base, k);
    }
  }

  lemma {:induction false} KeptFromIncreasing<A, B>(s: seq<A>, f: A -> Option<B>, base: nat)
    ensures var ix := KeptFrom(s, f, base);
      forall k1, k2 :: 0 <= k1 < k2 < |ix| ==> ix[k1] < ix[k2]
  {
    if s != [] {
      KeptFromIncreasing(s[1..], f, base + 1);
      KeptFromValues(s[1..], f, base + 1);
    }
  }

  lemma {:induction false} KeptFromComplete<A, B>(s: seq<A>, f: A -> Option<B>, base: nat)
    ensures forall i :: 0 <= i < |s| && f(s[i]).Some? ==> base + i in KeptFrom(s, f, base)
  {
    if s != [] {
      KeptFromComplete(s[1..], f, base + 1);
      forall i | 0 <= i < |s| && f(s[i]).Some?
        ensures base + i in KeptFrom(s, f, base)
      {
        if i > 0 {
          assert s[1..][i - 1] == s[i];
        }
      }
    }
  }

  /** FilterMap keeps exactly the positions `f` accepts, each once, in their
      original relative order: output `k` is `f` of input `KeptIndices[k]`. */
  lemma FilterMapOrder<A, B>(s: seq<A>, f: A -> Option<B>)
    ensures var r, ix := FilterMap(s, f), KeptIndices(s, f);
      && |ix| == |r|
      && (forall k :: 0 <= k < |ix| ==> ix[k] < |s| && f(s[ix[k]]) == Some(r[k]))
      && (forall k1, k2 :: 0 <= k1 < k2 < |ix| ==> ix[k1] < ix[k2])
      && (forall i :: 0 <= i < |s| && f(s[i]).Some? ==> i in ix)
  {
    KeptFromValues(s, f, 0);
    KeptFromIncreasing(s, f, 0);
    KeptFromComplete(s, f, 0);
  }

  /** The first candidate that is `Some`, or `None` when none is: the value
      of a chain `a || b || c` (or `a ?? b ?? c`) whose links were already
      reduced to "applies / does not apply". */
  function FirstSome<T>(cands: seq<Option<T>>): (r: Option<T>)
    ensures r.None? <==> forall i :: 0 <= i < |cands| ==> cands[i].None?
    ensures r.Some? ==> exists i :: (0 <= i < |cands| && cands[i] == r
                                      && forall j :: 0 <= j < i ==> cands[j].None?)
  {
    if cands == [] then None
    else if cands[0].Some? then cands[0]
    else
      var r := FirstSome(cands[1..]);
      assert r.Some? ==> exists i :: (1 <= i < |cands| && cands[i] == r
                                       && forall j :: 0 <= j < i ==> cands[j].None?) by {
        if r.Some? {
          var i :| (0 <= i < |cands[1..]| && cands[1..][i] == r
                    && forall j :: 0 <= j < i ==> cands[1..][j].None?);
          assert forall j :: 0 <= j < i + 1 ==> cands[j].None? by {
            forall j | 0 <= j < i + 1 ensures cands[j].None? {
              if j > 0 { assert cands[j] == cands[1..][j - 1]; }
            }
          }
        }
      }
      r
  }
}
