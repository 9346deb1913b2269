/** Sequence helpers used to state what the generator emits: selections and concatenations. */
module Seqs {

  /** The elements of `s` that satisfy `keep`, in their original order. */
  function Filter<T>(s: seq<T>, keep: T -> bool): (r: seq<T>)
    ensures |r| <= |s|
    ensures forall i :: 0 <= i < |r| ==> keep(r[i])
  {
    if |s| == 0 then []
    else (if keep(s[0]) then [s[0]] else []) + Filter(s[1..], keep)
  }

  /** How many elements of `s` satisfy `keep`. */
  function Count<T>(s: seq<T>, keep: T -> bool): nat
  {
    |Filter(s, keep)|
  }

  /** The concatenation of `f(x)` for every `x` of `xs`, in order. */
  function Bind<A, B>(xs: seq<A>, f: A -> seq<B>): seq<B>
  {
    if |xs| == 0 then [] else f(xs[0]) + Bind(xs[1..], f)
  }

  lemma {:induction false} FilterConcat<T>(a: seq<T>, b: seq<T>, keep: T -> bool)
    ensures Filter(a + b, keep) == Filter(a, keep) + Filter(b, keep)
  {
    if |a| == 0 {
      assert a + b == b;
    } else {
      assert (a + b)[1..] == a[1..] + b;
      FilterConcat(a[1..], b, keep);
    }
  }

  lemma {:induction false} FilterNone<T>(s: seq<T>, keep: T -> bool)
    requires forall i :: 0 <= i < |s| ==> !keep(s[i])
    ensures Filter(s, keep) == []
  {
    if |s| > 0 {
      FilterNone(s[1..], keep);
    }
  }

  lemma {:induction false} FilterAll<T>(s: seq<T>, keep: T -> bool)
    requires forall i :: 0 <= i < |s| ==> keep(s[i])
    ensures Filter(s, keep) == s
  {
    if |s| > 0 {
      FilterAll(s[1..], keep);
    }
  }

  /** Selecting from a concatenation of per-element blocks selects block by block. */
  lemma {:induction false} FilterBind<A, B>(xs: seq<A>, f: A -> seq<B>, keep: B -> bool, g: A -> seq<B>)
    requires forall i :: 0 <= i < |xs| ==> Filter(f(xs[i]), keep) == g(xs[i])
    ensures Filter(Bind(xs, f), keep) == Bind(xs, g)
  {
    if |xs| > 0 {
      FilterConcat(f(xs[0]), Bind(xs[1..], f), keep);
      FilterBind(xs[1..], f, keep, g);
    }
  }

  /** A concatenation of one-element blocks lists one element per input, in order. */
  lemma {:induction false} BindSingles<A, B>(xs: seq<A>, g: A -> seq<B>)
    requires forall i :: 0 <= i < |xs| ==> |g(xs[i])| == 1
    ensures |Bind(xs, g)| == |xs|
    ensures forall i :: 0 <= i < |xs| ==> Bind(xs, g)[i] == g(xs[i])[0]
  {
    if |xs| > 0 {
      BindSingles(xs[1..], g);
      assert forall i :: 1 <= i < |xs| ==> xs[1..][i - 1] == xs[i];
    }
  }

  /** A concatenation of two-element blocks lists two elements per input, in order. */
  lemma {:induction false} BindPairs<A, B>(xs: seq<A>, g: A -> seq<B>)
    requires forall i :: 0 <= i < |xs| ==> |g(xs[i])| == 2
    ensures |Bind(xs, g)| == 2 * |xs|
    ensures forall i :: 0 <= i < |xs| ==> Bind(xs, g)[2 * i] == g(xs[i])[0] && Bind(xs, g)[2 * i + 1] == g(xs[i])[1]
  {
    if |xs| > 0 {
      BindPairs(xs[1..], g);
      assert forall i :: 1 <= i < |xs| ==> xs[1..][i - 1] == xs[i];
    }
  }

  /** Blocks holding one element for the inputs that satisfy `p` and none otherwise list those inputs' elements, in order. */
  lemma {:induction false} BindOptional<A, B>(xs: seq<A>, g: A -> seq<B>, p: A -> bool, h: A -> B)
    requires forall i :: 0 <= i < |xs| ==> g(xs[i]) == (if p(xs[i]) then [h(xs[i])] else [])
    ensures |Bind(xs, g)| == |Filter(xs, p)|
    ensures forall k :: 0 <= k < |Filter(xs, p)| ==> Bind(xs, g)[k] == h(Filter(xs, p)[k])
  {
    if |xs| > 0 {
      BindOptional(xs[1..], g, p, h);
    }
  }

  /** Blocks holding two elements for the inputs that satisfy `p` and none otherwise list those pairs, in order. */
  lemma {:induction false} BindOptionalPairs<A, B>(xs: seq<A>, g: A -> seq<B>, p: A -> bool, h1: A -> B, h2: A -> B)
    requires forall i :: 0 <= i < |xs| ==> g(xs[i]) == (if p(xs[i]) then [h1(xs[i]), h2(xs[i])] else [])
    ensures |Bind(xs, g)| == 2 * |Filter(xs, p)|
    ensures forall k :: 0 <= k < |Filter(xs, p)| ==>
      Bind(xs, g)[2 * k] == h1(Filter(xs, p)[k]) && Bind(xs, g)[2 * k + 1] == h2(Filter(xs, p)[k])
  {
    if |xs| > 0 {
      BindOptionalPairs(xs[1..], g, p, h1, h2);
      var rest, sel := Bind(xs[1..], g), Filter(xs[1..], p);
      if p(xs[0]) {
        assert Bind(xs, g) == [h1(xs[0]), h2(xs[0])] + rest;
        assert Filter(xs, p) == [xs[0]] + sel;
        forall k | 0 < k < |Filter(xs, p)|
          ensures Bind(xs, g)[2 * k] == h1(Filter(xs, p)[k]) && Bind(xs, g)[2 * k + 1] == h2(Filter(xs, p)[k])
        {
          assert Bind(xs, g)[2 * k] == rest[2 * (k - 1)];
          assert Bind(xs, g)[2 * k + 1] == rest[2 * (k - 1) + 1];
        }
      } else {
        assert Bind(xs, g) == rest;
        assert Filter(xs, p) == sel;
      }
    }
  }

  /** Every element of a concatenation of blocks comes from one of the blocks. */
  lemma {:induction false} BindKinds<A, B>(xs: seq<A>, f: A -> seq<B>, ok: B -> bool)
    requires forall i, j :: 0 <= i < |xs| && 0 <= j < |f(xs[i])| ==> ok(f(xs[i])[j])
    ensures forall k :: 0 <= k < |Bind(xs, f)| ==> ok(Bind(xs, f)[k])
  {
    if |xs| > 0 {
      BindKinds(xs[1..], f, ok);
      var rest := Bind(xs[1..], f);
      assert Bind(xs, f) == f(xs[0]) + rest;
      forall k | 0 <= k < |Bind(xs, f)|
        ensures ok(Bind(xs, f)[k])
      {
        if k >= |f(xs[0])| {
          assert Bind(xs, f)[k] == rest[k - |f(xs[0])|];
        }
      }
    }
  }

  /** Every element that satisfies `keep` is selected. */
  lemma {:induction false} FilterKeepsMembers<T>(s: seq<T>, keep: T -> bool)
    ensures forall i :: 0 <= i < |s| && keep(s[i]) ==> s[i] in Filter(s, keep)
  {
    if |s| > 0 {
      FilterKeepsMembers(s[1..], keep);
      assert forall i :: 1 <= i < |s| ==> s[i] == s[1..][i - 1];
    }
  }

  /** When exactly one element satisfies `keep`, the selection is that element alone. */
  lemma {:induction false} FilterPick<T>(s: seq<T>, k: nat, keep: T -> bool)
    requires k < |s| && keep(s[k])
    requires forall i :: 0 <= i < |s| && i != k ==> !keep(s[i])
    ensures Filter(s, keep) == [s[k]]
  {
    if k == 0 {
      FilterNone(s[1..], keep);
    } else {
      FilterPick(s[1..], k - 1, keep);
    }
  }
}
