/** The two ways the test configuration builds its derived lists:
    a head followed by every provider's list in order (AllControllers,
    AllWebhooks, DeploymentChartArgs), and an order-preserving union that
    keeps the first occurrence of each value (AllNamespaces,
    AllRequiredTools, AllRequiredScripts). Each comes as a specification
    function, the lemmas about it, and the loop that builds it. */
module Lists {

  /** The lists of `xss`, one after another, in order. */
  function Concat<T>(xss: seq<seq<T>>): seq<T>
  {
    if xss == [] then [] else Concat(xss[..|xss| - 1]) + xss[|xss| - 1]
  }

  /** The sum of the lengths of the lists of `xss`. */
  function TotalLength<T>(xss: seq<seq<T>>): nat
  {
    if xss == [] then 0 else TotalLength(xss[..|xss| - 1]) + |xss[|xss| - 1]|
  }

  lemma ConcatSnoc<T>(xss: seq<seq<T>>, ys: seq<T>)
    ensures Concat(xss + [ys]) == Concat(xss) + ys
  {
    assert (xss + [ys])[..|xss|] == xss;
  }

  lemma {:induction false} ConcatAppend<T>(a: seq<seq<T>>, b: seq<seq<T>>)
    ensures Concat(a + b) == Concat(a) + Concat(b)
    decreases |b|
  {
    if b == [] {
      assert a + b == a;
    } else {
      var front, last := b[..|b| - 1], b[|b| - 1];
      assert a + b == (a + front) + [last];
      assert b == front + [last];
      ConcatSnoc(a + front, last);
      ConcatAppend(a, front);
      ConcatSnoc(front, last);
    }
  }

  /** The concatenation is as long as all its parts together. */
  lemma {:induction false} ConcatLength<T>(xss: seq<seq<T>>)
    ensures |Concat(xss)| == TotalLength(xss)
  {
    if xss != [] {
      ConcatLength(xss[..|xss| - 1]);
    }
  }

  /** After a prefix `init`, list `i` is the contiguous block that starts
      right after `init` and the elements of lists 0 .. i-1. */
  lemma ConcatBlock<T>(init: seq<T>, xss: seq<seq<T>>, i: nat)
    requires i < |xss|
    ensures |init| + TotalLength(xss[..i]) + |xss[i]| <= |init + Concat(xss)|
    ensures (init + Concat(xss))[|init| + TotalLength(xss[..i])..|init| + TotalLength(xss[..i]) + |xss[i]|] == xss[i]
  {
    var pre, x, post := xss[..i], xss[i], xss[i + 1..];
    assert xss == (pre + [x]) + post;
    ConcatAppend(pre + [x], post);
    ConcatSnoc(pre, x);
    ConcatLength(pre);
    assert init + Concat(xss) == ((init + Concat(pre)) + x) + Concat(post);
  }

  /** ConcatBlock for every list of `xss` at once. */
  lemma AppendedBlocks<T>(init: seq<T>, xss: seq<seq<T>>)
    ensures forall i :: 0 <= i < |xss| ==>
              |init| + TotalLength(xss[..i]) + |xss[i]| <= |init + Concat(xss)| &&
              (init + Concat(xss))[|init| + TotalLength(xss[..i])..|init| + TotalLength(xss[..i]) + |xss[i]|] == xss[i]
  {
    forall i | 0 <= i < |xss|
      ensures |init| + TotalLength(xss[..i]) + |xss[i]| <= |init + Concat(xss)|
      ensures (init + Concat(xss))[|init| + TotalLength(xss[..i])..|init| + TotalLength(xss[..i]) + |xss[i]|] == xss[i]
    {
      ConcatBlock(init, xss, i);
    }
  }

  /** A value is in the concatenation exactly when it is in one of the parts. */
  lemma {:induction false} InConcat<T>(xss: seq<seq<T>>, x: T)
    ensures x in Concat(xss) <==> exists i :: 0 <= i < |xss| && x in xss[i]
  {
    if xss != [] {
      var n := |xss| - 1;
      InConcat(xss[..n], x);
      if x in Concat(xss) {
        if x in Concat(xss[..n]) {
          var i :| 0 <= i < n && x in xss[..n][i];
          assert x in xss[i];
        } else {
          assert x in xss[n];
        }
      }
      if exists i :: 0 <= i < |xss| && x in xss[i] {
        var i :| 0 <= i < |xss| && x in xss[i];
        if i < n {
          assert x in xss[..n][i];
        }
      }
    }
  }

  /** No value occurs twice. */
  predicate NoDup(s: seq<string>)
  {
    forall i, j :: 0 <= i < j < |s| ==> s[i] != s[j]
  }

  /** `acc` followed by each value of `xs` that is neither in `acc` nor
      earlier in `xs`, in the order of `xs`. */
  function AddNew(acc: seq<string>, xs: seq<string>): seq<string>
  {
    if xs == [] then acc
    else
      var r := AddNew(acc, xs[..|xs| - 1]);
      if xs[|xs| - 1] in r then r else r + [xs[|xs| - 1]]
  }

  /** The position of the first occurrence of `x` in `s`, or |s| when `x`
      does not occur. */
  function FirstIndex(s: seq<string>, x: string): (k: nat)
    ensures k <= |s|
    ensures k < |s| <==> x in s
    ensures k < |s| ==> s[k] == x && x !in s[..k]
  {
    if s == [] then 0
    else if s[0] == x then 0
    else
      var k := 1 + FirstIndex(s[1..], x);
      assert k < |s| ==> s[..k] == [s[0]] + s[1..][..k - 1];
      k
  }

  /** A position holding `x` with no `x` before it is the first index. */
  lemma FirstIndexUnique(s: seq<string>, x: string, k: nat)
    requires k < |s| && s[k] == x && x !in s[..k]
    ensures FirstIndex(s, x) == k
  {
  }

  /** Appending never moves the first occurrence of a value already present. */
  lemma FirstIndexAppend(s: seq<string>, t: seq<string>, x: string)
    requires x in s
    ensures FirstIndex(s + t, x) == FirstIndex(s, x)
  {
    var k := FirstIndex(s, x);
    assert (s + t)[..k] == s[..k];
    FirstIndexUnique(s + t, x, k);
  }

  /** In a list without duplicates every value's first index is its index. */
  lemma FirstIndexNoDup(s: seq<string>, i: nat)
    requires NoDup(s) && i < |s|
    ensures FirstIndex(s, s[i]) == i
  {
    forall k | 0 <= k < i ensures s[..i][k] != s[i] { }
    FirstIndexUnique(s, s[i], i);
  }

  /** The union keeps `acc` as its prefix, has no duplicates and holds
      exactly the values of `acc` and `xs`. */
  lemma {:induction false} AddNewSpec(acc: seq<string>, xs: seq<string>)
    requires NoDup(acc)
    ensures |acc| <= |AddNew(acc, xs)| && AddNew(acc, xs)[..|acc|] == acc
    ensures NoDup(AddNew(acc, xs))
    ensures forall x :: x in AddNew(acc, xs) <==> x in acc || x in xs
  {
    if xs != [] {
      var front, last := xs[..|xs| - 1], xs[|xs| - 1];
      assert xs == front + [last];
      AddNewSpec(acc, front);
      var r := AddNew(acc, front);
      if last !in r {
        assert (r + [last])[..|acc|] == r[..|acc|];
      }
    }
  }

  /** The union lists its values in the order of their first occurrence in
      `acc + xs`: together with AddNewSpec this pins the result down. */
  lemma {:induction false} AddNewFirstOccurrence(acc: seq<string>, xs: seq<string>)
    requires NoDup(acc)
    ensures forall i, j :: 0 <= i < j < |AddNew(acc, xs)| ==>
      FirstIndex(acc + xs, AddNew(acc, xs)[i]) < FirstIndex(acc + xs, AddNew(acc, xs)[j])
  {
    var r := AddNew(acc, xs);
    if xs == [] {
      assert acc + xs == acc;
      forall i, j | 0 <= i < j < |r|
        ensures FirstIndex(acc + xs, r[i]) < FirstIndex(acc + xs, r[j])
      {
        FirstIndexNoDup(acc, i);
        FirstIndexNoDup(acc, j);
      }
    } else {
      var front, last := xs[..|xs| - 1], xs[|xs| - 1];
      var s := acc + front;
      assert acc + xs == s + [last];
      var r' := AddNew(acc, front);
      AddNewSpec(acc, front);
      AddNewFirstOccurrence(acc, front);
      forall i, j | 0 <= i < j < |r|
        ensures FirstIndex(acc + xs, r[i]) < FirstIndex(acc + xs, r[j])
      {
        assert r[i] == r'[i] && r'[i] in r';
        assert r[i] in s;
        FirstIndexAppend(s, [last], r[i]);
        if j < |r'| {
          assert r[j] == r'[j] && r'[j] in r';
          assert r[j] in s;
          FirstIndexAppend(s, [last], r[j]);
        } else {
          assert r[j] == last && last !in s;
          assert (s + [last])[..|s|] == s;
          FirstIndexUnique(s + [last], last, |s|);
        }
      }
    }
  }

  /** Adding one value to the union: it is appended exactly when it is new. */
  lemma AddNewSnoc(acc: seq<string>, xs: seq<string>, x: string)
    ensures AddNew(acc, xs + [x]) ==
            if x in AddNew(acc, xs) then AddNew(acc, xs) else AddNew(acc, xs) + [x]
  {
    assert (xs + [x])[..|xs|] == xs;
  }

  /** Values that are all already in `acc` add nothing to the union. */
  lemma {:induction false} AddNewAllPresent(acc: seq<string>, xs: seq<string>)
    requires forall i :: 0 <= i < |xs| ==> xs[i] in acc
    ensures AddNew(acc, xs) == acc
  {
    if xs != [] {
      AddNewAllPresent(acc, xs[..|xs| - 1]);
    }
  }

  /** Builds `init + Concat(xss)` by appending one list at a time. */
  method AppendAll<T>(init: seq<T>, xss: seq<seq<T>>) returns (r: seq<T>)
    ensures r == init + Concat(xss)
  {
    r := init;
    var i := 0;
    while i < |xss|
      invariant 0 <= i <= |xss|
      invariant r == init + Concat(xss[..i])
    {
      ConcatSnoc(xss[..i], xss[i]);
      assert xss[..i + 1] == xss[..i] + [xss[i]];
      r := r + xss[i];
      i := i + 1;
    }
    assert xss[..|xss|] == xss;
  }

  /** The inner loop of AppendUnseen: adds the values of `xs` that are not
      in `seen` to `r0`, given that `r0` is the union of `init` and `done`
      and `seen` holds exactly its values. */
  method AppendList(r0: seq<string>, seen0: set<string>, xs: seq<string>,
                    ghost init: seq<string>, ghost done: seq<string>)
    returns (r: seq<string>, seen: set<string>)
    requires r0 == AddNew(init, done)
    requires forall x :: x in seen0 <==> x in r0
    ensures r == AddNew(init, done + xs)
    ensures forall x :: x in seen <==> x in r
  {
    r, seen := r0, seen0;
    var j := 0;
    assert done + xs[..0] == done;
    while j < |xs|
      invariant 0 <= j <= |xs|
      invariant r == AddNew(init, done + xs[..j])
      invariant forall x :: x in seen <==> x in r
    {
      var x := xs[j];
      ghost var s := done + xs[..j];
      assert done + xs[..j + 1] == s + [x];
      assert (s + [x])[..|s|] == s;
      if x !in seen {
        seen := seen + {x};
        r := r + [x];
      }
      j := j + 1;
    }
    assert xs[..|xs|] == xs;
  }

  /** Builds the order-preserving union of `init` and the lists of `xss`
      with a set of the values seen so far, value by value. */
  method AppendUnseen(init: seq<string>, xss: seq<seq<string>>) returns (r: seq<string>)
    ensures r == AddNew(init, Concat(xss))
  {
    var seen: set<string> := set x | x in init;
    r := init;
    var i := 0;
    while i < |xss|
      invariant 0 <= i <= |xss|
      invariant r == AddNew(init, Concat(xss[..i]))
      invariant forall x :: x in seen <==> x in r
    {
      r, seen := AppendList(r, seen, xss[i], init, Concat(xss[..i]));
      ConcatSnoc(xss[..i], xss[i]);
      assert xss[..i + 1] == xss[..i] + [xss[i]];
      i := i + 1;
    }
    assert xss[..|xss|] == xss;
  }
}
