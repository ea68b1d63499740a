/** Bags (multisets) of command numbers, and sums over the members of a sequence. */
module Bags {

  /** The numbers lo, lo + 1, ..., hi - 1, each once. */
  function Range(lo: nat, hi: nat): (r: multiset<nat>)
    ensures forall i: nat :: r[i] == if lo <= i < hi then 1 else 0
    ensures lo <= hi ==> |r| == hi - lo
    decreases hi - lo
  {
    if lo < hi then multiset{lo} + Range(lo + 1, hi) else multiset{}
  }

  /** A part of a full bag that is as large as the bag leaves room for nothing else. */
  lemma NothingElse(part: multiset<nat>, rest: multiset<nat>, n: nat)
    requires part + rest == Range(0, n)
    requires |part| >= n
    ensures part == Range(0, n) && rest == multiset{}
  {
    assert |part + rest| == |part| + |rest|;
  }

  /** A bag of n numbers below n without repetition, or with none missing, is the full one. */
  lemma SameBag(a: multiset<nat>, n: nat)
    requires |a| == n
    requires (forall id: nat :: a[id] <= if id < n then 1 else 0) || (forall id: nat :: id < n ==> a[id] >= 1)
    ensures forall id: nat :: a[id] == if id < n then 1 else 0
  {
    var full := Range(0, n);
    if forall id: nat :: a[id] <= if id < n then 1 else 0 {
      assert a <= full;
      NothingElse(a, full - a, n);
    } else {
      assert full <= a;
      assert a == full + (a - full);
      assert |a - full| == 0;
      assert a == full;
    }
  }

  /** The sum of the bags f(x) over the members x of ws. */
  function Gather<T, B(==)>(ws: seq<T>, f: T -> multiset<B>): multiset<B> {
    if ws == [] then multiset{} else Gather(ws[..|ws| - 1], f) + f(ws[|ws| - 1])
  }

  lemma GatherAppend<T, B>(ws: seq<T>, x: T, f: T -> multiset<B>)
    ensures Gather(ws + [x], f) == Gather(ws, f) + f(x)
  {
    assert (ws + [x])[..|ws|] == ws;
  }

  lemma {:induction false} GatherHead<T, B>(ws: seq<T>, f: T -> multiset<B>)
    requires ws != []
    ensures Gather(ws, f) == f(ws[0]) + Gather(ws[1..], f)
  {
    var last := |ws| - 1;
    if last > 0 {
      GatherHead(ws[..last], f);
      assert ws[..last][1..] == ws[1..][..last - 1];
    }
  }

  lemma AddBoth<B>(a: multiset<B>, b: multiset<B>, a': multiset<B>, b': multiset<B>, c: multiset<B>)
    requires a' + b == a + b'
    ensures (a' + c) + b == (a + c) + b'
  {
    forall i: B ensures ((a' + c) + b)[i] == ((a + c) + b')[i] {
      assert (a' + b)[i] == (a + b')[i];
    }
  }

  /** Replacing one member replaces exactly its contribution. */
  lemma {:induction false} GatherUpdate<T, B>(ws: seq<T>, w: nat, x: T, f: T -> multiset<B>)
    requires w < |ws|
    ensures Gather(ws[w := x], f) + f(ws[w]) == Gather(ws, f) + f(x)
    ensures f(ws[w]) <= Gather(ws, f)
  {
    var last := |ws| - 1;
    if w == last {
      assert ws[w := x][..last] == ws[..last];
    } else {
      GatherUpdate(ws[..last], w, x, f);
      assert ws[w := x][..last] == ws[..last][w := x];
      AddBoth(Gather(ws[..last], f), f(ws[w]), Gather(ws[..last][w := x], f), f(x), f(ws[last]));
    }
  }

  /** The same, counting one number only. */
  lemma GatherUpdateAt<T, B>(ws: seq<T>, w: nat, x: T, f: T -> multiset<B>, id: B)
    requires w < |ws|
    ensures Gather(ws[w := x], f)[id] + f(ws[w])[id] == Gather(ws, f)[id] + f(x)[id]
  {
    GatherUpdate(ws, w, x, f);
    assert (Gather(ws[w := x], f) + f(ws[w]))[id] == (Gather(ws, f) + f(x))[id];
  }

  lemma GatherWithinAt<T, B>(ws: seq<T>, w: nat, f: T -> multiset<B>, id: B)
    requires w < |ws|
    ensures f(ws[w])[id] <= Gather(ws, f)[id]
  {
    GatherUpdate(ws, w, ws[w], f);
  }

  lemma {:induction false} GatherNone<T, B>(ws: seq<T>, f: T -> multiset<B>)
    requires forall w :: 0 <= w < |ws| ==> f(ws[w]) == multiset{}
    ensures Gather(ws, f) == multiset{}
  {
    if ws != [] {
      GatherNone(ws[..|ws| - 1], f);
    }
  }

  lemma {:induction false} GatherMember<T, B>(ws: seq<T>, f: T -> multiset<B>, x: B) returns (w: nat)
    requires x in Gather(ws, f)
    ensures w < |ws| && x in f(ws[w])
  {
    var last := |ws| - 1;
    if x in f(ws[last]) {
      w := last;
    } else {
      w := GatherMember(ws[..last], f, x);
    }
  }

  /** Summing over images is summing the composition. */
  lemma {:induction false} GatherMap<T, U, B>(ws: seq<T>, j: T -> U, f: U -> multiset<B>, g: T -> multiset<B>)
    requires forall w :: 0 <= w < |ws| ==> f(j(ws[w])) == g(ws[w])
    ensures Gather(Map(ws, j), f) == Gather(ws, g)
  {
    if ws != [] {
      var last := |ws| - 1;
      GatherMap(ws[..last], j, f, g);
      assert Map(ws, j)[..last] == Map(ws[..last], j);
      assert f(Map(ws, j)[last]) == g(ws[last]);
    }
  }

  lemma {:induction false} GatherMono<T, B>(ws: seq<T>, f: T -> multiset<B>, g: T -> multiset<B>)
    requires forall w :: 0 <= w < |ws| ==> f(ws[w]) <= g(ws[w])
    ensures Gather(ws, f) <= Gather(ws, g)
  {
    if ws != [] {
      GatherMono(ws[..|ws| - 1], f, g);
      assert f(ws[|ws| - 1]) <= g(ws[|ws| - 1]);
    }
  }

  lemma {:induction false} GatherSize<T, B>(ws: seq<T>, f: T -> multiset<B>)
    requires forall w :: 0 <= w < |ws| ==> |f(ws[w])| == 1
    ensures |Gather(ws, f)| == |ws|
  {
    if ws != [] {
      GatherSize(ws[..|ws| - 1], f);
      assert |f(ws[|ws| - 1])| == 1;
    }
  }

  /** Three bags that together hold each of the numbers below n once. */
  lemma SplitSize(a: multiset<nat>, b: multiset<nat>, c: multiset<nat>, n: nat)
    requires forall id: nat :: a[id] + b[id] + c[id] == if id < n then 1 else 0
    ensures |a| + |b| + |c| == n
  {
    assert a + b + c == Range(0, n);
  }

  lemma PartSize(part: multiset<nat>, whole: multiset<nat>)
    requires part <= whole
    ensures |part| <= |whole|
  {
    assert whole == part + (whole - part);
  }

  /** The sum of the numbers f(x) over the members x of ws. */
  function Total<T>(ws: seq<T>, f: T -> nat): nat {
    if ws == [] then 0 else Total(ws[..|ws| - 1], f) + f(ws[|ws| - 1])
  }

  lemma {:induction false} TotalUpdate<T>(ws: seq<T>, w: nat, x: T, f: T -> nat)
    requires w < |ws|
    ensures Total(ws[w := x], f) + f(ws[w]) == Total(ws, f) + f(x)
    ensures f(ws[w]) <= Total(ws, f)
  {
    var last := |ws| - 1;
    if w == last {
      assert ws[w := x][..last] == ws[..last];
    } else {
      TotalUpdate(ws[..last], w, x, f);
      assert ws[w := x][..last] == ws[..last][w := x];
    }
  }

  lemma {:induction false} TotalBound<T>(ws: seq<T>, f: T -> nat, k: nat)
    requires forall w :: 0 <= w < |ws| ==> f(ws[w]) <= k
    ensures Total(ws, f) <= k * |ws|
  {
    if ws != [] {
      TotalBound(ws[..|ws| - 1], f, k);
      assert k * |ws| == k * (|ws| - 1) + k;
    }
  }

  /** Sums over a sequence depend on its members only. */
  lemma {:induction false} TotalBag<T>(a: seq<T>, b: seq<T>, f: T -> nat)
    requires multiset(a) == multiset(b)
    ensures Total(a, f) == Total(b, f)
    decreases |a|
  {
    assert |multiset(a)| == |a| && |multiset(b)| == |b|;
    if a != [] {
      var last := |a| - 1;
      assert a == a[..last] + [a[last]];
      assert a[last] in multiset(b);
      var k := IndexOf(b, a[last]);
      TotalCut(b, k, f);
      LastCut(a, b, k);
      TotalBag(a[..last], b[..k] + b[k + 1..], f);
    }
  }

  lemma LastCut<T>(a: seq<T>, b: seq<T>, k: nat)
    requires multiset(a) == multiset(b) && a != [] && k < |b| && b[k] == a[|a| - 1]
    ensures multiset(a[..|a| - 1]) == multiset(b[..k] + b[k + 1..])
  {
    assert a == a[..|a| - 1] + [a[|a| - 1]];
    assert b == b[..k] + [b[k]] + b[k + 1..];
    assert multiset(a[..|a| - 1]) == multiset(a) - multiset{b[k]};
  }

  lemma {:induction false} TotalConcat<T>(a: seq<T>, b: seq<T>, f: T -> nat)
    ensures Total(a + b, f) == Total(a, f) + Total(b, f)
  {
    if b == [] {
      assert a + b == a;
    } else {
      var last := |b| - 1;
      TotalConcat(a, b[..last], f);
      assert (a + b)[..|a| + last] == a + b[..last];
    }
  }

  lemma TotalCut<T>(s: seq<T>, k: nat, f: T -> nat)
    requires k < |s|
    ensures Total(s, f) == Total(s[..k] + s[k + 1..], f) + f(s[k])
  {
    var a, b := s[..k], s[k + 1..];
    assert s == a + ([s[k]] + b);
    TotalConcat(a, [s[k]] + b, f);
    TotalConcat([s[k]], b, f);
    TotalOne(s[k], f);
    TotalConcat(a, b, f);
  }

  lemma TotalOne<T>(x: T, f: T -> nat)
    ensures Total([x], f) == f(x)
  {
    assert [x][..0] == [];
  }

  /** A positive sum has a positive contribution. */
  lemma {:induction false} SomePositive<T>(ws: seq<T>, f: T -> nat) returns (w: nat)
    requires Total(ws, f) > 0
    ensures w < |ws| && f(ws[w]) > 0
  {
    var last := |ws| - 1;
    if f(ws[last]) > 0 {
      w := last;
    } else {
      w := SomePositive(ws[..last], f);
    }
  }

  /** A zero sum has only zero contributions. */
  lemma TotalZero<T>(ws: seq<T>, f: T -> nat)
    requires Total(ws, f) == 0
    ensures forall w :: 0 <= w < |ws| ==> f(ws[w]) == 0
  {
    forall w | 0 <= w < |ws| ensures f(ws[w]) == 0 {
      TotalUpdate(ws, w, ws[w], f);
    }
  }

  /** The images of the members of s, in order. */
  function Map<A, B>(s: seq<A>, f: A -> B): (r: seq<B>)
    ensures |r| == |s| && forall i :: 0 <= i < |s| ==> r[i] == f(s[i])
  {
    seq(|s|, i requires 0 <= i < |s| => f(s[i]))
  }

  /** Cutting one member out of a sequence takes one copy of its image. */
  lemma MapCut<A, B>(s: seq<A>, k: nat, f: A -> B)
    requires k < |s|
    ensures multiset(Map(s, f)) == multiset(Map(s[..k] + s[k + 1..], f)) + multiset{f(s[k])}
  {
    var front, back := Map(s[..k], f), Map(s[k + 1..], f);
    assert Map(s, f) == front + [f(s[k])] + back;
    assert Map(s[..k] + s[k + 1..], f) == front + back;
  }

  /** The same member cut out of two rearrangements of each other. */
  lemma CutBoth<A>(a: seq<A>, b: seq<A>, k: nat)
    requires multiset(a) == multiset(b) && a != [] && k < |b| && b[k] == a[0]
    ensures multiset(a[1..]) == multiset(b[..k] + b[k + 1..])
  {
    assert a == [a[0]] + a[1..];
    assert b == b[..k] + [b[k]] + b[k + 1..];
    assert multiset(a[1..]) == multiset(a) - multiset{a[0]};
  }

  /** Rearranging a sequence rearranges its images. */
  lemma {:induction false} MapBag<A, B>(a: seq<A>, b: seq<A>, f: A -> B)
    requires multiset(a) == multiset(b)
    ensures multiset(Map(a, f)) == multiset(Map(b, f))
    decreases |a|
  {
    if a == [] {
      assert |multiset(b)| == |b|;
    } else {
      var k := IndexOf(b, a[0]);
      CutBoth(a, b, k);
      MapBag(a[1..], b[..k] + b[k + 1..], f);
      MapCutBoth(a, b, k, f);
    }
  }

  lemma MapCutBoth<A, B>(a: seq<A>, b: seq<A>, k: nat, f: A -> B)
    requires a != [] && k < |b| && b[k] == a[0]
    requires multiset(Map(a[1..], f)) == multiset(Map(b[..k] + b[k + 1..], f))
    ensures multiset(Map(a, f)) == multiset(Map(b, f))
  {
    MapHead(a, f);
    MapCut(b, k, f);
  }

  lemma MapHead<A, B>(s: seq<A>, f: A -> B)
    requires s != []
    ensures multiset(Map(s, f)) == multiset(Map(s[1..], f)) + multiset{f(s[0])}
  {
    assert Map(s, f) == [f(s[0])] + Map(s[1..], f);
  }

  lemma IndexOf<A>(s: seq<A>, x: A) returns (k: nat)
    requires x in multiset(s)
    ensures k < |s| && s[k] == x
  {
    k :| k < |s| && s[k] == x;
  }
}
