/** Counting and collecting over sequences whose entries change one at a time. */
module Counting {

  /** Number of the first `n` entries of `s` that satisfy `p`. */
  function CountTo<A>(p: A -> bool, s: seq<A>, n: nat): nat
    requires n <= |s|
  {
    if n == 0 then 0 else CountTo(p, s, n - 1) + (if p(s[n - 1]) then 1 else 0)
  }

  /** Number of entries of `s` that satisfy `p`. */
  function Count<A>(p: A -> bool, s: seq<A>): nat {
    CountTo(p, s, |s|)
  }

  lemma {:induction false} CountToSame<A>(p: A -> bool, s: seq<A>, t: seq<A>, n: nat)
    requires n <= |s| && n <= |t| && forall k :: 0 <= k < n ==> p(s[k]) == p(t[k])
    ensures CountTo(p, s, n) == CountTo(p, t, n)
  {
    if n > 0 { CountToSame(p, s, t, n - 1); }
  }

  lemma {:induction false} CountToUpdate<A>(p: A -> bool, s: seq<A>, i: nat, a: A, n: nat)
    requires i < n <= |s|
    ensures CountTo(p, s[i := a], n) == CountTo(p, s, n) - (if p(s[i]) then 1 else 0) + (if p(a) then 1 else 0)
  {
    if i == n - 1 {
      CountToSame(p, s, s[i := a], i);
    } else {
      CountToUpdate(p, s, i, a, n - 1);
    }
  }

  lemma CountUpdate<A>(p: A -> bool, s: seq<A>, i: nat, a: A)
    requires i < |s|
    ensures Count(p, s[i := a]) == Count(p, s) - (if p(s[i]) then 1 else 0) + (if p(a) then 1 else 0)
  {
    CountToUpdate(p, s, i, a, |s|);
  }

  lemma CountAppend<A>(p: A -> bool, s: seq<A>, a: A)
    ensures Count(p, s + [a]) == Count(p, s) + (if p(a) then 1 else 0)
  {
    CountToSame(p, s, s + [a], |s|);
  }

  lemma CountSame<A>(p: A -> bool, s: seq<A>, t: seq<A>)
    requires |s| == |t| && forall k :: 0 <= k < |s| ==> p(s[k]) == p(t[k])
    ensures Count(p, s) == Count(p, t)
  {
    CountToSame(p, s, t, |s|);
  }

  lemma {:induction false} CountToIsZero<A>(p: A -> bool, s: seq<A>, n: nat)
    requires n <= |s|
    ensures CountTo(p, s, n) == 0 <==> forall i :: 0 <= i < n ==> !p(s[i])
  {
    if n > 0 { CountToIsZero(p, s, n - 1); }
  }

  lemma CountIsZero<A>(p: A -> bool, s: seq<A>)
    ensures Count(p, s) == 0 <==> forall i :: 0 <= i < |s| ==> !p(s[i])
  {
    CountToIsZero(p, s, |s|);
  }

  /** When every entry that counts in `t` counts at the same place in `s`, there are no more of them. */
  lemma {:induction false} CountToFewer<A>(p: A -> bool, s: seq<A>, t: seq<A>, n: nat)
    requires n <= |t| && forall i :: 0 <= i < n && p(t[i]) ==> i < |s| && p(s[i])
    ensures CountTo(p, t, n) <= CountTo(p, s, if n <= |s| then n else |s|)
  {
    if n > 0 { CountToFewer(p, s, t, n - 1); }
  }

  lemma {:induction false} CountToGrows<A>(p: A -> bool, s: seq<A>, m: nat, n: nat)
    requires m <= n <= |s|
    ensures CountTo(p, s, m) <= CountTo(p, s, n)
  {
    if m < n { CountToGrows(p, s, m, n - 1); }
  }

  lemma CountFewer<A>(p: A -> bool, s: seq<A>, t: seq<A>)
    requires forall i :: 0 <= i < |t| && p(t[i]) ==> i < |s| && p(s[i])
    ensures Count(p, t) <= Count(p, s)
  {
    CountToFewer(p, s, t, |t|);
    CountToGrows(p, s, if |t| <= |s| then |t| else |s|, |s|);
  }

  /** Everything that the first `n` entries of `s` carry, put together. */
  function GatherTo<A, B>(carry: A -> multiset<B>, s: seq<A>, n: nat): multiset<B>
    requires n <= |s|
  {
    if n == 0 then multiset{} else GatherTo(carry, s, n - 1) + carry(s[n - 1])
  }

  function Gather<A, B>(carry: A -> multiset<B>, s: seq<A>): multiset<B> {
    GatherTo(carry, s, |s|)
  }

  lemma {:induction false} GatherToSame<A, B>(carry: A -> multiset<B>, s: seq<A>, t: seq<A>, n: nat)
    requires n <= |s| && n <= |t| && forall k :: 0 <= k < n ==> carry(s[k]) == carry(t[k])
    ensures GatherTo(carry, s, n) == GatherTo(carry, t, n)
  {
    if n > 0 { GatherToSame(carry, s, t, n - 1); }
  }

  lemma {:induction false} GatherToUpdate<A, B>(carry: A -> multiset<B>, s: seq<A>, i: nat, a: A, n: nat)
    requires i < n <= |s|
    ensures GatherTo(carry, s[i := a], n) + carry(s[i]) == GatherTo(carry, s, n) + carry(a)
  {
    if i == n - 1 {
      GatherToSame(carry, s, s[i := a], i);
      var rest := GatherTo(carry, s, i);
      assert (rest + carry(a)) + carry(s[i]) == (rest + carry(s[i])) + carry(a);
    } else {
      GatherToUpdate(carry, s, i, a, n - 1);
      var old1, new1, last := GatherTo(carry, s, n - 1), GatherTo(carry, s[i := a], n - 1), carry(s[n - 1]);
      assert (new1 + last) + carry(s[i]) == (new1 + carry(s[i])) + last;
      assert (old1 + last) + carry(a) == (old1 + carry(a)) + last;
    }
  }

  lemma GatherKeep<A, B>(carry: A -> multiset<B>, s: seq<A>, i: nat, a: A)
    requires i < |s| && carry(s[i]) == carry(a)
    ensures Gather(carry, s[i := a]) == Gather(carry, s)
  {
    GatherToSame(carry, s, s[i := a], |s|);
  }

  /** The general law: what entry `i` carried leaves and what the new entry carries arrives. */
  lemma GatherSwap<A, B>(carry: A -> multiset<B>, s: seq<A>, i: nat, a: A)
    requires i < |s|
    ensures Gather(carry, s[i := a]) + carry(s[i]) == Gather(carry, s) + carry(a)
  {
    GatherToUpdate(carry, s, i, a, |s|);
  }

  lemma {:induction false} GatherToMember<A, B>(carry: A -> multiset<B>, s: seq<A>, i: nat, n: nat)
    requires i < n <= |s|
    ensures carry(s[i]) <= GatherTo(carry, s, n)
  {
    if i < n - 1 { GatherToMember(carry, s, i, n - 1); }
  }

  lemma GatherGain<A, B>(carry: A -> multiset<B>, s: seq<A>, i: nat, a: A)
    requires i < |s| && carry(s[i]) == multiset{}
    ensures Gather(carry, s[i := a]) == Gather(carry, s) + carry(a)
  {
    GatherToUpdate(carry, s, i, a, |s|);
  }

  lemma GatherLoss<A, B>(carry: A -> multiset<B>, s: seq<A>, i: nat, a: A)
    requires i < |s| && carry(a) == multiset{}
    ensures Gather(carry, s) == Gather(carry, s[i := a]) + carry(s[i])
  {
    GatherToUpdate(carry, s, i, a, |s|);
  }

  lemma GatherAppend<A, B>(carry: A -> multiset<B>, s: seq<A>, a: A)
    ensures Gather(carry, s + [a]) == Gather(carry, s) + carry(a)
  {
    GatherToSame(carry, s, s + [a], |s|);
  }

  lemma GatherSame<A, B>(carry: A -> multiset<B>, s: seq<A>, t: seq<A>)
    requires |s| == |t| && forall k :: 0 <= k < |s| ==> carry(s[k]) == carry(t[k])
    ensures Gather(carry, s) == Gather(carry, t)
  {
    GatherToSame(carry, s, t, |s|);
  }

  lemma {:induction false} GatherToEmpty<A, B>(carry: A -> multiset<B>, s: seq<A>, n: nat)
    requires n <= |s| && forall k :: 0 <= k < n ==> carry(s[k]) == multiset{}
    ensures GatherTo(carry, s, n) == multiset{}
  {
    if n > 0 { GatherToEmpty(carry, s, n - 1); }
  }

  /** Total weight of the first `n` entries of `s`. */
  function WeighTo<A>(f: A -> nat, s: seq<A>, n: nat): nat
    requires n <= |s|
  {
    if n == 0 then 0 else WeighTo(f, s, n - 1) + f(s[n - 1])
  }

  function Weigh<A>(f: A -> nat, s: seq<A>): nat {
    WeighTo(f, s, |s|)
  }

  lemma {:induction false} WeighToUpdate<A>(f: A -> nat, s: seq<A>, i: nat, a: A, n: nat)
    requires n <= |s| && i < |s|
    ensures WeighTo(f, s[i := a], n) == WeighTo(f, s, n) + (if i < n then f(a) - f(s[i]) else 0)
  {
    if n > 0 { WeighToUpdate(f, s, i, a, n - 1); }
  }

  lemma WeighAppend<A>(f: A -> nat, s: seq<A>, a: A)
    ensures Weigh(f, s + [a]) == Weigh(f, s) + f(a)
  {
    WeighToSame(f, s, s + [a], |s|);
  }

  lemma {:induction false} WeighToSame<A>(f: A -> nat, s: seq<A>, t: seq<A>, n: nat)
    requires n <= |s| && n <= |t| && s[..n] == t[..n]
    ensures WeighTo(f, s, n) == WeighTo(f, t, n)
  {
    if n > 0 {
      assert s[n - 1] == s[..n][n - 1] == t[n - 1];
      assert s[..n - 1] == s[..n][..n - 1] == t[..n - 1];
      WeighToSame(f, s, t, n - 1);
    }
  }
}
