/**
 * A map whose entries live as long as a token.  That the last copy of a token
 * is dropped, that its destructor calls `remove`, and that its reference to the
 * value is released are separate steps, so a key can be reserved again while
 * its old token is still dying.
 */
module Bookkeeping {

  import opened Wrappers

  /** Live; destructor entered; `remove` has run; value reference released. */
  datatype Phase = Live | Dying | Removed | Released

  datatype Token<K> = Token(key: K, value: nat, phase: Phase)

  /** `token` is the weak reference kept with the value. */
  datatype Value<V> = Value(value: V, token: Option<nat>)

  /** `held` counts the LValue objects that refer to each value. */
  datatype State<K, V> = State(entries: map<K, nat>, values: seq<Value<V>>, tokens: seq<Token<K>>, held: multiset<nat>)

  /** `WeakToken::lock()` succeeds. */
  predicate TokenLocks<K, V>(s: State<K, V>, t: Option<nat>) {
    t.Some? && t.value < |s.tokens| && s.tokens[t.value].phase.Live?
  }

  /** The weak reference in the map can be locked: some token or LValue still holds the value. */
  predicate ValueLocks<K, V>(s: State<K, V>, v: nat) {
    v in s.held || exists t :: 0 <= t < |s.tokens| && s.tokens[t].value == v && !s.tokens[t].phase.Released?
  }

  /** A new token for value `v`. */
  function Tokened<K, V>(s: State<K, V>, k: K, v: nat): State<K, V>
    requires v < |s.values|
  {
    s.(tokens := s.tokens + [Token(k, v, Live)], values := s.values[v := s.values[v].(token := Some(|s.tokens|))])
  }

  /** A new entry, its value and its token. */
  function Entered<K, V>(s: State<K, V>, k: K, init: V): State<K, V> {
    var v := |s.values|;
    Tokened(s.(entries := s.entries[k := v], values := s.values + [Value(init, None)]), k, v)
  }

  function Reserved<K, V>(s: State<K, V>, k: K, init: V): State<K, V> {
    if k in s.entries then s else Entered(s, k, init)
  }

  function ReReserved<K, V>(s: State<K, V>, k: K, init: V): State<K, V> {
    if k !in s.entries || !ValueLocks(s, s.entries[k]) then Entered(s, k, init)
    else if s.entries[k] < |s.values| && !TokenLocks(s, s.values[s.entries[k]].token) then Tokened(s, k, s.entries[k])
    else s
  }

  /** `remove(k, token)`, called by the destructor of a token, which no longer locks. */
  function WithoutEntry<K, V>(s: State<K, V>, k: K): State<K, V> {
    if k !in s.entries then s
    else
      var v := s.entries[k];
      if ValueLocks(s, v) && v < |s.values| && TokenLocks(s, s.values[v].token) then s
      else s.(entries := s.entries - {k})
  }

  function Lookup<K, V>(s: State<K, V>, k: K): Result<nat> {
    if k in s.entries && s.entries[k] < |s.values| && ValueLocks(s, s.entries[k]) then Success(s.entries[k])
    else Failure(InvalidArgument)
  }

  function Got<K, V>(s: State<K, V>, k: K): Result<V> {
    match Lookup(s, k)
    case Success(v) => if v < |s.values| then Success(s.values[v].value) else Failure(InvalidArgument)
    case Failure(e) => Failure(e)
  }

  function Assigned<K, V>(s: State<K, V>, v: nat, x: V): State<K, V>
    requires v < |s.values|
  {
    s.(values := s.values[v := s.values[v].(value := x)])
  }

  datatype Step<K, V> =
    | Reserve(k: K) | ReReserve(k: K)
    | Die(t: nat) | Remove(t: nat) | Release(t: nat)
    | Set(k: K, x: V) | At(k: K) | Assign(v: nat, x: V) | DropLValue(v: nat)

  predicate Enabled<K, V>(s: State<K, V>, e: Step<K, V>) {
    match e
    case Die(t) => t < |s.tokens| && s.tokens[t].phase.Live?
    case Remove(t) => t < |s.tokens| && s.tokens[t].phase.Dying?
    case Release(t) => t < |s.tokens| && s.tokens[t].phase.Removed?
    case Assign(v, _) => v in s.held && v < |s.values|
    case DropLValue(v) => v in s.held
    case _ => true
  }

  function Phased<K, V>(s: State<K, V>, t: nat, p: Phase): State<K, V>
    requires t < |s.tokens|
  {
    s.(tokens := s.tokens[t := s.tokens[t].(phase := p)])
  }

  function Apply<K, V>(s: State<K, V>, e: Step<K, V>, init: V): State<K, V>
    requires Enabled(s, e)
  {
    match e
    case Reserve(k) => Reserved(s, k, init)
    case ReReserve(k) => ReReserved(s, k, init)
    case Die(t) => Phased(s, t, Dying)
    case Remove(t) => Phased(WithoutEntry(s, s.tokens[t].key), t, Removed)
    case Release(t) => Phased(s, t, Released)
    case Set(k, x) => (match Lookup(s, k)
      case Success(v) => if v < |s.values| then Assigned(s, v, x) else s
      case Failure(_) => s)
    case At(k) => (match Lookup(s, k) case Success(v) => s.(held := s.held + multiset{v}) case Failure(_) => s)
    case Assign(v, x) => Assigned(s, v, x)
    case DropLValue(v) => s.(held := s.held - multiset{v})
  }

  ghost predicate StepAt<K, V>(r: seq<State<K, V>>, es: seq<Step<K, V>>, init: V, i: nat)
    requires |r| == |es| + 1 && i < |es|
  {
    Enabled(r[i], es[i]) && r[i + 1] == Apply(r[i], es[i], init)
  }

  ghost predicate IsRun<K, V>(r: seq<State<K, V>>, es: seq<Step<K, V>>, init: V) {
    && |r| == |es| + 1 && r[0] == State(map[], [], [], multiset{})
    && forall i {:trigger StepAt(r, es, init, i)} :: 0 <= i < |es| ==> StepAt(r, es, init, i)
  }

  // ------------------------------------------------------------------
  // Invariant

  /** An entry's value knows a token of that key that is alive or has not yet called `remove`. */
  ghost predicate EntryOk<K, V>(s: State<K, V>, k: K)
    requires k in s.entries
  {
    var v := s.entries[k];
    && v < |s.values| && s.values[v].token.Some? && s.values[v].token.value < |s.tokens|
    && var t := s.tokens[s.values[v].token.value]; t.key == k && t.value == v && (t.phase.Live? || t.phase.Dying?)
  }

  /** A live token's entry is in the map and refers back to it. */
  ghost predicate TokenOk<K, V>(s: State<K, V>, t: nat)
    requires t < |s.tokens|
  {
    var token := s.tokens[t];
    && token.value < |s.values|
    && (token.phase.Live? ==>
          token.key in s.entries && s.entries[token.key] == token.value && s.values[token.value].token == Some(t))
  }

  ghost predicate Inv<K, V>(s: State<K, V>) {
    && (forall k :: k in s.entries ==> EntryOk(s, k))
    && (forall t :: 0 <= t < |s.tokens| ==> TokenOk(s, t))
    && (forall v :: v in s.held ==> v < |s.values|)
  }

  lemma EntryLocks<K, V>(s: State<K, V>, k: K)
    requires Inv(s) && k in s.entries
    ensures ValueLocks(s, s.entries[k])
  {
    assert EntryOk(s, k);
    assert s.tokens[s.values[s.entries[k]].token.value].value == s.entries[k];
  }

  lemma EnterStep<K, V>(s: State<K, V>, k: K, init: V)
    requires Inv(s) && k !in s.entries
    ensures Inv(Entered(s, k, init))
  {
    var n := Entered(s, k, init);
    forall x | x in n.entries ensures EntryOk(n, x) {
      if x != k { assert EntryOk(s, x); }
    }
    forall t | 0 <= t < |n.tokens| ensures TokenOk(n, t) {
      if t < |s.tokens| { assert TokenOk(s, t); }
    }
  }

  /** Reserving again while the old token is dying gives the old value a new token. */
  lemma RetokenStep<K, V>(s: State<K, V>, k: K)
    requires Inv(s) && k in s.entries && !TokenLocks(s, s.values[s.entries[k]].token)
    requires s.entries[k] < |s.values|
    ensures Inv(Tokened(s, k, s.entries[k]))
  {
    var n := Tokened(s, k, s.entries[k]);
    assert EntryOk(s, k);
    forall x | x in n.entries ensures EntryOk(n, x) {
      assert EntryOk(s, x);
    }
    forall t | 0 <= t < |n.tokens| ensures TokenOk(n, t) {
      if t < |s.tokens| { assert TokenOk(s, t); }
    }
  }

  lemma RemoveStep<K, V>(s: State<K, V>, t: nat)
    requires Inv(s) && t < |s.tokens| && s.tokens[t].phase.Dying?
    ensures Inv(Phased(WithoutEntry(s, s.tokens[t].key), t, Removed))
  {
    var k := s.tokens[t].key;
    var n := Phased(WithoutEntry(s, k), t, Removed);
    if k in s.entries { EntryLocks(s, k); assert EntryOk(s, k); }
    forall x | x in n.entries ensures EntryOk(n, x) {
      assert EntryOk(s, x);
    }
    forall u | 0 <= u < |n.tokens| ensures TokenOk(n, u) {
      assert TokenOk(s, u);
    }
  }

  lemma PhaseStep<K, V>(s: State<K, V>, t: nat, p: Phase)
    requires Inv(s) && t < |s.tokens|
    requires (s.tokens[t].phase.Live? && p.Dying?) || (s.tokens[t].phase.Removed? && p.Released?)
    ensures Inv(Phased(s, t, p))
  {
    var n := Phased(s, t, p);
    forall x | x in n.entries ensures EntryOk(n, x) {
      assert EntryOk(s, x);
    }
    forall u | 0 <= u < |n.tokens| ensures TokenOk(n, u) {
      assert TokenOk(s, u);
    }
  }

  lemma AssignStep<K, V>(s: State<K, V>, v: nat, x: V)
    requires Inv(s) && v < |s.values|
    ensures Inv(Assigned(s, v, x))
  {
    var n := Assigned(s, v, x);
    forall k | k in n.entries ensures EntryOk(n, k) {
      assert EntryOk(s, k);
    }
    forall u | 0 <= u < |n.tokens| ensures TokenOk(n, u) {
      assert TokenOk(s, u);
    }
  }

  lemma HeldStep<K, V>(s: State<K, V>, held: multiset<nat>)
    requires Inv(s) && forall v :: v in held ==> v < |s.values|
    ensures Inv(s.(held := held))
  {
    var n := s.(held := held);
    forall k | k in n.entries ensures EntryOk(n, k) {
      assert EntryOk(s, k);
    }
    forall u | 0 <= u < |n.tokens| ensures TokenOk(n, u) {
      assert TokenOk(s, u);
    }
  }

  lemma InvStep<K, V>(s: State<K, V>, e: Step<K, V>, init: V)
    requires Inv(s) && Enabled(s, e)
    ensures Inv(Apply(s, e, init))
  {
    match e
    case Reserve(k) => if k !in s.entries { EnterStep(s, k, init); }
    case ReReserve(k) =>
      if k !in s.entries { EnterStep(s, k, init); }
      else {
        EntryLocks(s, k);
        if !TokenLocks(s, s.values[s.entries[k]].token) { RetokenStep(s, k); }
      }
    case Die(t) => PhaseStep(s, t, Dying);
    case Remove(t) => RemoveStep(s, t);
    case Release(t) => PhaseStep(s, t, Released);
    case Set(k, x) => if Lookup(s, k).Success? { AssignStep(s, Lookup(s, k).value, x); }
    case At(k) => if Lookup(s, k).Success? { HeldStep(s, s.held + multiset{Lookup(s, k).value}); }
    case Assign(v, x) => AssignStep(s, v, x);
    case DropLValue(v) => HeldStep(s, s.held - multiset{v});
  }

  lemma {:induction false} InvAlways<K, V>(r: seq<State<K, V>>, es: seq<Step<K, V>>, init: V, i: nat)
    requires IsRun(r, es, init) && i < |r|
    ensures Inv(r[i])
  {
    if i > 0 {
      InvAlways(r, es, init, i - 1);
      assert StepAt(r, es, init, i - 1);
      InvStep(r[i - 1], es[i - 1], init);
    }
  }

  // ------------------------------------------------------------------
  // Results about every run

  /**
   * Entries follow tokens.  A key with a live token is in the map with that
   * token's value, and has no other live token; a key with neither a live token
   * nor one whose destructor has yet to call `remove` is absent; and the
   * reference kept in the map can always be locked.
   */
  lemma EntriesFollowTokens<K, V>(r: seq<State<K, V>>, es: seq<Step<K, V>>, init: V, i: nat, k: K)
    requires IsRun(r, es, init) && i < |r|
    ensures var s := r[i];
      && (forall t :: 0 <= t < |s.tokens| && s.tokens[t].key == k && s.tokens[t].phase.Live? ==>
            k in s.entries && s.entries[k] == s.tokens[t].value && Got(s, k).Success?)
      && (forall t, u :: (0 <= t < |s.tokens| && 0 <= u < |s.tokens| && s.tokens[t].key == k == s.tokens[u].key
                          && s.tokens[t].phase.Live? && s.tokens[u].phase.Live?) ==> t == u)
      && (k in s.entries <==> Got(s, k).Success?)
      && (k in s.entries ==>
            && ValueLocks(s, s.entries[k])
            && exists t :: (0 <= t < |s.tokens| && s.tokens[t].key == k
                            && (s.tokens[t].phase.Live? || s.tokens[t].phase.Dying?)))
  {
    InvAlways(r, es, init, i);
    var s := r[i];
    forall t | 0 <= t < |s.tokens| && s.tokens[t].key == k && s.tokens[t].phase.Live?
      ensures k in s.entries && s.entries[k] == s.tokens[t].value && Got(s, k).Success?
      ensures s.values[s.entries[k]].token == Some(t)
    {
      assert TokenOk(s, t);
      EntryLocks(s, k);
    }
    if k in s.entries {
      EntryLocks(s, k);
      assert EntryOk(s, k);
      assert s.tokens[s.values[s.entries[k]].token.value].key == k;
    }
  }

  predicate Changes<K(==), V>(e: Step<K, V>, k: K, v: nat) {
    (e.Set? && e.k == k) || (e.Assign? && e.v == v)
  }

  /** One step leaves the value behind a live token alone unless it sets that value or kills that token. */
  lemma ValueKept<K, V>(s: State<K, V>, e: Step<K, V>, init: V, t: nat)
    requires Inv(s) && Enabled(s, e) && t < |s.tokens| && s.tokens[t].phase.Live? && e != Die(t)
    requires !Changes(e, s.tokens[t].key, s.tokens[t].value)
    ensures var n := Apply(s, e, init);
      t < |n.tokens| && n.tokens[t] == s.tokens[t] && Got(s, s.tokens[t].key).Success?
      && Got(n, s.tokens[t].key) == Got(s, s.tokens[t].key)
  {
    var k, n := s.tokens[t].key, Apply(s, e, init);
    assert TokenOk(s, t);
    EntryLocks(s, k);
    InvStep(s, e, init);
    assert n.tokens[t] == s.tokens[t];
    assert TokenOk(n, t);
    EntryLocks(n, k);
    if e.Set? && e.k in s.entries {
      assert EntryOk(s, e.k) && EntryOk(s, k);
      assert s.entries[e.k] != s.entries[k];
    }
  }

  lemma StaysLive<K, V>(s: State<K, V>, e: Step<K, V>, init: V, t: nat)
    requires Enabled(s, e) && t < |s.tokens| && t < |Apply(s, e, init).tokens|
    requires Apply(s, e, init).tokens[t].phase.Live?
    ensures s.tokens[t].phase.Live? && e != Die(t)
  {
  }

  /**
   * While a token lives its key keeps its value: whatever older tokens of the
   * same key are still dying, and whatever happens to other keys, `get` returns
   * what it returned before until the value itself is set.
   */
  lemma {:induction false} LiveTokenKeepsValue<K, V>(r: seq<State<K, V>>, es: seq<Step<K, V>>, init: V, i: nat,
                                                     j: nat, t: nat)
    requires IsRun(r, es, init) && i <= j < |r| && t < |r[i].tokens| && t < |r[j].tokens| && r[j].tokens[t].phase.Live?
    requires forall m :: i <= m < j ==> !Changes(es[m], r[i].tokens[t].key, r[i].tokens[t].value)
    ensures r[j].tokens[t] == r[i].tokens[t] && Got(r[i], r[i].tokens[t].key).Success?
    ensures Got(r[j], r[i].tokens[t].key) == Got(r[i], r[i].tokens[t].key)
    decreases j - i
  {
    InvAlways(r, es, init, i);
    if i == j {
      assert TokenOk(r[i], t);
      EntryLocks(r[i], r[i].tokens[t].key);
    } else {
      assert StepAt(r, es, init, i);
      assert !Changes(es[i], r[i].tokens[t].key, r[i].tokens[t].value);
      TokensGrow(r[i], es[i], init, t);
      LiveAtEnd(r, es, init, i + 1, j, t);
      StaysLive(r[i], es[i], init, t);
      ValueKept(r[i], es[i], init, t);
      LiveTokenKeepsValue(r, es, init, i + 1, j, t);
    }
  }

  lemma TokensGrow<K, V>(s: State<K, V>, e: Step<K, V>, init: V, t: nat)
    requires Enabled(s, e) && t < |s.tokens|
    ensures t < |Apply(s, e, init).tokens|
    ensures Apply(s, e, init).tokens[t].key == s.tokens[t].key && Apply(s, e, init).tokens[t].value == s.tokens[t].value
  {
  }

  /** A token that lives later has lived before. */
  lemma {:induction false} LiveAtEnd<K, V>(r: seq<State<K, V>>, es: seq<Step<K, V>>, init: V, i: nat, j: nat, t: nat)
    requires IsRun(r, es, init) && i <= j < |r| && t < |r[i].tokens| && t < |r[j].tokens| && r[j].tokens[t].phase.Live?
    ensures r[i].tokens[t].phase.Live?
    decreases j - i
  {
    if i < j {
      assert StepAt(r, es, init, i);
      TokensGrow(r[i], es[i], init, t);
      LiveAtEnd(r, es, init, i + 1, j, t);
      StaysLive(r[i], es[i], init, t);
    }
  }

  /** `set` on a key with a live token stores the value that `get` then returns. */
  lemma SetThenGet<K, V>(r: seq<State<K, V>>, es: seq<Step<K, V>>, init: V, i: nat, t: nat, x: V)
    requires IsRun(r, es, init) && i < |r| && t < |r[i].tokens| && r[i].tokens[t].phase.Live?
    ensures Got(Apply(r[i], Set(r[i].tokens[t].key, x), init), r[i].tokens[t].key) == Success(x)
  {
    InvAlways(r, es, init, i);
    var s, k := r[i], r[i].tokens[t].key;
    assert TokenOk(s, t);
    EntryLocks(s, k);
    InvStep(s, Set(k, x), init);
    EntryLocks(Apply(s, Set(k, x), init), k);
  }

  /** What is assigned through the LValue that `at` gives is what `get` then returns. */
  lemma AssignThenGet<K, V>(r: seq<State<K, V>>, es: seq<Step<K, V>>, init: V, i: nat, t: nat, x: V)
    requires IsRun(r, es, init) && i < |r| && t < |r[i].tokens| && r[i].tokens[t].phase.Live?
    ensures var k, v := r[i].tokens[t].key, r[i].tokens[t].value;
      var n := Apply(r[i], At(k), init);
      && n.held == r[i].held + multiset{v} && Got(n, k) == Got(r[i], k)
      && Enabled(n, Assign(v, x)) && Got(Apply(n, Assign(v, x), init), k) == Success(x)
  {
    InvAlways(r, es, init, i);
    var s, k, v := r[i], r[i].tokens[t].key, r[i].tokens[t].value;
    assert TokenOk(s, t);
    EntryLocks(s, k);
    InvStep(s, At(k), init);
    var n := Apply(s, At(k), init);
    EntryLocks(n, k);
    InvStep(n, Assign(v, x), init);
    EntryLocks(Apply(n, Assign(v, x), init), k);
  }

  /** Token `t` is the only one that still refers to value `v`. */
  predicate LastToken<K, V>(s: State<K, V>, t: nat, v: nat) {
    t < |s.tokens| && s.tokens[t].value == v && s.tokens[t].phase.Removed?
    && forall u :: 0 <= u < |s.tokens| && u != t && s.tokens[u].value == v ==> s.tokens[u].phase.Released?
  }

  /** A value is gone when the last token or LValue that refers to it is released, and not before. */
  lemma LastReferenceGone<K, V>(r: seq<State<K, V>>, es: seq<Step<K, V>>, init: V, i: nat, t: nat, v: nat)
    requires IsRun(r, es, init) && i < |r|
    ensures LastToken(r[i], t, v) && v !in r[i].held ==>
      ValueLocks(r[i], v) && !ValueLocks(Apply(r[i], Release(t), init), v)
    ensures LastToken(r[i], t, v) && v in r[i].held ==>
      ValueLocks(Apply(r[i], Release(t), init), v)
      && (r[i].held[v] == 1 ==> !ValueLocks(Apply(Apply(r[i], Release(t), init), DropLValue(v), init), v))
      && (r[i].held[v] > 1 ==> ValueLocks(Apply(Apply(r[i], Release(t), init), DropLValue(v), init), v))
  {
  }

  /** State `n` has one token more than `s`, a live one for key `k`. */
  predicate NewToken<K(==), V>(s: State<K, V>, n: State<K, V>, k: K) {
    |n.tokens| == |s.tokens| + 1 && n.tokens[|s.tokens|].key == k && n.tokens[|s.tokens|].phase.Live?
  }

  /**
   * `reserve` fails exactly when the key is in the map; otherwise it and
   * `reReserve` give a live token for the default value.
   */
  lemma ReserveGivesToken<K, V>(r: seq<State<K, V>>, es: seq<Step<K, V>>, init: V, i: nat, k: K)
    requires IsRun(r, es, init) && i < |r|
    ensures k in r[i].entries ==> Apply(r[i], Reserve(k), init) == r[i]
    ensures k !in r[i].entries ==> Apply(r[i], Reserve(k), init) == Apply(r[i], ReReserve(k), init)
    ensures k !in r[i].entries ==> NewToken(r[i], Apply(r[i], Reserve(k), init), k)
    ensures k !in r[i].entries ==> Got(Apply(r[i], Reserve(k), init), k) == Success(init)
  {
    InvAlways(r, es, init, i);
    if k !in r[i].entries {
      EnterStep(r[i], k, init);
      EntryLocks(Entered(r[i], k, init), k);
    }
  }

  /**
   * `reReserve` while the old token is dying: a live token for the same value,
   * which the old destructor then leaves in place.
   */
  lemma ReReserveWhileDying<K, V>(r: seq<State<K, V>>, es: seq<Step<K, V>>, init: V, i: nat, dying: nat)
    requires IsRun(r, es, init) && i < |r| && dying < |r[i].tokens| && r[i].tokens[dying].phase.Dying?
    requires r[i].tokens[dying].key in r[i].entries && r[i].entries[r[i].tokens[dying].key] < |r[i].values|
    requires !TokenLocks(r[i], r[i].values[r[i].entries[r[i].tokens[dying].key]].token)
    ensures var k, n := r[i].tokens[dying].key, Apply(r[i], ReReserve(r[i].tokens[dying].key), init);
      && |n.tokens| == |r[i].tokens| + 1 && n.tokens[|r[i].tokens|].phase.Live?
      && Got(n, k) == Got(r[i], k) && Got(n, k).Success?
      && Enabled(n, Remove(dying)) && Apply(n, Remove(dying), init).entries == n.entries
      && Got(Apply(n, Remove(dying), init), k) == Got(n, k)
  {
    InvAlways(r, es, init, i);
    var s, k := r[i], r[i].tokens[dying].key;
    assert EntryOk(s, k);
    EntryLocks(s, k);
    RetokenStep(s, k);
    var n := Apply(s, ReReserve(k), init);
    EntryLocks(n, k);
    RemoveStep(n, dying);
    EntryLocks(Apply(n, Remove(dying), init), k);
  }

  // ------------------------------------------------------------------
  // The class

  class MapBase<K(==), V(==)> {
    var entries: map<K, nat>
    var values: seq<Value<V>>
    var tokens: seq<Token<K>>
    var held: multiset<nat>
    const init: V

    function Contents(): State<K, V>
      reads this
    {
      State(entries, values, tokens, held)
    }

    constructor (init: V)
      ensures Contents() == State(map[], [], [], multiset{}) && this.init == init
    {
      this.init := init;
      entries, values, tokens, held := map[], [], [], multiset{};
    }

    /** `MapTokenImpl::create(k)`, `t.add(pv)`, `pv->token = t` */
    method CreateToken(k: K, v: nat) returns (t: nat)
      requires v < |values|
      modifies this`tokens, this`values
      ensures t == |old(tokens)| && Contents() == Tokened(old(Contents()), k, v)
    {
      t := |tokens|;
      tokens := tokens + [Token(k, v, Live)];
      values := values[v := values[v].(token := Some(t))];
    }

    method Reserve(k: K) returns (r: Result<nat>)
      modifies this
      ensures Contents() == Reserved(old(Contents()), k, init)
      ensures r == if k in old(entries) then Failure(InvalidArgument) else Success(|old(tokens)|)
    {
      if k in entries {
        return Failure(InvalidArgument);
      }
      var pv := |values|;
      values := values + [Value(init, None)];
      entries := entries[k := pv];
      var t := CreateToken(k, pv);
      return Success(t);
    }

    method ReReserve(k: K) returns (t: nat)
      requires k in entries ==> entries[k] < |values|
      modifies this
      ensures Contents() == ReReserved(old(Contents()), k, init)
      ensures k in entries && entries[k] < |values| && values[entries[k]].token == Some(t)
      ensures TokenLocks(Contents(), Some(t))
    {
      var found := k in entries && ValueLocks(Contents(), entries[k]);
      var pv := if found then entries[k] else |values|;
      if !found {
        values := values + [Value(init, None)];
        entries := entries[k := pv];
      }
      if TokenLocks(Contents(), values[pv].token) {
        t := values[pv].token.value;
      } else {
        t := CreateToken(k, pv);
      }
    }

    /** `remove(k, wt)` as the destructor of a token calls it: `wt` does not lock any more. */
    method RemoveToken(k: K)
      requires k in entries ==> entries[k] < |values|
      modifies this`entries
      ensures Contents() == WithoutEntry(old(Contents()), k)
    {
      if k in entries {
        var pv := entries[k];
        if ValueLocks(Contents(), pv) {
          if !TokenLocks(Contents(), values[pv].token) {
            entries := entries - {k};
          }
        } else {
          entries := entries - {k};
        }
      }
    }

    method SetValue(k: K, v: V) returns (r: Result<()>)
      requires k in entries ==> entries[k] < |values|
      modifies this`values
      ensures Contents() == Apply(old(Contents()), Set(k, v), init)
      ensures r.Success? <==> Lookup(old(Contents()), k).Success?
    {
      if k in entries {
        var pv := entries[k];
        if ValueLocks(Contents(), pv) {
          values := values[pv := values[pv].(value := v)];
          return Success(());
        }
      }
      return Failure(InvalidArgument);
    }

    method GetValue(k: K) returns (r: Result<V>)
      requires k in entries ==> entries[k] < |values|
      ensures r == Got(Contents(), k)
    {
      if k in entries {
        var pv := entries[k];
        if ValueLocks(Contents(), pv) {
          return Success(values[pv].value);
        }
      }
      return Failure(InvalidArgument);
    }
  }
}
