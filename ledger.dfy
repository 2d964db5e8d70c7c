/**
 The balance ledger of the token: holder addresses, the balance map (an
 absent key reads as zero), and the sum of all balances, together with the
 three writes the token performs on it (credit, debit, move) and what each
 does to that sum.
 */
module Ledger {

  /** An account or contract address; `Null` is the reserved 0x0 address. */
  type Addr = nat

  const Null: Addr := 0

  /** Reads a map whose absent keys stand for zero. */
  function Get<K>(m: map<K, nat>, k: K): (v: nat)
    ensures k !in m ==> v == 0
    ensures k in m ==> v == m[k]
  {
    if k in m then m[k] else 0
  }

  /** The sum of all balances held in `m`. */
  ghost function Sum(m: map<Addr, nat>): nat
    decreases |m|
  {
    if m == map[] then 0
    else
      var k :| k in m;
      m[k] + Sum(m - {k})
  }

  /** Any key can be taken out first: the sum does not depend on the order. */
  lemma {:induction false} SumRemove(m: map<Addr, nat>, k: Addr)
    requires k in m
    ensures Sum(m) == m[k] + Sum(m - {k})
    decreases |m|
  {
    var j :| j in m && Sum(m) == m[j] + Sum(m - {j});
    if j != k {
      var mj, mk := m - {j}, m - {k};
      SumRemove(mj, k);
      SumRemove(mk, j);
      assert mj - {k} == mk - {j};
    }
  }

  /** No single balance exceeds the sum of all balances. */
  lemma SumBound(m: map<Addr, nat>, k: Addr)
    ensures Get(m, k) <= Sum(m)
  {
    if k in m {
      SumRemove(m, k);
    }
  }

  /** Overwriting one balance changes the sum by the difference. */
  lemma SumUpdate(m: map<Addr, nat>, k: Addr, v: nat)
    ensures Sum(m[k := v]) + Get(m, k) == Sum(m) + v
  {
    var m' := m[k := v];
    SumRemove(m', k);
    if k in m {
      SumRemove(m, k);
      assert m' - {k} == m - {k};
    } else {
      assert m' - {k} == m;
    }
  }

  /** Adds `v` to the balance of `to`. */
  function Credit(m: map<Addr, nat>, to: Addr, v: nat): (r: map<Addr, nat>)
    ensures Get(r, to) == Get(m, to) + v
    ensures forall a :: a != to ==> Get(r, a) == Get(m, a)
    ensures Sum(r) == Sum(m) + v
  {
    SumUpdate(m, to, Get(m, to) + v);
    m[to := Get(m, to) + v]
  }

  /** Takes `v` from the balance of `from`, which must hold at least `v`. */
  function Debit(m: map<Addr, nat>, from: Addr, v: nat): (r: map<Addr, nat>)
    requires Get(m, from) >= v
    ensures Get(r, from) == Get(m, from) - v
    ensures forall a :: a != from ==> Get(r, a) == Get(m, a)
    ensures Sum(r) == Sum(m) - v
  {
    SumUpdate(m, from, Get(m, from) - v);
    m[from := Get(m, from) - v]
  }

  /** The balances after `from` has moved `v` to `to`. */
  ghost predicate Moved(m: map<Addr, nat>, r: map<Addr, nat>, from: Addr, to: Addr, v: nat)
  {
    && (from != to ==> Get(r, from) == Get(m, from) - v && Get(r, to) == Get(m, to) + v)
    && (from == to ==> Get(r, from) == Get(m, from))
    && (forall a :: a != from && a != to ==> Get(r, a) == Get(m, a))
  }

  /** Debits `from` and credits `to` by the same amount; the sum is unchanged. */
  function Move(m: map<Addr, nat>, from: Addr, to: Addr, v: nat): (r: map<Addr, nat>)
    requires Get(m, from) >= v
    ensures Moved(m, r, from, to, v)
    ensures Sum(r) == Sum(m)
  {
    Credit(Debit(m, from, v), to, v)
  }
}
