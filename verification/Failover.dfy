/** The RPC retry loop: a bounded rotation over the configured endpoints. */
module Failover {
  import opened Arithmetic

  /** How one attempt ends: with a value, or with an error that is or is not worth a retry. */
  datatype Attempt<+T> = Success(value: T) | Transient | Fatal

  function Attempts(n: nat): nat {
    if 4 < n * 2 then n * 2 else 4
  }

  /** The endpoint of the i-th attempt of a rotation that starts at `start`. */
  function Endpoint(start: nat, i: nat, n: nat): nat
    requires 0 < n
  {
    (start + i) % n
  }

  lemma {:induction false} Wraps(a: int, n: int)
    requires 0 < n && 0 <= a < 2 * n
    ensures a % n == if a < n then a else a - n
  {
    if n <= a {
      assert a == n + (a - n);
    }
  }

  lemma {:induction false} NextEndpoint(start: nat, i: nat, n: nat)
    requires 0 < n
    ensures Endpoint(start, i + 1, n) == (Endpoint(start, i, n) + 1) % n
  {
    var q, r := (start + i) / n, (start + i) % n;
    assert start + i == n * q + r;
    Wraps(r + 1, n);
    if r + 1 < n {
      ModUnique(start + i + 1, n, q, r + 1);
    } else {
      assert n * (q + 1) == n * q + n;
      ModUnique(start + i + 1, n, q + 1, 0);
    }
  }

  /** Any `2n` attempts in a row visit every endpoint at least twice, wherever they start. */
  lemma {:induction false} EveryEndpointTwice(start: nat, n: nat, e: nat)
    requires start < n && e < n
    ensures exists i, j ::
      0 <= i < j < (if n <= 2 then 4 else 2 * n) && Endpoint(start, i, n) == e && Endpoint(start, j, n) == e
  {
    var i := if start <= e then e - start else e - start + n;
    if start <= e {
      ModUnique(start + i, n, 0, e);
      ModUnique(start + (i + n), n, 1, e);
    } else {
      ModUnique(start + i, n, 1, e);
      ModUnique(start + (i + n), n, 2, e);
    }
    assert Endpoint(start, i, n) == e && Endpoint(start, i + n, n) == e;
  }

  predicate TriedTwice(tried: seq<nat>, e: nat) {
    exists i, j :: 0 <= i < j < |tried| && tried[i] == e && tried[j] == e
  }

  /** A full rotation tries every endpoint twice. */
  lemma {:induction false} RotationCovers(start: nat, n: nat, tried: seq<nat>)
    requires start < n && |tried| == Attempts(n)
    requires forall i | 0 <= i < |tried| :: tried[i] == Endpoint(start, i, n)
    ensures forall e | 0 <= e < n :: TriedTwice(tried, e)
  {
    forall e | 0 <= e < n ensures TriedTwice(tried, e) {
      EveryEndpointTwice(start, n, e);
      var i, j :| 0 <= i < j < |tried| && Endpoint(start, i, n) == e && Endpoint(start, j, n) == e;
      assert tried[i] == e && tried[j] == e;
    }
  }

  class RpcPool {
    /** Number of configured endpoints; the public defaults make it at least one. */
    const n: nat
    /** Index of the active endpoint, which the clients and the server are read from. */
    var activeRpc: nat

    ghost predicate Valid()
      reads this
    { activeRpc < n }

    constructor (n: nat)
      requires 0 < n
      ensures Valid() && this.n == n && activeRpc == 0
    {
      this.n := n;
      activeRpc := 0;
    }

    /**
     * `attempt(i, e)` is what the call does the i-th time, on endpoint `e`. The
     * first attempt that is not a transient error decides; only when all attempts
     * failed transiently, on every endpoint at least twice, is that the result.
     */
    method WithRpcRetry<T>(attempt: (nat, nat) -> Attempt<T>) returns (r: Attempt<T>, tried: seq<nat>)
      requires Valid()
      modifies this
      ensures 1 <= |tried| <= (if n <= 2 then 4 else 2 * n)
      ensures Valid() && activeRpc == Endpoint(old(activeRpc), |tried| - 1, n)
      ensures forall i | 0 <= i < |tried| :: tried[i] == Endpoint(old(activeRpc), i, n)
      ensures forall i | 0 <= i < |tried| - 1 :: attempt(i, tried[i]) == Transient
      ensures r == attempt(|tried| - 1, tried[|tried| - 1])
      ensures r == Transient ==> |tried| == (if n <= 2 then 4 else 2 * n)
      ensures r == Transient ==> forall e | 0 <= e < n :: TriedTwice(tried, e)
    {
      var attempts := Attempts(n);
      tried := [];
      var i := 0;
      ModUnique(activeRpc, n, 0, activeRpc);
      r := Transient;
      while i < attempts
        invariant Valid() && 0 <= i < attempts == Attempts(n) && |tried| == i
        invariant activeRpc == Endpoint(old(activeRpc), i, n)
        invariant forall k | 0 <= k < i :: tried[k] == Endpoint(old(activeRpc), k, n)
        invariant forall k | 0 <= k < i :: attempt(k, tried[k]) == Transient
      {
        tried := tried + [activeRpc];
        r := attempt(i, activeRpc);
        if i == attempts - 1 || r != Transient { break; }
        NextEndpoint(old(activeRpc), i, n);
        if 1 < n {
          activeRpc := (activeRpc + 1) % n;
        }
        i := i + 1;
      }
      if r == Transient {
        RotationCovers(old(activeRpc), n, tried);
      }
    }
  }
}
