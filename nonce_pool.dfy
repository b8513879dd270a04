/**
 * The client's pool of recently used Interest nonces (the vector m_nonces
 * and getNewNonce). This module gives the pure meaning of one draw; the
 * client class performs it in place with the same retry loop as the source.
 *
 * The random generator is an oracle: a draw is given the sequence of words
 * the generator would return, and keeps the first one not already pooled.
 */
module NoncePool {
  import opened Common

  /** The pool is emptied once it holds this many nonces. */
  const Capacity: nat := 1000

  /** No nonce occurs twice. */
  predicate Distinct(pool: seq<Word32>) {
    forall i, j :: 0 <= i < j < |pool| ==> pool[i] != pool[j]
  }

  /** The pool as the lookup sees it: emptied first when it has reached capacity. */
  function Cleared(pool: seq<Word32>): seq<Word32> {
    if |pool| >= Capacity then [] else pool
  }

  /** The generator eventually yields a word that is not in the pool. */
  predicate HasFresh(pool: seq<Word32>, candidates: seq<Word32>) {
    exists i :: 0 <= i < |candidates| && candidates[i] !in pool
  }

  /** Position of the first generated word not already in the pool: every earlier one was a collision. */
  function FirstFresh(pool: seq<Word32>, candidates: seq<Word32>): (i: nat)
    requires HasFresh(pool, candidates)
    ensures i < |candidates| && candidates[i] !in pool
    ensures forall j :: 0 <= j < i ==> candidates[j] in pool
    decreases |candidates|
  {
    if candidates[0] !in pool then 0
    else
      assert HasFresh(pool, candidates[1..]) by {
        var k :| 0 <= k < |candidates| && candidates[k] !in pool;
        assert candidates[1..][k - 1] == candidates[k];
      }
      1 + FirstFresh(pool, candidates[1..])
  }

  /** The first-fresh position is the only position that is fresh with every earlier word pooled. */
  lemma FirstFreshUnique(pool: seq<Word32>, candidates: seq<Word32>, i: nat)
    requires i < |candidates| && candidates[i] !in pool
    requires forall j :: 0 <= j < i ==> candidates[j] in pool
    ensures HasFresh(pool, candidates) && FirstFresh(pool, candidates) == i
  {
    var f := FirstFresh(pool, candidates);
    assert !(f < i) && !(i < f);
  }

  /** One getNewNonce call: the nonce returned and the pool afterwards. */
  function Draw(pool: seq<Word32>, candidates: seq<Word32>): (r: (Word32, seq<Word32>))
    requires HasFresh(Cleared(pool), candidates)
    ensures r.0 in candidates && r.0 !in Cleared(pool)
    ensures r.1 == Cleared(pool) + [r.0]
  {
    var nonce := candidates[FirstFresh(Cleared(pool), candidates)];
    (nonce, Cleared(pool) + [nonce])
  }

  /** A pool that is within capacity stays within capacity: a full pool restarts at one entry, any other grows by one. */
  lemma DrawBounded(pool: seq<Word32>, candidates: seq<Word32>)
    requires HasFresh(Cleared(pool), candidates)
    ensures |pool| >= Capacity ==> |Draw(pool, candidates).1| == 1
    ensures |pool| < Capacity ==> |Draw(pool, candidates).1| == |pool| + 1
    ensures |pool| <= Capacity ==> |Draw(pool, candidates).1| <= Capacity
  {
  }

  /** Drawing keeps the pool's entries pairwise distinct. */
  lemma DrawKeepsDistinct(pool: seq<Word32>, candidates: seq<Word32>)
    requires HasFresh(Cleared(pool), candidates)
    requires Distinct(pool)
    ensures Distinct(Draw(pool, candidates).1)
  {
  }

  /** Every successive draw in a run of getNewNonce calls finds a fresh word. */
  predicate CanDrawAll(pool: seq<Word32>, oracles: seq<seq<Word32>>)
    decreases |oracles|
  {
    |oracles| == 0 ||
    (HasFresh(Cleared(pool), oracles[0]) && CanDrawAll(Draw(pool, oracles[0]).1, oracles[1..]))
  }

  /** The nonces returned by successive getNewNonce calls, one oracle per call, and the final pool. */
  function DrawMany(pool: seq<Word32>, oracles: seq<seq<Word32>>): (r: (seq<Word32>, seq<Word32>))
    requires CanDrawAll(pool, oracles)
    ensures |r.0| == |oracles|
    decreases |oracles|
  {
    if |oracles| == 0 then ([], pool)
    else
      var (nonce, next) := Draw(pool, oracles[0]);
      var (rest, last) := DrawMany(next, oracles[1..]);
      ([nonce] + rest, last)
  }

  /**
   * Within one pool window no nonce repeats: starting from a distinct pool
   * below capacity, as long as the calls do not fill it past capacity, the
   * returned nonces are pairwise distinct, differ from everything already
   * pooled, and are exactly what is appended to the pool.
   */
  lemma {:induction false} DrawManyDistinct(pool: seq<Word32>, oracles: seq<seq<Word32>>)
    requires CanDrawAll(pool, oracles)
    requires Distinct(pool)
    requires |pool| + |oracles| <= Capacity
    ensures DrawMany(pool, oracles).1 == pool + DrawMany(pool, oracles).0
    ensures Distinct(DrawMany(pool, oracles).1)
    ensures Distinct(DrawMany(pool, oracles).0)
    ensures forall n :: n in DrawMany(pool, oracles).0 ==> n !in pool
    decreases |oracles|
  {
    if |oracles| > 0 {
      var d := Draw(pool, oracles[0]);
      DrawKeepsDistinct(pool, oracles[0]);
      assert d.1 == pool + [d.0];
      DrawManyDistinct(d.1, oracles[1..]);
      var tail := DrawMany(d.1, oracles[1..]);
      assert DrawMany(pool, oracles) == ([d.0] + tail.0, tail.1);
      assert tail.1 == pool + ([d.0] + tail.0);
      DistinctSuffix(pool, [d.0] + tail.0);
    }
  }

  /** The tail of a distinct sequence is distinct, and shares nothing with its head. */
  lemma DistinctSuffix(a: seq<Word32>, b: seq<Word32>)
    requires Distinct(a + b)
    ensures Distinct(b)
    ensures forall n :: n in b ==> n !in a
  {
    forall i, j | 0 <= i < j < |b| ensures b[i] != b[j] {
      assert b[i] == (a + b)[|a| + i] && b[j] == (a + b)[|a| + j];
    }
    forall n | n in b ensures n !in a {
      var j :| 0 <= j < |b| && b[j] == n;
      assert (a + b)[|a| + j] == n;
      forall i | 0 <= i < |a| ensures a[i] != n {
        assert (a + b)[i] == a[i];
      }
    }
  }

  /** From an empty pool, the first Capacity calls never return the same nonce twice. */
  lemma FreshWindow(oracles: seq<seq<Word32>>)
    requires CanDrawAll([], oracles)
    requires |oracles| <= Capacity
    ensures Distinct(DrawMany([], oracles).0)
  {
    DrawManyDistinct([], oracles);
  }
}
