/**
 * The promise objects of deferred puts, shared by both TXM classes
 * (`PVPromise` of aps_32id/txm.py and of tomo/32id/txm.py), and the
 * environment step that completes them: a put sent inside a `wait_pvs`
 * scope carries the promise's completion as its callback, and the EPICS
 * client calls it when the put finishes.
 *
 * The newer class stores the PV name in the promise; the older one does
 * not, and there `pvName` only records which put the promise's callback
 * was handed to.
 */
module Promises {

  /** `PVPromise`: the completion flag of one deferred put. */
  class PvPromise {
    const pvName: string
    var isComplete: bool

    constructor(pvName: string)
      ensures this.pvName == pvName && !isComplete
    {
      this.pvName := pvName;
      isComplete := false;
    }

    /** `complete`, the callback a deferred put is sent with. */
    method Complete()
      modifies this
      ensures isComplete
    {
      isComplete := true;
    }
  }

  /** Every promise of the queue has completed. */
  predicate AllComplete(q: seq<PvPromise>)
    reads set p | p in q
  {
    forall p :: p in q ==> p.isComplete
  }

  /** One round of completion callbacks: every promise of `q` for one of `names` completes. */
  method CompleteNamed(q: seq<PvPromise>, names: set<string>)
    modifies set p | p in q
    ensures forall p :: p in q ==> p.isComplete == (old(p.isComplete) || p.pvName in names)
  {
    var i := 0;
    while i < |q|
      invariant 0 <= i <= |q|
      invariant forall p :: p in q[..i] ==> p.isComplete == (old(p.isComplete) || p.pvName in names)
      invariant forall p :: p in q && p !in q[..i] ==> p.isComplete == old(p.isComplete)
    {
      assert q[..i + 1] == q[..i] + [q[i]];
      if q[i].pvName in names {
        q[i].Complete();
      }
      i := i + 1;
    }
    assert q[..i] == q;
  }
}
