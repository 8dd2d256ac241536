/** The table of endpoint locks, as one task sees it. */
module EndpointLocks {
  import opened Ordering
  import opened Journal

  class EndpointLockTable {
    /** The endpoints whose lock is taken. */
    var taken: set<DeviceId>

    constructor ()
      ensures taken == {}
    {
      taken := {};
    }

    /** Takes the locks one after the other without waiting; if one is taken already, gives back the ones
        taken so far. All of them or none. */
    method TryAcquireOrdered(ordered: seq<DeviceId>) returns (ok: bool)
      requires Ascending(StringLe, ordered)
      modifies this
      ensures ok <==> forall d :: d in ordered ==> d !in old(taken)
      ensures taken == if ok then old(taken) + (set d | d in ordered) else old(taken)
    {
      var guards: set<DeviceId> := {};
      for n := 0 to |ordered|
        invariant guards == set d | d in ordered[..n]
        invariant taken == old(taken) + guards && guards !! old(taken)
      {
        assert ordered[..n + 1] == ordered[..n] + [ordered[n]];
        if ordered[n] in taken {
          assert ordered[n] in old(taken);
          taken := taken - guards;
          return false;
        }
        taken := taken + {ordered[n]};
        guards := guards + {ordered[n]};
      }
      assert ordered[..|ordered|] == ordered;
      ok := true;
    }
  }
}
