/** The hardware manager (cyhal_hwmgr_reserve / cyhal_hwmgr_free).  Its
    implementation is not part of this model: it is an abstract set of
    reserved resource instances, and whether a reservation succeeds is an
    input (the result it reports), so no allocation policy is assumed. */
module HwMgr {
  import opened Results
  import opened Resources

  class Manager {
    var reserved: set<Inst>

    constructor ()
      ensures reserved == {}
    {
      reserved := {};
    }

    /** cyhal_hwmgr_reserve: reports `outcome`; only a successful report adds
        the instance to the reserved set. */
    method Reserve(rsc: Inst, outcome: Rslt) returns (r: Rslt)
      modifies this
      ensures r == outcome
      ensures reserved == if outcome == Success then old(reserved) + {rsc} else old(reserved)
    {
      r := outcome;
      if outcome == Success {
        reserved := reserved + {rsc};
      }
    }

    /** cyhal_hwmgr_free: the instance is no longer reserved. */
    method Free(rsc: Inst)
      modifies this
      ensures reserved == old(reserved) - {rsc}
    {
      reserved := reserved - {rsc};
    }
  }
}
