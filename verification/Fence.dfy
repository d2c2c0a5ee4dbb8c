/** The daemon fence: one persisted epoch, claimed by restarts and checked before every write (fence.rs, txn.rs). */
module Fence {
  import opened Common

  datatype FenceError = InvalidLease | EpochAbsentOrStale

  /** The last millisecond a signed 64-bit clock can name. */
  const LAST_MS := 0x7FFF_FFFF_FFFF_FFFF

  class DaemonFence {
    var epoch: Option<nat>
    /** Every epoch handed out so far, in order. */
    ghost var issued: seq<nat>

    ghost predicate Valid()
      reads this
    {
      && (forall i :: 0 <= i < |issued| ==> issued[i] == i + 1)
      && epoch == if issued == [] then None else Some(|issued|)
    }

    constructor ()
      ensures Valid() && issued == []
    {
      epoch := None;
      issued := [];
    }

    /** The upsert: epoch 1 the first time, one more every later time; the lease must be positive and end in range. */
    method Claim(leaseMs: int, nowMs: int) returns (r: Result<nat, FenceError>)
      requires Valid()
      modifies this
      ensures Valid()
      ensures r.Err? <==> leaseMs <= 0 || nowMs + leaseMs > LAST_MS
      ensures r.Err? ==> issued == old(issued) && epoch == old(epoch)
      ensures r.Ok? ==> issued == old(issued) + [r.value] && forall e :: e in old(issued) ==> e < r.value
    {
      if leaseMs <= 0 { return Err(InvalidLease); }
      if nowMs + leaseMs > LAST_MS { return Err(InvalidLease); }
      var next := if epoch.None? then 1 else epoch.value + 1;
      epoch := Some(next);
      issued := issued + [next];
      r := Ok(next);
    }

    /** Admission to a write transaction: only the holder of the latest epoch gets in. */
    method BeginWrite(expected: nat) returns (r: Result<(), FenceError>)
      requires Valid()
      ensures r.Ok? <==> issued != [] && expected == issued[|issued| - 1]
      ensures r.Ok? ==> forall e :: e in issued ==> e <= expected
    {
      if epoch != Some(expected) { return Err(EpochAbsentOrStale); }
      r := Ok(());
    }
  }
}
