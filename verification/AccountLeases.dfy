/** In-process account leases: one holder per (platform, account) key, whatever the purpose. */
module AccountLeases {
  import opened Wrappers

  type Key = (int, int)

  /** The identity object stored with a lease. */
  type LeaseId = int

  type Leases = map<Key, LeaseId>

  datatype LeaseError = AccountBusy(holder: LeaseId)

  function Acquired(leases: Leases, key: Key, id: LeaseId): Leases {
    if key in leases then leases else leases[key := id]
  }

  /** Only the identity that took the key can free it. */
  function Released(leases: Leases, key: Key, id: LeaseId): Leases {
    if key in leases && leases[key] == id then leases - {key} else leases
  }

  /** A release frees the caller's own lease and nothing else; repeating it, or releasing late, changes nothing. */
  lemma ReleaseIsIdempotentAndOwn(leases: Leases, key: Key, id: LeaseId, later: LeaseId)
    requires key in leases && leases[key] == id && later != id
    ensures var freed := Released(leases, key, id);
            && key !in freed && (forall k <- leases :: k != key ==> k in freed && freed[k] == leases[k])
            && Released(freed, key, id) == freed
            && Released(Acquired(freed, key, later), key, id)[key] == later
  {
    assert key in Acquired(Released(leases, key, id), key, later);
  }

  class AccountLeaseManager {
    var leases: Leases

    constructor ()
      ensures leases == map[]
    {
      leases := map[];
    }

    method Acquire(key: Key, id: LeaseId) returns (r: Result<LeaseId, LeaseError>)
      modifies this
      ensures leases == Acquired(old(leases), key, id)
      ensures r == if key in old(leases) then Failure(AccountBusy(old(leases)[key])) else Success(id)
    {
      if key in leases {
        return Failure(AccountBusy(leases[key]));
      }
      leases := leases[key := id];
      r := Success(id);
    }

    method Release(key: Key, id: LeaseId)
      modifies this
      ensures leases == Released(old(leases), key, id)
    {
      if key in leases && leases[key] == id {
        leases := leases - {key};
      }
    }
  }
}
