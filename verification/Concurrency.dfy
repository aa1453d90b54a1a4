/** The account-exclusivity manager and its leases: what each atomic block does. */
module PipelineConcurrency {
  import opened Wrappers

  /** A social account, with its platform name already normalised. */
  datatype Account = Account(platform: string, id: int)

  /** The manager's state without its counters: the counters are derived data. */
  datatype Manager = Manager(limits: map<string, int>, active: set<Account>, quarantined: set<Account>) {

    function On(platform: string): set<Account> {
      set a | a in active && a.platform == platform
    }

    function Limit(platform: string): int {
      if platform in limits then limits[platform] else 0
    }

    ghost predicate CanAcquire(a: Account) {
      && |On(a.platform)| < Limit(a.platform)
      && a !in active + quarantined
    }

    ghost predicate Sound() {
      && active !! quarantined
      && forall a <- active :: |On(a.platform)| <= Limit(a.platform)
    }

    function Grant(a: Account): Manager {
      this.(active := active + {a})
    }

    function Quarantine(a: Account): Manager {
      this.(active := active - {a}, quarantined := quarantined + {a})
    }

    function Release(a: Account): Manager {
      this.(active := active - {a}, quarantined := quarantined - {a})
    }
  }

  lemma OnAfterGrant(m: Manager, a: Account, p: string)
    requires a !in m.active
    ensures |m.Grant(a).On(p)| == |m.On(p)| + if p == a.platform then 1 else 0
  {
    if p == a.platform {
      assert m.Grant(a).On(p) == m.On(p) + {a};
    } else {
      assert m.Grant(a).On(p) == m.On(p);
    }
  }

  lemma OnAfterRemoval(m: Manager, a: Account, active: set<Account>, p: string)
    requires active == m.active - {a}
    ensures |m.(active := active).On(p)| == |m.On(p)| - if p == a.platform && a in m.active then 1 else 0
  {
    if p == a.platform && a in m.active {
      assert m.(active := active).On(p) == m.On(p) - {a};
    } else {
      assert m.(active := active).On(p) == m.On(p);
    }
  }

  /** Every manager step keeps the manager sound; granting needs the guard. */
  lemma ManagerStepsKeepSound(m: Manager, a: Account)
    requires m.Sound()
    ensures m.CanAcquire(a) ==> m.Grant(a).Sound()
    ensures m.Quarantine(a).Sound()
    ensures m.Release(a).Sound()
  {
    forall b: Account | a !in m.active
      ensures |m.Grant(a).On(b.platform)| == |m.On(b.platform)| + if b.platform == a.platform then 1 else 0
    {
      OnAfterGrant(m, a, b.platform);
    }
    var rest := m.(active := m.active - {a});
    forall b: Account
      ensures |m.Quarantine(a).On(b.platform)| <= |m.On(b.platform)|
      ensures |m.Release(a).On(b.platform)| <= |m.On(b.platform)|
    {
      OnAfterRemoval(m, a, m.active - {a}, b.platform);
      assert m.Quarantine(a).On(b.platform) == rest.On(b.platform);
      assert m.Release(a).On(b.platform) == rest.On(b.platform);
    }
  }

  datatype AcquireOutcome = Granted(lease: ConcurrencyLease) | Blocked | Unavailable

  class PipelineConcurrencyManager {
    const limits: map<string, int>
    var activeByPlatform: map<string, int>
    var activeAccounts: set<Account>
    var quarantinedAccounts: set<Account>

    ghost function State(): Manager
      reads this
    {
      Manager(limits, activeAccounts, quarantinedAccounts)
    }

    function ActiveCount(platform: string): int
      reads this
    {
      if platform in activeByPlatform then activeByPlatform[platform] else 0
    }

    /** The counters are a cache: each is the number of active accounts of its platform. */
    ghost predicate Valid()
      reads this
    {
      && State().Sound()
      && (forall p: string :: ActiveCount(p) == |State().On(p)|)
      && (forall p <- activeByPlatform :: activeByPlatform[p] != 0)
    }

    constructor (limits: map<string, int>)
      ensures Valid() && State() == Manager(limits, {}, {})
    {
      this.limits := limits;
      activeByPlatform := map[];
      activeAccounts := {};
      quarantinedAccounts := {};
      new;
      assert forall p: string :: State().On(p) == {};
    }

    /** The defaults are overlaid by the caller's limits; any negative limit raises. */
    static method Create(douyinLimit: int, platformLimits: map<string, int>)
      returns (r: Result<PipelineConcurrencyManager, string>)
      ensures r.Failure? <==>
              douyinLimit < 0 || exists p <- platformLimits :: platformLimits[p] < 0
      ensures r.Success? ==> fresh(r.value) && r.value.Valid()
      ensures r.Success? ==>
                r.value.State() == Manager(map["douyin" := douyinLimit, "tiktok" := 0] + platformLimits, {}, {})
    {
      if douyinLimit < 0 {
        return Failure("negative douyin limit");
      }
      var limits := map["douyin" := douyinLimit, "tiktok" := 0] + platformLimits;
      if exists p <- limits :: limits[p] < 0 {
        var p :| p in limits && limits[p] < 0;
        assert p in platformLimits;
        return Failure("negative platform limit");
      }
      assert forall p <- platformLimits :: p in limits && limits[p] == platformLimits[p];
      var m := new PipelineConcurrencyManager(limits);
      return Success(m);
    }

    method CanAcquire(a: Account) returns (ok: bool)
      requires Valid()
      ensures ok <==> State().CanAcquire(a)
    {
      var limit := if a.platform in limits then limits[a.platform] else 0;
      ok := limit > 0 && ActiveCount(a.platform) < limit && a !in activeAccounts && a !in quarantinedAccounts;
    }

    method Admit(a: Account)
      requires Valid() && State().CanAcquire(a)
      modifies this
      ensures Valid() && State() == old(State()).Grant(a)
    {
      ghost var was := State();
      activeByPlatform := activeByPlatform[a.platform := ActiveCount(a.platform) + 1];
      activeAccounts := activeAccounts + {a};
      ManagerStepsKeepSound(was, a);
      forall p: string ensures ActiveCount(p) == |State().On(p)| {
        OnAfterGrant(was, a, p);
      }
    }

    /** One evaluation of the blocking acquire: raise, keep waiting, or take the slot. */
    method Acquire(a: Account) returns (r: AcquireOutcome)
      requires Valid()
      modifies this
      ensures Valid()
      ensures r.Unavailable? <==> State().Limit(a.platform) <= 0
      ensures r.Granted? <==> old(State().CanAcquire(a))
      ensures State() == if r.Granted? then old(State()).Grant(a) else old(State())
      ensures r.Granted? ==> fresh(r.lease) && r.lease.manager == this && r.lease.Fresh(a)
    {
      if a.platform !in limits || limits[a.platform] <= 0 {
        return Unavailable;
      }
      var ok := CanAcquire(a);
      if !ok {
        return Blocked;
      }
      Admit(a);
      var lease := new ConcurrencyLease(this, a);
      return Granted(lease);
    }

    method TryAcquire(a: Account) returns (r: Option<ConcurrencyLease>)
      requires Valid()
      modifies this
      ensures Valid()
      ensures r.Some? <==> old(State().CanAcquire(a))
      ensures State() == if r.Some? then old(State()).Grant(a) else old(State())
      ensures r.Some? ==> fresh(r.value) && r.value.manager == this && r.value.Fresh(a)
    {
      var outcome := Acquire(a);
      r := if outcome.Granted? then Some(outcome.lease) else None;
    }

    method DropActive(a: Account)
      requires Valid() && a in activeAccounts
      modifies this
      ensures Valid() && State() == old(State()).(active := old(activeAccounts) - {a})
    {
      ghost var was := State();
      ManagerStepsKeepSound(was, a);
      OnAfterRemoval(was, a, was.active - {a}, a.platform);
      activeAccounts := activeAccounts - {a};
      var remaining := ActiveCount(a.platform) - 1;
      if remaining != 0 {
        activeByPlatform := activeByPlatform[a.platform := remaining];
      } else {
        activeByPlatform := activeByPlatform - {a.platform};
      }
      forall p: string ensures ActiveCount(p) == |State().On(p)| {
        OnAfterRemoval(was, a, activeAccounts, p);
      }
      forall b <- activeAccounts ensures |State().On(b.platform)| <= State().Limit(b.platform) {
        OnAfterRemoval(was, a, activeAccounts, b.platform);
      }
    }

    method QuarantineAccount(a: Account)
      requires Valid()
      modifies this
      ensures Valid() && State() == old(State()).Quarantine(a)
    {
      ghost var was := State();
      ManagerStepsKeepSound(was, a);
      if a in quarantinedAccounts {
        return;
      }
      if a in activeAccounts {
        DropActive(a);
      }
      quarantinedAccounts := quarantinedAccounts + {a};
      assert forall p: string :: State().On(p) == State().(quarantined := was.quarantined).On(p);
    }

    method ReleaseAccount(a: Account)
      requires Valid()
      modifies this
      ensures Valid() && State() == old(State()).Release(a)
    {
      ghost var was := State();
      ManagerStepsKeepSound(was, a);
      if a !in activeAccounts && a !in quarantinedAccounts {
        return;
      }
      if a in activeAccounts {
        DropActive(a);
      }
      quarantinedAccounts := quarantinedAccounts - {a};
      assert forall p: string :: State().On(p) == State().(quarantined := was.quarantined).On(p);
    }
  }

  /** Where a lease is inside release() or quarantine(), both of which hold its lock. */
  datatype Phase = Idle | Releasing | Released | Quarantining | Quarantined

  datatype Lease = Lease(account: Account, phase: Phase, released: bool, quarantined: bool) {
    /** The manager's release step for this lease has not run. */
    predicate Live() { !released && phase != Released }

    /** The manager's quarantine step for this lease has run. */
    predicate Held() { quarantined || phase == Quarantined }

    function CallRelease(): Lease {
      if released then this else this.(phase := Releasing)
    }

    function ReleaseReturns(): Lease {
      this.(phase := Idle, released := true, quarantined := false)
    }

    function CallQuarantine(): Lease {
      if released || quarantined then this else this.(phase := Quarantining)
    }

    function QuarantineReturns(): Lease {
      this.(phase := Idle, quarantined := true)
    }
  }

  class ConcurrencyLease {
    const manager: PipelineConcurrencyManager
    const account: Account
    var released: bool
    var quarantined: bool

    /** The lease between calls, when its lock is free. */
    ghost function State(): Lease
      reads this
    {
      Lease(account, Idle, released, quarantined)
    }

    ghost predicate Fresh(a: Account)
      reads this
    {
      State() == Lease(a, Idle, false, false)
    }

    constructor (manager: PipelineConcurrencyManager, account: Account)
      ensures this.manager == manager && Fresh(account)
    {
      this.manager := manager;
      this.account := account;
      released := false;
      quarantined := false;
    }

    /** An uninterrupted release is the three protocol steps in a row. */
    method Release()
      requires manager.Valid()
      modifies this, manager
      ensures manager.Valid()
      ensures State() == if old(released) then old(State()) else old(State()).CallRelease().ReleaseReturns()
      ensures manager.State() == if old(released) then old(manager.State()) else old(manager.State()).Release(account)
    {
      if released {
        return;
      }
      manager.ReleaseAccount(account);
      released := true;
      quarantined := false;
    }

    /** Blocks the account without using a capacity slot; a repeated call changes nothing. */
    method Quarantine()
      requires manager.Valid()
      modifies this, manager
      ensures manager.Valid()
      ensures var skip := old(released || quarantined);
              && State() == (if skip then old(State()) else old(State()).CallQuarantine().QuarantineReturns())
              && manager.State() == (if skip then old(manager.State()) else old(manager.State()).Quarantine(account))
    {
      if released || quarantined {
        return;
      }
      manager.QuarantineAccount(account);
      quarantined := true;
    }
  }
}
