/** The login session objects and the blocks that run under a session's lock; each block takes one step of the model. */
module InteractiveLogin {
  import opened Wrappers
  import opened LoginSession

  datatype TransitionError = SessionExpired | InvalidTransition(from: Status, next: Status)

  class LoginSessionRecord {
    var status: Status
    var authenticated: bool
    var persisted: bool

    function Value(): Session
      reads this
    {
      Session(status, authenticated, persisted)
    }

    constructor ()
      ensures Value() == Session(Launching, false, false)
    {
      status, authenticated, persisted := Launching, false, false;
    }

    /** `due` is None when expiry is not enforced, else the comparison of the clock with the deadline. */
    method Transition(next: Status, due: Option<bool>) returns (r: Result<(), TransitionError>)
      modifies this
      ensures (Value(), r.Success?) == old(Value()).Transitioned(next, due)
      ensures r == Failure(SessionExpired) <==> due == Some(true) && !Terminal(old(status))
      ensures r.Success? ==> Allowed(old(status), next) && (next.Confirmed? ==> authenticated && persisted)
    {
      if due == Some(true) && !Terminal(status) {
        status := Expired;
        return Failure(SessionExpired);
      }
      if !Allowed(status, next) {
        return Failure(InvalidTransition(status, next));
      }
      if next.Confirmed? && !(authenticated && persisted) {
        return Failure(InvalidTransition(status, next));
      }
      status := next;
      if next.Persisted? {
        persisted := true;
      }
      r := Success(());
    }
  }

  class ManagedLoginSession {
    const session: LoginSessionRecord
    var op: Op
    var commit: Commit
    var commitWon: bool
    var resources: Resources
    ghost var first: Option<Status>
    ghost var overrun: bool

    constructor ()
      ensures fresh(session) && Value() == New((0, 0)).x && resources == New((0, 0)).r
    {
      session := new LoginSessionRecord();
      op, commit, commitWon := Idle, NoCommit, false;
      resources := New((0, 0)).r;
      first, overrun := None, false;
    }

    ghost function Value(): Attempt
      reads this, session
    {
      Attempt(session.Value(), op, commit, commitWon, first, overrun)
    }

    ghost method Note()
      modifies `first
      ensures Value() == old(Value()).With(session.Value())
    {
      first := if first.None? && Terminal(session.status) then Some(session.status) else first;
    }

    method MarkTerminalLocked(status: Status)
      modifies `first, session`status
      ensures Value() == old(Value()).Mark(status)
    {
      if !Terminal(session.status) {
        session.status := status;
        Note();
      }
    }

    method TransitionNoted(next: Status, due: Option<bool>) returns (ok: bool)
      modifies `first, session
      ensures Value() == old(Value()).With(old(session.Value()).Transitioned(next, due).0)
      ensures ok == old(session.Value()).Transitioned(next, due).1
    {
      var r := session.Transition(next, due);
      Note();
      ok := r.Success?;
    }

    method StatusBlock(due: bool)
      modifies `first, session
      ensures Value() == AfterCall(old(Value()), ReadStatus(due))
    {
      if commit.NoCommit? && due && !Terminal(session.status) {
        MarkTerminalLocked(Expired);
      }
    }

    /** No guard on the commit here, unlike every other expiry. */
    method VerifyBlock(due: bool, late: bool) returns (started: bool)
      modifies this, session
      ensures Value() == AfterCall(old(Value()), Verify(due, late)) && resources == old(resources)
      ensures started <==> op.AwaitVerify? && old(op).Idle?
    {
      started := false;
      if due && !Terminal(session.status) {
        MarkTerminalLocked(Expired);
        overrun := overrun || !commit.NoCommit?;
        return;
      }
      if Terminal(session.status) {
        return;
      }
      if !op.Idle? {
        return;
      }
      if session.status.WaitingUser? {
        started := TransitionNoted(Verifying, Some(late));
        if started {
          op := AwaitVerify;
        }
      }
    }

    method CancelBlock() returns (commitOperation: bool)
      modifies `first, session
      ensures Value() == AfterCall(old(Value()), Cancel)
      ensures commitOperation <==> old(Value()).CommitPending() && !Terminal(old(session.status))
    {
      commitOperation := !commit.NoCommit? && !Terminal(session.status) && !op.Idle?;
      if !commitOperation && !Terminal(session.status) {
        MarkTerminalLocked(Cancelled);
      }
    }

    method ExpireBlock() returns (shouldCleanUp: bool)
      modifies `first, session
      ensures Value() == AfterCall(old(Value()), TimerFires)
      ensures shouldCleanUp <==>
        Terminal(session.status) && (Terminal(old(session.status)) ==> !resources.leaseReleased)
    {
      if !Terminal(session.status) {
        if !commit.NoCommit? && !op.Idle? {
          return false;
        }
        MarkTerminalLocked(Expired);
        return true;
      }
      shouldCleanUp := !resources.leaseReleased;
    }

    method SweepBlock() returns (commitPending: bool)
      modifies `first, `resources, session
      ensures Value() == AfterCall(old(Value()), Sweep) && resources == old(resources).(swept := true)
      ensures commitPending == old(Value()).CommitPending()
    {
      commitPending := !commit.NoCommit? && !op.Idle?;
      if !commitPending && !Terminal(session.status) {
        MarkTerminalLocked(Cancelled);
      }
      resources := resources.(swept := true);
    }

    method VerdictBlock(verdict: Verdict, due: bool, late: bool)
      modifies this, session
      ensures Value() == AfterOp(old(Value()), VerifyEnds(verdict, due, late)) && resources == old(resources)
    {
      if verdict.Raises? {
        MarkTerminalLocked(Failed);
        op := Winding;
      } else if Terminal(session.status) {
        op := Idle;
      } else if due {
        MarkTerminalLocked(Expired);
        op := Idle;
      } else if verdict.NotAuthenticated? {
        session.authenticated := false;
        var _ := TransitionNoted(WaitingUser, Some(late));
        op := Idle;
      } else {
        session.authenticated := true;
        Note();
        op := AwaitPersist;
      }
    }

    method PersistBlock(ok: bool, due: bool)
      modifies this, session
      ensures Value() == AfterOp(old(Value()), PersistEnds(ok, due)) && resources == old(resources)
    {
      if !ok {
        MarkTerminalLocked(Failed);
        op := Winding;
      } else if Terminal(session.status) {
        op := Idle;
      } else if due {
        MarkTerminalLocked(Expired);
        op := Idle;
      } else {
        op := AwaitLock;
      }
    }

    method CommitBlock()
      modifies `op, `commit
      ensures Value() == AfterOp(old(Value()), CommitBegins)
    {
      if Terminal(session.status) {
        op := Idle;
      } else {
        op, commit := AwaitCommit, Running;
      }
    }

    method SettleBlock()
      modifies this, session
      ensures Value() == AfterOp(old(Value()), Settles) && resources == old(resources)
    {
      if commit.Refused? {
        MarkTerminalLocked(Failed);
        op := Winding;
        return;
      }
      commitWon := true;
      op := Idle;
      var persisted := session.Transition(Persisted, None);
      if persisted.Success? {
        var confirmed := session.Transition(Confirmed, None);
        if confirmed.Success? {
          op := Winding;
        }
      }
      Note();
    }

    /** The first block of `_cleanup_resources`; true when the operation is cancelled and awaited. */
    method StopBlock() returns (cancelled: bool)
      requires resources.cleanup.Begun?
      modifies `resources
      ensures Value() == old(Value()) && cancelled == StopsOperation(Value())
      ensures resources == ResourcesAfterClean(Managed((0, 0), old(Value()), old(resources)), StopsOp)
    {
      cancelled := !op.Idle? && commit.NoCommit? && (session.status.Cancelled? || session.status.Expired?);
      resources := resources.(cleanup := if cancelled then AwaitOp else Looking);
    }

    /** The close of the browser and the block after it. */
    method BrowserBlock(ok: bool)
      requires resources.cleanup.ClosingBrowser?
      modifies this, session
      ensures Value() == AttemptAfterClean(old(Value()), BrowserCloses(ok))
      ensures resources == ResourcesAfterClean(Managed((0, 0), old(Value()), old(resources)), BrowserCloses(ok))
    {
      if ok {
        resources := resources.(cleanup := ClosedBrowser, live := false, closes := resources.closes + 1);
      } else {
        session.status := Failed;
        Note();
        resources := resources.(cleanup := Ended(false));
      }
    }
  }
}
