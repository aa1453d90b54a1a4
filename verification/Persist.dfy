/** Storing a batch of candidates: one evidence row per new fingerprint, and the status of each user. */
module Persist {
  import opened Wrappers

  /** Platform and platform user id; together they are the user's unique key. */
  type UserKey = (int, int)
  type Fingerprint = int

  /** `content` stands for everything but the keyword that an observation holds. */
  datatype Observation = Observation(keyword: Option<int>, content: int)
  datatype Candidate = Candidate(user: UserKey, truncated: bool, evidence: seq<Observation>)
  datatype Row = Row(user: UserKey, observation: Observation, fingerprint: Fingerprint)
  datatype Discovery = IsCandidate | NeedsMoreEvidence

  /** The rows of one job; `users` holds the stored platform of every known user. */
  datatype Store = Store(
    campaign: bool, keywords: set<int>, users: map<UserKey, int>, links: map<UserKey, Discovery>, rows: seq<Row>)

  datatype PersistError = ForeignKeyword | PlatformMismatch
  datatype Summary = Summary(candidates: nat, evidence: nat)

  function Users(cs: seq<Candidate>): set<UserKey> {
    set c <- cs :: c.user
  }

  function Truncated(cs: seq<Candidate>): set<UserKey> {
    set c <- cs | c.truncated :: c.user
  }

  predicate UsesForeignKeyword(s: Store, c: Candidate) {
    exists o <- c.evidence :: o.keyword.Some? && !(s.campaign && o.keyword.value in s.keywords)
  }

  predicate HasOtherPlatform(s: Store, u: UserKey) {
    u in s.users && s.users[u] != u.0
  }

  function Verdict(s: Store, cs: seq<Candidate>): Option<PersistError> {
    if exists c <- cs :: UsesForeignKeyword(s, c) then Some(ForeignKeyword)
    else if exists u <- Users(cs) :: HasOtherPlatform(s, u) then Some(PlatformMismatch)
    else None
  }

  function RowsOf(c: Candidate, fp: (UserKey, Observation) -> Fingerprint): seq<Row> {
    seq(|c.evidence|, i requires 0 <= i < |c.evidence| => Row(c.user, c.evidence[i], fp(c.user, c.evidence[i])))
  }

  function AllRows(cs: seq<Candidate>, fp: (UserKey, Observation) -> Fingerprint): seq<Row> {
    if cs == [] then [] else AllRows(cs[..|cs| - 1], fp) + RowsOf(cs[|cs| - 1], fp)
  }

  /** The fingerprints already stored for some users. */
  function Known(rows: seq<Row>, users: set<UserKey>): set<Fingerprint> {
    set r <- rows | r.user in users :: r.fingerprint
  }

  function Fingerprints(rows: seq<Row>): set<Fingerprint> {
    set r <- rows :: r.fingerprint
  }

  /** Each row whose fingerprint is neither known nor earlier in the list. */
  function NewRows(known: set<Fingerprint>, all: seq<Row>): seq<Row> {
    if all == [] then []
    else
      var before := NewRows(known, all[..|all| - 1]);
      var r := all[|all| - 1];
      if r.fingerprint in known || r.fingerprint in Fingerprints(before) then before else before + [r]
  }

  function Status(cs: seq<Candidate>, u: UserKey): Discovery {
    if u in Truncated(cs) then NeedsMoreEvidence else IsCandidate
  }

  /** The store after an accepted batch. */
  function Persisted(s: Store, cs: seq<Candidate>, fp: (UserKey, Observation) -> Fingerprint): Store {
    s.(users := (map u <- Users(cs) :: u.0) + s.users,
       links := s.links + (map u <- Users(cs) :: Status(cs, u)),
       rows := s.rows + NewRows(Known(s.rows, Users(cs)), AllRows(cs, fp)))
  }

  // ----- what one batch adds -----

  /** New rows carry pairwise different fingerprints, none of them known, and no fingerprint of the batch is missed. */
  lemma {:induction false} NewRowsAreExact(known: set<Fingerprint>, all: seq<Row>)
    ensures var n := NewRows(known, all);
            && (forall r <- n :: r in all && r.fingerprint !in known)
            && (forall i, j :: 0 <= i < j < |n| ==> n[i].fingerprint != n[j].fingerprint)
            && Fingerprints(all) <= known + Fingerprints(n)
  {
    if all != [] {
      var k := |all| - 1;
      NewRowsAreExact(known, all[..k]);
      var before, n := NewRows(known, all[..k]), NewRows(known, all);
      assert all == all[..k] + [all[k]];
      forall f <- Fingerprints(all) ensures f in known + Fingerprints(n) {
        var r :| r in all && r.fingerprint == f;
        if r in all[..k] {
          assert f in Fingerprints(all[..k]);
        }
        assert Fingerprints(before) <= Fingerprints(n);
        assert n == before || all[k] in n;
      }
      if n != before {
        forall i | 0 <= i < k && i < |before| ensures before[i].fingerprint != all[k].fingerprint {
          assert before[i] in before;
        }
      }
    }
  }

  lemma {:induction false} NothingNewWhenKnown(known: set<Fingerprint>, all: seq<Row>)
    requires Fingerprints(all) <= known
    ensures NewRows(known, all) == []
  {
    if all != [] {
      var k := |all| - 1;
      assert all[k] in all && forall r <- all[..k] :: r in all;
      NothingNewWhenKnown(known, all[..k]);
    }
  }

  lemma {:induction false} RowsBelongToUsers(cs: seq<Candidate>, fp: (UserKey, Observation) -> Fingerprint)
    ensures forall r <- AllRows(cs, fp) :: r.user in Users(cs)
  {
    if cs != [] {
      var k := |cs| - 1;
      RowsBelongToUsers(cs[..k], fp);
      assert cs == cs[..k] + [cs[k]];
      assert forall r <- RowsOf(cs[k], fp) :: r.user == cs[k].user;
      assert forall c <- cs[..k] :: c in cs;
    }
  }

  /** Storing the same batch again changes nothing at all. */
  lemma RepeatingAddsNothing(s: Store, cs: seq<Candidate>, fp: (UserKey, Observation) -> Fingerprint)
    ensures Persisted(Persisted(s, cs, fp), cs, fp) == Persisted(s, cs, fp)
  {
    var t := Persisted(s, cs, fp);
    var users, all := Users(cs), AllRows(cs, fp);
    var n := NewRows(Known(s.rows, users), all);
    NewRowsAreExact(Known(s.rows, users), all);
    RowsBelongToUsers(cs, fp);
    forall f <- Known(s.rows, users) + Fingerprints(n) ensures f in Known(t.rows, users) {
      if f in Known(s.rows, users) {
        var r :| r in s.rows && r.user in users && r.fingerprint == f;
        assert r in t.rows;
      } else {
        var r :| r in n && r.fingerprint == f;
        assert r in t.rows;
      }
    }
    NothingNewWhenKnown(Known(t.rows, users), all);
    assert t.rows + [] == t.rows;
    assert Persisted(t, cs, fp).users == t.users && Persisted(t, cs, fp).links == t.links;
  }

  /** A user truncated anywhere in the batch ends as needs_more_evidence; the others of the batch as candidates. */
  lemma TruncationWins(s: Store, cs: seq<Candidate>, fp: (UserKey, Observation) -> Fingerprint, u: UserKey)
    ensures var links := Persisted(s, cs, fp).links;
            && ((exists c <- cs :: c.user == u && c.truncated) ==> u in links && links[u] == NeedsMoreEvidence)
            && ((exists c <- cs :: c.user == u) && !(exists c <- cs :: c.user == u && c.truncated) ==>
                  u in links && links[u] == IsCandidate)
            && (!(exists c <- cs :: c.user == u) && u in s.links ==> u in links && links[u] == s.links[u])
  {
    assert u in Truncated(cs) <==> exists c <- cs :: c.user == u && c.truncated;
    assert u in Users(cs) <==> exists c <- cs :: c.user == u;
  }

  lemma SameMembers(cs: seq<Candidate>, ds: seq<Candidate>)
    requires multiset(cs) == multiset(ds)
    ensures Users(cs) == Users(ds) && Truncated(cs) == Truncated(ds)
  {
    assert forall c :: c in cs <==> c in multiset(cs);
    assert forall c :: c in ds <==> c in multiset(ds);
  }

  /** Whatever the order of the candidates. */
  lemma OrderDoesNotMatter(s: Store, cs: seq<Candidate>, ds: seq<Candidate>, fp: (UserKey, Observation) -> Fingerprint)
    requires multiset(cs) == multiset(ds)
    ensures Persisted(s, cs, fp).links == Persisted(s, ds, fp).links
    ensures Persisted(s, cs, fp).users == Persisted(s, ds, fp).users
  {
    SameMembers(cs, ds);
    assert forall u <- Users(cs) :: Status(cs, u) == Status(ds, u);
  }

  lemma OneMoreRow(known: set<Fingerprint>, all: seq<Row>, r: Row)
    ensures NewRows(known, all + [r]) ==
      NewRows(known, all) + if r.fingerprint in known + Fingerprints(NewRows(known, all)) then [] else [r]
    ensures Fingerprints(NewRows(known, all) + [r]) == Fingerprints(NewRows(known, all)) + {r.fingerprint}
  {
    assert (all + [r])[..|all|] == all;
    var n := NewRows(known, all);
    assert forall x :: x in n + [r] <==> x in n || x == r;
  }

  lemma OneMoreCandidate(cs: seq<Candidate>, k: nat, fp: (UserKey, Observation) -> Fingerprint)
    requires k < |cs|
    ensures AllRows(cs[..k + 1], fp) == AllRows(cs[..k], fp) + RowsOf(cs[k], fp)
    ensures Users(cs[..k + 1]) == Users(cs[..k]) + {cs[k].user}
  {
    assert cs[..k + 1][..k] == cs[..k] && cs[..k + 1] == cs[..k] + [cs[k]];
  }

  lemma OneMoreUser(cs: seq<Candidate>, k: nat)
    requires k < |cs|
    ensures Users(cs[..k + 1]) == Users(cs[..k]) + {cs[k].user}
    ensures Truncated(cs[..k + 1]) == Truncated(cs[..k]) + if cs[k].truncated then {cs[k].user} else {}
    ensures Truncated(cs[..k]) <= Users(cs[..k])
  {
    assert cs[..k + 1] == cs[..k] + [cs[k]];
    assert forall c :: c in cs[..k + 1] <==> c in cs[..k] || c == cs[k];
  }

  lemma UpdatesMerge(links: map<UserKey, Discovery>, cs: seq<Candidate>, candidates: set<UserKey>,
                     truncated: set<UserKey>)
    requires truncated == Truncated(cs) && candidates == Users(cs) - Truncated(cs)
    ensures links + (map u <- candidates :: IsCandidate) + (map u <- truncated :: NeedsMoreEvidence)
         == links + (map u <- Users(cs) :: Status(cs, u))
  {
    assert truncated <= Users(cs);
  }

  lemma EmptyBatch(s: Store, fp: (UserKey, Observation) -> Fingerprint)
    ensures Persisted(s, [], fp) == s && Users([]) == {} && Verdict(s, []).None?
  {
    assert s.rows + [] == s.rows;
    assert s.links + (map u <- Users([]) :: Status([], u)) == s.links;
    assert (map u <- Users([]) :: u.0) + s.users == s.users;
  }

  // ----- the agent -----

  class Stage01CandidateAgent {
    var store: Store

    constructor (store: Store)
      ensures this.store == store
    {
      this.store := store;
    }

    /** Which users carry which status; a truncated path wins when duplicates disagree. */
    method GroupStatuses(cs: seq<Candidate>) returns (candidates: set<UserKey>, truncated: set<UserKey>)
      ensures truncated == Truncated(cs) && candidates == Users(cs) - Truncated(cs)
    {
      candidates, truncated := {}, {};
      for k := 0 to |cs|
        invariant truncated == Truncated(cs[..k]) && candidates + truncated == Users(cs[..k])
      {
        OneMoreUser(cs, k);
        if cs[k].truncated {
          truncated := truncated + {cs[k].user};
        } else {
          candidates := candidates + {cs[k].user};
        }
      }
      assert cs[..|cs|] == cs;
      if truncated != {} {
        candidates := candidates - truncated;
      }
    }

    /** The evidence of one candidate. */
    method CollectFrom(c: Candidate, ghost known: set<Fingerprint>, ghost before: seq<Row>, sofar: seq<Row>,
                       seen: set<Fingerprint>, fp: (UserKey, Observation) -> Fingerprint)
      returns (pending: seq<Row>, fingerprints: set<Fingerprint>)
      requires sofar == NewRows(known, before) && seen == known + Fingerprints(sofar)
      ensures pending == NewRows(known, before + RowsOf(c, fp)) && fingerprints == known + Fingerprints(pending)
    {
      pending, fingerprints := sofar, seen;
      var j := 0;
      assert before + RowsOf(c, fp)[..0] == before;
      while j < |c.evidence|
        invariant j <= |c.evidence| && pending == NewRows(known, before + RowsOf(c, fp)[..j])
        invariant fingerprints == known + Fingerprints(pending)
      {
        var r := Row(c.user, c.evidence[j], fp(c.user, c.evidence[j]));
        assert before + RowsOf(c, fp)[..j + 1] == before + RowsOf(c, fp)[..j] + [r];
        OneMoreRow(known, before + RowsOf(c, fp)[..j], r);
        if r.fingerprint !in fingerprints {
          pending := pending + [r];
          fingerprints := fingerprints + {r.fingerprint};
        }
        j := j + 1;
      }
      assert RowsOf(c, fp)[..j] == RowsOf(c, fp);
    }

    /** The nested evidence loops. */
    method CollectRows(cs: seq<Candidate>, known: set<Fingerprint>, fp: (UserKey, Observation) -> Fingerprint)
      returns (pending: seq<Row>, seen: set<UserKey>)
      ensures pending == NewRows(known, AllRows(cs, fp)) && seen == Users(cs)
    {
      pending, seen := [], {};
      var fingerprints := known;
      for k := 0 to |cs|
        invariant pending == NewRows(known, AllRows(cs[..k], fp)) && seen == Users(cs[..k])
        invariant fingerprints == known + Fingerprints(pending)
      {
        OneMoreCandidate(cs, k, fp);
        pending, fingerprints := CollectFrom(cs[k], known, AllRows(cs[..k], fp), pending, fingerprints, fp);
        seen := seen + {cs[k].user};
      }
      assert cs[..|cs|] == cs;
    }

    /** The checks that raise before anything is written. */
    method Check(cs: seq<Candidate>) returns (error: Option<PersistError>)
      ensures error == Verdict(store, cs)
    {
      if exists c <- cs :: UsesForeignKeyword(store, c) {
        return Some(ForeignKeyword);
      }
      if exists u <- Users(cs) :: HasOtherPlatform(store, u) {
        return Some(PlatformMismatch);
      }
      error := None;
    }

    /** `persist`; an error leaves the transaction, and with it the store, as it was. */
    method PersistBatch(cs: seq<Candidate>, fp: (UserKey, Observation) -> Fingerprint)
      returns (r: Result<Summary, PersistError>)
      modifies this
      ensures r.Failure? <==> Verdict(old(store), cs).Some?
      ensures r.Failure? ==> store == old(store) && Verdict(old(store), cs) == Some(r.error)
      ensures r.Success? ==> store == Persisted(old(store), cs, fp)
      ensures r.Success? ==> r.value == Summary(|Users(cs)|, |store.rows| - |old(store).rows|)
    {
      if cs == [] {
        EmptyBatch(store, fp);
        return Success(Summary(0, 0));
      }
      var error := Check(cs);
      if error.Some? {
        return Failure(error.value);
      }
      var users := Users(cs);
      var known := Known(store.rows, users);
      var candidates, truncated := GroupStatuses(cs);
      var pending, seen := CollectRows(cs, known, fp);
      var links := store.links + (map u <- candidates :: IsCandidate) + (map u <- truncated :: NeedsMoreEvidence);
      UpdatesMerge(store.links, cs, candidates, truncated);
      store := store.(users := (map u <- users :: u.0) + store.users, links := links, rows := store.rows + pending);
      r := Success(Summary(|seen|, |pending|));
    }
  }
}
