// What checking the permissions of several accounts comes to: `check_acc_perms` in
// script/engine.rs.

module Approval {
  import opened Wrappers
  import opened Counting
  import opened Accounts
  import opened Ops
  import opened Engine
  import opened Interpreter

  predicate Exists(d: EngineData, id: AccountId) {
    d.lookup(id).Some?
  }

  predicate Approves(d: EngineData, id: AccountId) {
    d.lookup(id).Some? && PermsOf(d, d.lookup(id).value).Ok?
  }

  /** A bad signature by one of the account's keys, or too few good ones. An account none of whose
      keys has signed does not refuse: it is passed over. */
  predicate Refuses(d: EngineData, id: AccountId) {
    && d.lookup(id).Some?
    && PermsOf(d, d.lookup(id).value).Err?
    && PermsOf(d, d.lookup(id).value).error != NoMatchingSigs
  }

  function Approvals(d: EngineData, accs: seq<AccountId>): nat {
    Count(accs, (id: AccountId) => Approves(d, id))
  }

  lemma ScanOneIs(d: EngineData, id: AccountId, n: nat)
    requires Exists(d, id)
    ensures ScanOne(d, id, n)
         == Ok(if Refuses(d, id) then None else Some(n + if Approves(d, id) then 1 else 0))
  {
    hide Verdict;
  }

  lemma {:induction false} ScanCounts(d: EngineData, accs: seq<AccountId>)
    requires forall id | id in accs :: Exists(d, id)
    ensures ScanPerms(d, accs)
         == Ok(if exists id | id in accs :: Refuses(d, id) then None else Some(Approvals(d, accs)))
  {
    if accs != [] {
      var front, last := accs[..|accs| - 1], accs[|accs| - 1];
      hide ScanOne, Refuses, Approves, Exists;
      assert last in accs;
      assert forall id :: id in accs <==> id in front || id == last;
      ScanCounts(d, front);
      ScanOneIs(d, last, Approvals(d, front));
    }
  }

  /** Over accounts that exist the answer is settled by four facts: the threshold, the number of
      accounts, whether one of them refuses, and how many approve. */
  lemma CheckIsAVote(d: EngineData, threshold: nat, accs: seq<AccountId>)
    requires forall id | id in accs :: Exists(d, id)
    ensures CheckAccPerms(d, threshold, accs)
         == Ok(threshold == 0 ||
               (threshold <= |accs| && !(exists id | id in accs :: Refuses(d, id)) && Approvals(d, accs) >= threshold))
  {
    hide Refuses, Approves, Exists, ScanPerms, Approvals;
    ScanCounts(d, accs);
  }

  // ----- order -----

  /** The threshold settles the answer alone, or every account exists, or none refuses. */
  predicate OrderIsFree(d: EngineData, threshold: nat, accs: seq<AccountId>) {
    || threshold == 0 || threshold > |accs|
    || (forall id | id in accs :: Exists(d, id))
    || (forall id | id in accs :: !Refuses(d, id))
  }

  lemma {:induction false} ScanFindsMissing(d: EngineData, accs: seq<AccountId>)
    requires forall id | id in accs :: !Refuses(d, id)
    requires exists id :: id in accs && !Exists(d, id)
    ensures ScanPerms(d, accs) == Err(AccountNotFound)
  {
    var front, last := accs[..|accs| - 1], accs[|accs| - 1];
    hide ScanOne, Refuses, Approves, Exists;
    assert forall id :: id in accs <==> id in front || id == last;
    if id :| id in front && !Exists(d, id) {
      ScanFindsMissing(d, front);
    } else {
      ScanCounts(d, front);
      MissingIsAnError(d, last, Approvals(d, front));
    }
  }

  lemma MissingIsAnError(d: EngineData, id: AccountId, n: nat)
    requires !Exists(d, id)
    ensures ScanOne(d, id, n) == Err(AccountNotFound)
  {
  }

  /** Where the order is free, every order of the accounts gets the same answer. */
  lemma OrderDoesNotMatter(d: EngineData, threshold: nat, a: seq<AccountId>, b: seq<AccountId>)
    requires Reordered(a, b) && OrderIsFree(d, threshold, a)
    ensures CheckAccPerms(d, threshold, a) == CheckAccPerms(d, threshold, b)
  {
    assert |multiset(a)| == |a| && |multiset(b)| == |b|;
    assert forall id :: id in a <==> id in multiset(a);
    assert forall id :: id in b <==> id in multiset(b);
    hide Refuses, Approves, Exists, ScanPerms;
    if 0 < threshold <= |a| {
      if id :| id in a && !Exists(d, id) {
        ScanFindsMissing(d, a);
        ScanFindsMissing(d, b);
      } else {
        CountReordered(a, b, (id: AccountId) => Approves(d, id));
        CheckIsAVote(d, threshold, a);
        CheckIsAVote(d, threshold, b);
      }
    }
  }

  predicate Reordered(a: seq<AccountId>, b: seq<AccountId>) {
    multiset(a) == multiset(b)
  }

  /** The list with the account at `i` in front. */
  function ToFront(accs: seq<AccountId>, i: nat): seq<AccountId>
    requires i < |accs|
  {
    [accs[i]] + (accs[..i] + accs[i + 1..])
  }

  lemma ToFrontReorders(accs: seq<AccountId>, i: nat)
    requires i < |accs|
    ensures Reordered(ToFront(accs, i), accs) && |ToFront(accs, i)| == |accs|
  {
    MultisetWithout(accs, i);
  }

  /** An account that refuses, or is missing, decides from the front. */
  lemma FrontDecides(d: EngineData, threshold: nat, accs: seq<AccountId>, i: nat)
    requires 0 < threshold <= |accs| && i < |accs| && (Refuses(d, accs[i]) || !Exists(d, accs[i]))
    ensures CheckAccPerms(d, threshold, ToFront(accs, i))
         == if Exists(d, accs[i]) then Ok(false) else Err(AccountNotFound)
  {
    var b := ToFront(accs, i);
    if Exists(d, accs[i]) {
      ScanOneIs(d, accs[i], 0);
    } else {
      MissingIsAnError(d, accs[i], 0);
    }
    assert ScanPerms(d, []) == Ok(Some(0));
    assert b[..1] == [accs[i]] && b[..1][..0] == [];
    assert ScanPerms(d, b[..1]) == ScanOne(d, accs[i], 0);
    hide ScanOne, Refuses;
    ScanPermsStops(d, b, 1);
  }

  /** Exactly when the order in which a script lists the accounts does not matter: unless, below a
      threshold that is neither 0 nor out of reach, one account is missing and another refuses. */
  lemma OrderMattersIff(d: EngineData, threshold: nat, accs: seq<AccountId>)
    ensures (forall b: seq<AccountId> | Reordered(b, accs) ::
               CheckAccPerms(d, threshold, b) == CheckAccPerms(d, threshold, accs))
       <==> OrderIsFree(d, threshold, accs)
  {
    hide CheckAccPerms, Refuses, Exists, ToFront;
    if OrderIsFree(d, threshold, accs) {
      forall b: seq<AccountId> | Reordered(b, accs)
        ensures CheckAccPerms(d, threshold, b) == CheckAccPerms(d, threshold, accs)
      {
        OrderDoesNotMatter(d, threshold, accs, b);
      }
    } else {
      var i :| 0 <= i < |accs| && !Exists(d, accs[i]);
      var j :| 0 <= j < |accs| && Refuses(d, accs[j]);
      RefusingExists(d, accs[j]);
      FrontDecides(d, threshold, accs, i);
      FrontDecides(d, threshold, accs, j);
      ToFrontReorders(accs, i);
      ToFrontReorders(accs, j);
      assert CheckAccPerms(d, threshold, ToFront(accs, i)) != CheckAccPerms(d, threshold, ToFront(accs, j));
    }
  }

  lemma RefusingExists(d: EngineData, id: AccountId)
    requires Refuses(d, id)
    ensures Exists(d, id)
  {
  }
}
