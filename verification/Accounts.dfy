// Accounts and their signing permissions: account.rs.

module Accounts {
  import opened Wrappers
  import opened Numbers
  import opened Counting
  import opened Assets
  import opened Serializer
  import opened Crypto

  type AccountId = u64

  const MAX_PERM_KEYS := 8
  const IMMUTABLE_ACCOUNT_THRESHOLD: byte := 0xFF

  datatype Permissions = Permissions(threshold: byte, keys: seq<PublicKey>)

  datatype Account = Account(id: AccountId, balance: Asset, script: seq<byte>, permissions: Permissions,
                             destroyed: bool)

  datatype PermsErr = InsufficientThreshold | NoMatchingSigs | InvalidSig

  predicate IsValidPermissions(p: Permissions) {
    if p.threshold == IMMUTABLE_ACCOUNT_THRESHOLD then p.keys == []
    else |p.keys| <= MAX_PERM_KEYS && p.threshold <= |p.keys|
  }

  // ----- multi-signature verification -----

  predicate Listed(p: Permissions, pair: SigPair) {
    pair.pubKey in p.keys
  }

  /** A signature by one of the listed keys that does not verify. */
  predicate BadPair(o: Oracles, p: Permissions, data: seq<byte>, pair: SigPair) {
    Listed(p, pair) && !o.verify(pair.pubKey, data, pair.signature)
  }

  function CountListed(p: Permissions, sigs: seq<SigPair>): nat {
    Count(sigs, (pair: SigPair) => Listed(p, pair))
  }

  /** The verdict on a list of signatures, from four facts only: the threshold, the number of
      signatures, whether a listed key has a bad one, and how many are by listed keys. */
  function Verdict(o: Oracles, p: Permissions, data: seq<byte>, sigs: seq<SigPair>): Result<(), PermsErr> {
    var n := CountListed(p, sigs);
    if p.threshold == 0 then Ok(())
    else if p.threshold > |sigs| then Err(InsufficientThreshold)
    else if exists pair | pair in sigs :: BadPair(o, p, data, pair) then Err(InvalidSig)
    else if n == 0 then Err(NoMatchingSigs)
    else if n >= p.threshold then Ok(())
    else Err(InsufficientThreshold)
  }

  // ----- what a verdict means -----

  /** The places of the signatures by listed keys. */
  function ListedAt(p: Permissions, sigs: seq<SigPair>): set<nat> {
    set i: nat | i < |sigs| && sigs[i].pubKey in p.keys
  }

  /** Every signature by a listed key verifies. */
  predicate AllGood(o: Oracles, p: Permissions, data: seq<byte>, sigs: seq<SigPair>) {
    forall i | 0 <= i < |sigs| && sigs[i].pubKey in p.keys :: o.verify(sigs[i].pubKey, data, sigs[i].signature)
  }

  /** As many listed keys have signed as are needed, or none is needed. */
  predicate Approves(o: Oracles, p: Permissions, data: seq<byte>, sigs: seq<SigPair>) {
    p.threshold == 0 || (AllGood(o, p, data, sigs) && |ListedAt(p, sigs)| >= p.threshold)
  }

  /** There are too few signatures at all, or too few good ones by listed keys. */
  predicate TooFew(o: Oracles, p: Permissions, data: seq<byte>, sigs: seq<SigPair>) {
    || p.threshold > |sigs|
    || (AllGood(o, p, data, sigs) && 0 < |ListedAt(p, sigs)| < p.threshold)
  }

  lemma {:induction false} ListedCount(p: Permissions, sigs: seq<SigPair>)
    ensures CountListed(p, sigs) == |ListedAt(p, sigs)| <= |sigs|
  {
    if sigs != [] {
      var n := |sigs| - 1;
      ListedCount(p, sigs[..n]);
      var front := ListedAt(p, sigs[..n]);
      if sigs[n].pubKey in p.keys {
        assert ListedAt(p, sigs) == front + {n};
      } else {
        assert ListedAt(p, sigs) == front;
      }
    } else {
      assert ListedAt(p, sigs) == {};
    }
  }

  lemma {:induction false} GoodIffNotBad(o: Oracles, p: Permissions, data: seq<byte>, sigs: seq<SigPair>)
    ensures AllGood(o, p, data, sigs) <==> !exists pair | pair in sigs :: BadPair(o, p, data, pair)
  {
    if AllGood(o, p, data, sigs) {
      forall pair | pair in sigs ensures !BadPair(o, p, data, pair) {
        var i :| 0 <= i < |sigs| && sigs[i] == pair;
      }
    } else {
      var i :| 0 <= i < |sigs| && sigs[i].pubKey in p.keys && !o.verify(sigs[i].pubKey, data, sigs[i].signature);
      assert sigs[i] in sigs && BadPair(o, p, data, sigs[i]);
    }
  }

  /** The verdict is approval exactly if the threshold is met by good signatures of listed keys and no
      listed key has a bad one; each error has its own condition. */
  lemma {:induction false} VerdictIff(o: Oracles, p: Permissions, data: seq<byte>, sigs: seq<SigPair>)
    ensures Verdict(o, p, data, sigs) == Ok(()) <==> Approves(o, p, data, sigs)
    ensures Verdict(o, p, data, sigs) == Err(InsufficientThreshold)
       <==> p.threshold > 0 && TooFew(o, p, data, sigs)
    ensures Verdict(o, p, data, sigs) == Err(InvalidSig)
       <==> 0 < p.threshold <= |sigs| && !AllGood(o, p, data, sigs)
    ensures Verdict(o, p, data, sigs) == Err(NoMatchingSigs)
       <==> 0 < p.threshold <= |sigs| && ListedAt(p, sigs) == {}
  {
    ListedCount(p, sigs);
    GoodIffNotBad(o, p, data, sigs);
    if ListedAt(p, sigs) == {} {
      NoneListed(o, p, data, sigs);
    }
    hide AllGood, BadPair, CountListed;
  }

  lemma NoneListed(o: Oracles, p: Permissions, data: seq<byte>, sigs: seq<SigPair>)
    requires ListedAt(p, sigs) == {}
    ensures AllGood(o, p, data, sigs)
  {
    forall i | 0 <= i < |sigs| ensures sigs[i].pubKey !in p.keys {
      assert i !in ListedAt(p, sigs);
    }
  }

  /** The nested loops of `verify`; the counter is eight bits wide. */
  method Verify(o: Oracles, p: Permissions, data: seq<byte>, sigs: seq<SigPair>)
    returns (r: Result<(), PermsErr>)
    requires |sigs| <= 255
    ensures r == Verdict(o, p, data, sigs)
    ensures r == Ok(()) <==> Approves(o, p, data, sigs)
    ensures r == Err(InsufficientThreshold) <==> p.threshold > 0 && TooFew(o, p, data, sigs)
    ensures r == Err(InvalidSig) <==> 0 < p.threshold <= |sigs| && !AllGood(o, p, data, sigs)
    ensures r == Err(NoMatchingSigs) <==> 0 < p.threshold <= |sigs| && ListedAt(p, sigs) == {}
  {
    hide Approves, TooFew, AllGood, ListedAt;
    VerdictIff(o, p, data, sigs);
    if p.threshold == 0 {
      return Ok(());
    } else if p.threshold > |sigs| {
      return Err(InsufficientThreshold);
    }
    var validThreshold: byte := 0;
    ghost var listed := (pair: SigPair) => Listed(p, pair);
    for i := 0 to |sigs|
      invariant validThreshold == CountListed(p, sigs[..i])
      invariant forall j | 0 <= j < i :: !BadPair(o, p, data, sigs[j])
    {
      var pair := sigs[i];
      assert sigs[..i + 1][..i] == sigs[..i];
      var found := false;
      var k := 0;
      while k < |p.keys| && !found
        invariant k <= |p.keys|
        invariant found ==> Listed(p, pair) && !BadPair(o, p, data, pair)
        invariant !found ==> pair.pubKey !in p.keys[..k]
      {
        if p.keys[k] == pair.pubKey {
          if o.verify(p.keys[k], data, pair.signature) {
            found := true;
          } else {
            assert BadPair(o, p, data, pair);
            return Err(InvalidSig);
          }
        }
        k := k + 1;
      }
      if found {
        validThreshold := validThreshold + 1;
      } else {
        assert p.keys[..|p.keys|] == p.keys;
      }
    }
    assert sigs[..|sigs|] == sigs;
    if validThreshold > 0 {
      return if validThreshold >= p.threshold then Ok(()) else Err(InsufficientThreshold);
    }
    return Err(NoMatchingSigs);
  }

  /** Reordering the signatures or the keys, or repeating a key, changes no verdict. */
  lemma VerdictIgnoresOrder(o: Oracles, p: Permissions, q: Permissions, data: seq<byte>,
      a: seq<SigPair>, b: seq<SigPair>)
    requires multiset(a) == multiset(b)
    requires p.threshold == q.threshold
    requires forall k: PublicKey :: k in p.keys <==> k in q.keys
    ensures Verdict(o, p, data, a) == Verdict(o, q, data, b)
  {
    CountReordered(a, b, (pair: SigPair) => Listed(p, pair));
    CountSame(b, (pair: SigPair) => Listed(p, pair), (pair: SigPair) => Listed(q, pair));
    assert |multiset(a)| == |a| && |multiset(b)| == |b|;
    forall pair: SigPair
      ensures pair in a <==> pair in b
      ensures BadPair(o, p, data, pair) == BadPair(o, q, data, pair)
    {
      assert pair in multiset(a) <==> pair in multiset(b);
    }
  }

  // ----- codec -----

  function EncKey(k: PublicKey): seq<byte> {
    k
  }

  /** The number of keys is cast to one byte. */
  function EncPermissions(p: Permissions): seq<byte> {
    [p.threshold] + Enc8(p.keys, EncKey)
  }

  function TakePermissions(s: seq<byte>): Parsed<Permissions> {
    var (threshold, t) :- TakeU8(s);
    var (keys, u) :- Take8(t, TakeKey);
    Parsed(Permissions(threshold, keys), u)
  }

  function EncAccount(a: Account): seq<byte> {
    EncU64(a.id) + (EncVarI64(a.balance) + (EncBytes(a.script) + (EncPermissions(a.permissions) +
    [if a.destroyed then 1 else 0])))
  }

  function TakeAccount(s: seq<byte>): Parsed<Account> {
    var (id, t) :- TakeU64(s);
    var (balance, u) :- TakeAsset(t);
    var (script, v) :- TakeBytes(u);
    var (permissions, w) :- TakePermissions(v);
    var (destroyed, x) :- TakeU8(w);
    Parsed(Account(id, balance, script, permissions, destroyed != 0), x)
  }

  predicate PermissionsFit(p: Permissions) {
    |p.keys| < 256
  }

  predicate AccountFits(a: Account) {
    |a.script| < 0x1_0000_0000 && PermissionsFit(a.permissions)
  }

  lemma TakePermissionsOf(p: Permissions, rest: seq<byte>)
    requires PermissionsFit(p)
    ensures TakePermissions(EncPermissions(p) + rest) == Parsed(p, rest)
  {
    Assoc([p.threshold], Enc8(p.keys, EncKey), rest);
    TakeU8Of(p.threshold, Enc8(p.keys, EncKey) + rest);
    forall i, r | 0 <= i < |p.keys| ensures TakeKey(EncKey(p.keys[i]) + r) == Parsed(p.keys[i], r) {
      TakeNOf(p.keys[i], r);
    }
    Take8Of(p.keys, EncKey, TakeKey, rest);
  }

  lemma TakeAccountOf(a: Account, rest: seq<byte>)
    requires AccountFits(a)
    ensures TakeAccount(EncAccount(a) + rest) == Parsed(a, rest)
  {
    var flag: seq<byte> := [if a.destroyed then 1 else 0];
    var s4 := flag + rest;
    var s3 := EncPermissions(a.permissions) + s4;
    var s2 := EncBytes(a.script) + s3;
    var s1 := EncVarI64(a.balance) + s2;
    assert EncAccount(a) + rest == EncU64(a.id) + s1;
    TakeU64Of(a.id, s1);
    TakeAssetOf(a.balance, s2);
    TakeBytesOf(a.script, s3);
    TakePermissionsOf(a.permissions, s4);
    TakeU8Of(flag[0], rest);
  }
}
