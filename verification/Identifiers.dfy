// No transaction is admitted twice, although identifiers are forgotten when they expire and
// rebuilt from the log: receipt.rs, the purge in index.rs and the rebuild in blockchain/mod.rs.

module Identifiers {
  import opened Numbers
  import opened Crypto
  import opened Transactions
  import opened Blocks
  import opened Ledgers
  import opened Chains
  import opened Nodes

  // ----- one purge between two attempts -----

  /** After a purge an identifier passes the gate again exactly if its transaction is still
      fresh by the clock of the push although it had been over by the clock of the purge. */
  lemma ReadmittedIff(txids: map<TxId, u64>, txid: TxId, expiry: u64, purgeNow: Clock, now: Clock)
    requires txid in txids && txids[txid] == expiry
    ensures Gate(Purge(txids, purgeNow), txid, expiry, now).Ok?
       <==> now < expiry && expiry - now <= TX_MAX_EXPIRY_TIME && expiry + TX_EXPIRY_ADJUSTMENT < purgeNow
  {
  }

  /** So a clock that falls back by 32 seconds lets some transaction in twice, and one that falls
      back by 31 does not. */
  lemma SlackIsExact(txid: TxId, purgeNow: Clock, now: Clock)
    ensures (exists expiry: u64 :: Gate(Purge(map[txid := expiry], purgeNow), txid, expiry, now).Ok?)
       <==> now + 32 <= purgeNow
  {
    if now + 32 <= purgeNow {
      var expiry: u64 := now + 1;
      ReadmittedIff(map[txid := expiry], txid, expiry, purgeNow, now);
    }
    forall expiry: u64 | Gate(Purge(map[txid := expiry], purgeNow), txid, expiry, now).Ok?
      ensures now + 32 <= purgeNow
    {
      ReadmittedIff(map[txid := expiry], txid, expiry, purgeNow, now);
    }
  }

  // ----- runs on a clock that may fall back -----

  function Readings(e: Event): seq<Clock> {
    match e
    case PushEvent(_, now) => [now]
    case ProduceEvent(_, _, purgeNow, blockNow) => [purgeNow, blockNow]
    case RestartEvent => []
    case ReindexEvent(now) => [now]
  }

  /** No reading is more than `slack` seconds below one made in an earlier event. */
  ghost predicate FallsAtMost(events: seq<Event>, slack: nat) {
    forall i, j, a, b | 0 <= i < j < |events| && a in Readings(events[i]) && b in Readings(events[j]) ::
      a <= b + slack
  }

  lemma FallBetween(events: seq<Event>, slack: nat, k: nat, j: nat)
    requires k < j < |events| && FallsAtMost(events, slack)
    requires events[k].ProduceEvent? && events[j].PushEvent?
    ensures events[k].purgeNow <= events[j].now + slack
  {
    assert events[k].purgeNow in Readings(events[k]) && events[j].now in Readings(events[j]);
  }

  /** Event `i` of the run pushes a transaction that is let into the pool. */
  predicate Admitted(o: Oracles, n: Node, events: seq<Event>, i: nat)
    requires n.chain.blocks != [] && i < |events|
  {
    events[i].PushEvent? && PushTx(o, Run(o, n, events[..i]), events[i].tx, events[i].now).1 == Pushed
  }

  /** What one step does to a stored identifier: it stays as it was, unless a purge finds it over. */
  lemma StepRemembers(o: Oracles, n: Node, e: Event, txid: TxId)
    requires n.chain.blocks != [] && !e.ReindexEvent? && txid in n.txids
    ensures var n' := Step(o, n, e);
            || (txid in n'.txids && n'.txids[txid] == n.txids[txid])
            || (e.ProduceEvent? && n.txids[txid] + TX_EXPIRY_ADJUSTMENT < e.purgeNow)
  {
    hide Execute, InsertBlock, NewChild, Sign, TxIdOf;
  }

  lemma PushStores(o: Oracles, n: Node, e: Event)
    requires n.chain.blocks != [] && e.PushEvent? && PushTx(o, n, e.tx, e.now).1 == Pushed
    ensures var n', txid := Step(o, n, e), TxIdOf(o, e.tx);
            txid in n'.txids && n'.txids[txid] == e.tx.base.expiry
  {
    hide Execute, TxIdOf;
  }

  /** The identifier is stored with its expiry, or a purge among events `i` to `j` found it over. */
  ghost predicate StoredOrOver(n: Node, events: seq<Event>, i: nat, j: nat, txid: TxId, expiry: u64)
    requires j <= |events|
  {
    || (txid in n.txids && n.txids[txid] == expiry)
    || exists k :: i < k < j && events[k].ProduceEvent? && expiry + TX_EXPIRY_ADJUSTMENT < events[k].purgeNow
  }

  lemma {:induction false} AdmittedIsStored(o: Oracles, n: Node, events: seq<Event>, i: nat, j: nat)
    requires n.chain.blocks != [] && i < j <= |events| && Admitted(o, n, events, i)
    requires forall e | e in events :: !e.ReindexEvent?
    ensures StoredOrOver(Run(o, n, events[..j]), events, i, j, TxIdOf(o, events[i].tx), events[i].tx.base.expiry)
  {
    hide Run, TxIdOf, PushTx, Step;
    RunSnoc(o, n, events, j - 1);
    var before := Run(o, n, events[..j - 1]);
    if j == i + 1 {
      PushStores(o, before, events[i]);
    } else {
      AdmittedIsStored(o, n, events, i, j - 1);
      assert events[j - 1] in events;
      StaysStored(o, before, events, i, j - 1, TxIdOf(o, events[i].tx), events[i].tx.base.expiry);
    }
  }

  lemma RunSnoc(o: Oracles, n: Node, events: seq<Event>, j: nat)
    requires n.chain.blocks != [] && j < |events|
    ensures Run(o, n, events[..j + 1]) == Step(o, Run(o, n, events[..j]), events[j])
  {
    hide Step;
    assert events[..j + 1][..j] == events[..j];
  }

  lemma StaysStored(o: Oracles, n: Node, events: seq<Event>, i: nat, j: nat, txid: TxId, expiry: u64)
    requires n.chain.blocks != [] && i < j < |events| && !events[j].ReindexEvent?
    requires StoredOrOver(n, events, i, j, txid, expiry)
    ensures StoredOrOver(Step(o, n, events[j]), events, i, j + 1, txid, expiry)
  {
    hide Step;
    if txid in n.txids && n.txids[txid] == expiry {
      StepRemembers(o, n, events[j], txid);
    }
  }

  /** The identifiers of two transactions differ unless the bytes they hash are the same. */
  predicate NoCollision(o: Oracles, a: TxVariant, b: TxVariant) {
    TxIdOf(o, a) == TxIdOf(o, b) ==> EncUnsigned(a) == EncUnsigned(b)
  }

  lemma SameIdSameExpiry(o: Oracles, a: TxVariant, b: TxVariant)
    requires TxFits(a) && TxFits(b) && NoCollision(o, a, b) && TxIdOf(o, a) == TxIdOf(o, b)
    ensures a.base.expiry == b.base.expiry
  {
    UnsignedInjective(a, b);
    hide EncUnsigned, TxFits, TxIdOf;
    assert WithSigs(a, []).base.expiry == a.base.expiry && WithSigs(b, []).base.expiry == b.base.expiry;
  }

  /** No transaction is admitted twice, however it is signed, in a run of pushes, produced blocks
      and restarts whose clock never falls more than 31 seconds below an earlier reading. */
  lemma NeverAdmittedTwice(o: Oracles, n: Node, events: seq<Event>, i: nat, j: nat)
    requires n.chain.blocks != [] && i < j < |events|
    requires forall e | e in events :: !e.ReindexEvent?
    requires FallsAtMost(events, 31)
    requires Admitted(o, n, events, i) && Admitted(o, n, events, j)
    requires TxFits(events[i].tx) && TxFits(events[j].tx) && NoCollision(o, events[i].tx, events[j].tx)
    ensures TxIdOf(o, events[i].tx) != TxIdOf(o, events[j].tx)
  {
    if TxIdOf(o, events[i].tx) == TxIdOf(o, events[j].tx) {
      SameIdSameExpiry(o, events[i].tx, events[j].tx);
      AdmittedIsStored(o, n, events, i, j);
      hide Run, TxIdOf, Execute, TxFits, NoCollision;
      var expiry := events[j].tx.base.expiry;
      assert events[j].now < expiry;
      var k :| i < k < j && events[k].ProduceEvent? && expiry + TX_EXPIRY_ADJUSTMENT < events[k].purgeNow;
      FallBetween(events, 31, k, j);
      assert false;
    }
  }

  // ----- runs on a clock that does not fall back, with reindexing -----

  /** The clock after an event. */
  function After(t: u64, e: Event): u64 {
    match e
    case PushEvent(_, now) => now
    case ProduceEvent(_, _, _, blockNow) => blockNow
    case RestartEvent => t
    case ReindexEvent(now) => now
  }

  predicate InOrder(t: u64, e: Event) {
    match e
    case PushEvent(_, now) => t <= now
    case ProduceEvent(_, _, purgeNow, blockNow) => t <= purgeNow <= blockNow
    case RestartEvent => true
    case ReindexEvent(now) => t <= now
  }

  function Latest(t: u64, events: seq<Event>): u64 {
    if events == [] then t else After(Latest(t, events[..|events| - 1]), events[|events| - 1])
  }

  predicate NonDecreasing(t: u64, events: seq<Event>) {
    events != [] ==>
      && NonDecreasing(t, events[..|events| - 1])
      && InOrder(Latest(t, events[..|events| - 1]), events[|events| - 1])
  }

  /** The receipts after genesis, oldest first: those of the blocks and then the pool. */
  function History(n: Node): seq<Receipt>
    requires n.chain.blocks != []
  {
    Flattened(n.chain.blocks[1..]) + n.pool
  }

  function Flattened(blocks: seq<Block>): seq<Receipt> {
    if blocks == [] then [] else Flattened(blocks[..|blocks| - 1]) + blocks[|blocks| - 1].receipts
  }

  /** The expiry that goes with an identifier, where identifiers fix it. */
  type Expiries = TxId -> u64

  predicate Named(o: Oracles, exp: Expiries, tx: TxVariant) {
    exp(TxIdOf(o, tx)) == tx.base.expiry
  }

  /** As long as the receipt has not expired, its identifier is stored. */
  predicate Stored(o: Oracles, txids: map<TxId, u64>, r: Receipt, now: u64) {
    r.tx.base.expiry > now ==>
      TxIdOf(o, r.tx) in txids && txids[TxIdOf(o, r.tx)] == r.tx.base.expiry
  }

  predicate AllDistinct(o: Oracles, rs: seq<Receipt>) {
    forall i, j | 0 <= i < j < |rs| :: TxIdOf(o, rs[i].tx) != TxIdOf(o, rs[j].tx)
  }

  ghost predicate HistoryOk(o: Oracles, exp: Expiries, txids: map<TxId, u64>, rs: seq<Receipt>, now: u64) {
    && AllDistinct(o, rs)
    && forall r | r in rs :: Named(o, exp, r.tx) && Stored(o, txids, r, now)
  }

  /** A receipt of a block made at `t` expires no later than the longest expiry after `t`. */
  predicate Bounded(rs: seq<Receipt>, t: u64) {
    forall r | r in rs :: r.tx.base.expiry <= t + TX_MAX_EXPIRY_TIME
  }

  predicate Timed(blocks: seq<Block>, now: u64) {
    && (forall b | b in blocks :: Bounded(b.receipts, b.header.timestamp))
    && (forall i, j | 0 <= i <= j < |blocks| :: blocks[i].header.timestamp <= blocks[j].header.timestamp <= now)
  }

  ghost predicate Fresh(o: Oracles, exp: Expiries, n: Node, now: u64) {
    && n.chain.blocks != []
    && HistoryOk(o, exp, n.txids, History(n), now)
    && (forall r | r in n.chain.blocks[0].receipts :: Named(o, exp, r.tx))
    && Timed(n.chain.blocks, now)
    && Bounded(n.pool, now)
  }

  // ----- histories -----

  lemma {:induction false} FlattenedHas(blocks: seq<Block>, i: nat, r: Receipt)
    requires i < |blocks| && r in blocks[i].receipts
    ensures r in Flattened(blocks)
  {
    if i < |blocks| - 1 {
      FlattenedHas(blocks[..|blocks| - 1], i, r);
    }
  }

  lemma {:induction false} FlattenedFrom(blocks: seq<Block>, r: Receipt) returns (i: nat)
    requires r in Flattened(blocks)
    ensures i < |blocks| && r in blocks[i].receipts
  {
    if r in blocks[|blocks| - 1].receipts {
      i := |blocks| - 1;
    } else {
      i := FlattenedFrom(blocks[..|blocks| - 1], r);
    }
  }

  lemma FlattenedSnoc(n: Node, b: Block)
    requires n.chain.blocks != [] && b.receipts == n.pool
    ensures Flattened((n.chain.blocks + [b])[1..]) == History(n)
  {
    var bs := (n.chain.blocks + [b])[1..];
    assert bs[..|bs| - 1] == n.chain.blocks[1..];
  }

  lemma HistoryPrefix(o: Oracles, exp: Expiries, txids: map<TxId, u64>, rs: seq<Receipt>, dropped: seq<Receipt>, now: u64)
    requires HistoryOk(o, exp, txids, rs + dropped, now)
    ensures HistoryOk(o, exp, txids, rs, now)
  {
    hide TxIdOf, Named, Stored;
    var all := rs + dropped;
    forall i, j | 0 <= i < j < |rs| ensures TxIdOf(o, rs[i].tx) != TxIdOf(o, rs[j].tx) {
      assert all[i] == rs[i] && all[j] == rs[j];
    }
    forall r | r in rs ensures Named(o, exp, r.tx) && Stored(o, txids, r, now) {
      assert r in all;
    }
  }

  /** Time passing and purges leave a history in order. */
  lemma HistoryLater(o: Oracles, exp: Expiries, txids: map<TxId, u64>, txids': map<TxId, u64>,
                     rs: seq<Receipt>, now: u64, now': u64)
    requires HistoryOk(o, exp, txids, rs, now) && now <= now'
    requires forall id | id in txids && txids[id] > now' :: id in txids' && txids'[id] == txids[id]
    ensures HistoryOk(o, exp, txids', rs, now')
  {
    hide TxIdOf, Named, AllDistinct;
    forall r | r in rs ensures Stored(o, txids', r, now') {
      assert Stored(o, txids, r, now);
    }
  }

  lemma HistoryPushed(o: Oracles, exp: Expiries, txids: map<TxId, u64>, rs: seq<Receipt>, r: Receipt, now: u64)
    requires HistoryOk(o, exp, txids, rs, now) && Named(o, exp, r.tx) && r.tx.base.expiry > now
    requires TxIdOf(o, r.tx) !in txids
    ensures HistoryOk(o, exp, txids[TxIdOf(o, r.tx) := r.tx.base.expiry], rs + [r], now)
  {
    hide TxIdOf;
    var id := TxIdOf(o, r.tx);
    var all := rs + [r];
    forall x | x in rs ensures TxIdOf(o, x.tx) != id {
      assert Named(o, exp, x.tx) && Stored(o, txids, x, now);
    }
    forall i, j | 0 <= i < j < |all| ensures TxIdOf(o, all[i].tx) != TxIdOf(o, all[j].tx) {
      assert all[i] == rs[i] && all[i] in rs;
      if j < |rs| {
        assert all[j] == rs[j];
      }
    }
    forall x | x in all
      ensures Named(o, exp, x.tx) && Stored(o, txids[id := r.tx.base.expiry], x, now)
    {
      if x != r {
        assert x in rs;
      }
    }
  }

  // ----- rebuilding -----

  /** Every stored expiry is the one that goes with its identifier. */
  ghost predicate Consistent(exp: Expiries, m: map<TxId, u64>) {
    forall id | id in m :: m[id] == exp(id)
  }

  lemma {:induction false} LiveTxidsAre(o: Oracles, exp: Expiries, rs: seq<Receipt>, now: u64)
    requires forall r | r in rs :: Named(o, exp, r.tx)
    ensures Consistent(exp, LiveTxids(o, rs, now))
    ensures forall r | r in rs && r.tx.base.expiry > now :: TxIdOf(o, r.tx) in LiveTxids(o, rs, now)
  {
    hide TxIdOf;
    if rs != [] {
      var tx := rs[|rs| - 1].tx;
      assert rs[|rs| - 1] in rs && Named(o, exp, tx);
      LiveTxidsAre(o, exp, rs[..|rs| - 1], now);
    }
  }

  /** The loop that stops at the first old block misses nothing that has not expired. */
  lemma {:induction false} RebuildMissesNothing(o: Oracles, exp: Expiries, blocks: seq<Block>, k: nat, now: u64)
    requires k <= |blocks| && Timed(blocks, now)
    requires forall i, r | 0 <= i < k && r in blocks[i].receipts :: Named(o, exp, r.tx)
    ensures Consistent(exp, RebuildTxids(o, blocks, k, now))
    ensures forall i, r | 0 <= i < k && r in blocks[i].receipts && r.tx.base.expiry > now ::
              TxIdOf(o, r.tx) in RebuildTxids(o, blocks, k, now)
  {
    hide TxIdOf, Named, LiveTxids;
    if k > 0 {
      var b := blocks[k - 1];
      var age := now - b.header.timestamp;
      assert 0 <= age < TWO_64;
      if age > TX_MAX_EXPIRY_TIME {
        forall i, r | 0 <= i < k && r in blocks[i].receipts ensures r.tx.base.expiry <= now {
          assert blocks[i] in blocks;
          assert blocks[i].header.timestamp <= b.header.timestamp;
          assert Bounded(blocks[i].receipts, blocks[i].header.timestamp);
        }
      } else {
        LiveTxidsAre(o, exp, b.receipts, now);
        RebuildMissesNothing(o, exp, blocks, k - 1, now);
      }
    }
  }

  /** The block has a receipt of that identifier that ends later than now, at `expiry`. */
  predicate HasLive(o: Oracles, rs: seq<Receipt>, id: TxId, expiry: u64, now: u64) {
    exists r | r in rs :: TxIdOf(o, r.tx) == id && r.tx.base.expiry == expiry && expiry > now
  }

  lemma {:induction false} LiveIsThere(o: Oracles, rs: seq<Receipt>, now: u64, id: TxId)
    requires id in LiveTxids(o, rs, now)
    ensures HasLive(o, rs, id, LiveTxids(o, rs, now)[id], now)
  {
    hide TxIdOf;
    var last := rs[|rs| - 1];
    if last.tx.base.expiry > now && TxIdOf(o, last.tx) == id {
      assert last in rs;
    } else {
      LiveIsThere(o, rs[..|rs| - 1], now, id);
    }
  }

  /** The rebuild finds nothing but identifiers in the blocks that have not expired, with their expiries. */
  lemma {:induction false} RebuildFindsOnly(o: Oracles, blocks: seq<Block>, k: nat, now: u64, id: TxId)
    requires k <= |blocks| && id in RebuildTxids(o, blocks, k, now)
    ensures exists i | 0 <= i < k :: HasLive(o, blocks[i].receipts, id, RebuildTxids(o, blocks, k, now)[id], now)
  {
    hide TxIdOf, LiveTxids, HasLive;
    if id in RebuildTxids(o, blocks, k - 1, now) {
      RebuildFindsOnly(o, blocks, k - 1, now, id);
    } else {
      LiveIsThere(o, blocks[k - 1].receipts, now, id);
    }
  }

  // ----- steps -----

  lemma CrashIsFresh(o: Oracles, exp: Expiries, n: Node, now: u64)
    requires Fresh(o, exp, n, now)
    ensures Fresh(o, exp, Crash(n), now)
  {
    hide HistoryOk, Named, Timed;
    HistoryPrefix(o, exp, n.txids, Flattened(n.chain.blocks[1..]), n.pool, now);
    assert Flattened(n.chain.blocks[1..]) + [] == Flattened(n.chain.blocks[1..]);
  }

  lemma TimedLater(blocks: seq<Block>, now: u64, now': u64)
    requires Timed(blocks, now) && now <= now'
    ensures Timed(blocks, now')
  {
    hide Bounded;
  }

  lemma FreshLater(o: Oracles, exp: Expiries, n: Node, now: u64, now': u64)
    requires Fresh(o, exp, n, now) && now <= now'
    ensures Fresh(o, exp, n, now')
  {
    TimedLater(n.chain.blocks, now, now');
    hide HistoryOk, Named, Timed, History;
    HistoryLater(o, exp, n.txids, n.txids, History(n), now, now');
  }

  /** The node with one more receipt in the pool. */
  function Added(o: Oracles, n: Node, r: Receipt): Node {
    n.(txids := n.txids[TxIdOf(o, r.tx) := r.tx.base.expiry], pool := n.pool + [r])
  }

  lemma PushCases(o: Oracles, n: Node, tx: TxVariant, now: Clock) returns (log: seq<LogEntry>)
    requires n.chain.blocks != []
    ensures var (n', r) := PushTx(o, n, tx, now);
            if r == Pushed
            then n' == Added(o, n, Receipt(tx, log)) && Gate(n.txids, TxIdOf(o, tx), tx.base.expiry, now).Ok?
            else n' == n || n' == Crash(n)
  {
    hide Execute, TxIdOf, Gate;
    match Execute(o, n.chain, tx, n.pool)
    case Executed(l) => log := l;
    case Refused(_) | Panicked => log := [];
  }

  lemma AddedIsFresh(o: Oracles, exp: Expiries, n: Node, r: Receipt, now: Clock)
    requires Fresh(o, exp, n, now) && Named(o, exp, r.tx)
    requires Gate(n.txids, TxIdOf(o, r.tx), r.tx.base.expiry, now).Ok?
    ensures Fresh(o, exp, Added(o, n, r), now)
  {
    hide HistoryOk, Named, Timed, TxIdOf, Flattened;
    HistoryPushed(o, exp, n.txids, History(n), r, now);
    assert History(Added(o, n, r)) == History(n) + [r];
  }

  lemma PushIsFresh(o: Oracles, exp: Expiries, n: Node, tx: TxVariant, now: Clock)
    requires n.chain.blocks != [] && Fresh(o, exp, n, now) && Named(o, exp, tx)
    ensures Fresh(o, exp, PushTx(o, n, tx, now).0, now)
  {
    hide Fresh, PushTx, Gate, TxIdOf, Named, Added;
    CrashIsFresh(o, exp, n, now);
    var log := PushCases(o, n, tx, now);
    if PushTx(o, n, tx, now).1 == Pushed {
      AddedIsFresh(o, exp, n, Receipt(tx, log), now);
    }
  }

  lemma FlushIsFresh(o: Oracles, exp: Expiries, n: Node, now: Clock)
    requires Fresh(o, exp, n, now)
    ensures HistoryOk(o, exp, Purge(n.txids, now), History(n), now)
    ensures Fresh(o, exp, Flush(n, now), now)
  {
    hide HistoryOk, Named, Timed, Flattened;
    HistoryLater(o, exp, n.txids, Purge(n.txids, now), History(n), now, now);
    var m := n.(txids := Purge(n.txids, now));
    assert Fresh(o, exp, m, now);
    CrashIsFresh(o, exp, m, now);
  }

  lemma BlockIsFresh(o: Oracles, exp: Expiries, n: Node, txids: map<TxId, u64>, l: Ledger, b: Block, now: u64)
    requires Fresh(o, exp, n, now) && HistoryOk(o, exp, txids, History(n), now)
    requires b.receipts == n.pool && b.header.timestamp == now
    ensures Fresh(o, exp, Node(Chain(l, n.chain.blocks + [b]), txids, []), now)
  {
    hide HistoryOk, Named, Bounded, Flattened;
    var n' := Node(Chain(l, n.chain.blocks + [b]), txids, []);
    FlattenedSnoc(n, b);
    assert History(n') == History(n);
    assert n'.chain.blocks[0] == n.chain.blocks[0];
    assert Bounded([], now) by { NoneBounded(now); }
  }

  lemma NoneBounded(t: u64)
    ensures Bounded([], t)
  {
  }

  lemma ProduceCases(o: Oracles, kp: KeyPair, n: Node, stale: bool, purgeNow: Clock, blockNow: Clock) returns (b: Block)
    requires n.chain.blocks != []
    ensures var n' := Produce(o, kp, n, stale, purgeNow, blockNow).0;
            n' != Flush(n, purgeNow) ==>
              && n' == Node(Chain(n'.chain.ledger, n.chain.blocks + [b]), Purge(n.txids, purgeNow), [])
              && b.receipts == n.pool && b.header.timestamp == blockNow
  {
    hide VerifyBlock, ApplyBlock, FeeTotal, Purge;
    var child := NewChild(o, Head(n.chain), n.pool, blockNow);
    b := if child.Some? then Sign(o, child.value, kp) else Head(n.chain);
  }

  lemma ProduceIsFresh(o: Oracles, exp: Expiries, kp: KeyPair, n: Node, stale: bool, purgeNow: Clock, blockNow: Clock)
    requires n.chain.blocks != [] && Fresh(o, exp, n, purgeNow) && purgeNow <= blockNow
    ensures Fresh(o, exp, Produce(o, kp, n, stale, purgeNow, blockNow).0, blockNow)
  {
    FlushIsFresh(o, exp, n, purgeNow);
    FreshLater(o, exp, Flush(n, purgeNow), purgeNow, blockNow);
    FreshLater(o, exp, n, purgeNow, blockNow);
    var txids := Purge(n.txids, purgeNow);
    HistoryLater(o, exp, txids, txids, History(n), purgeNow, blockNow);
    hide Fresh, HistoryOk, History, Produce, Purge, Flush;
    var b := ProduceCases(o, kp, n, stale, purgeNow, blockNow);
    var n' := Produce(o, kp, n, stale, purgeNow, blockNow).0;
    if n' != Flush(n, purgeNow) {
      BlockIsFresh(o, exp, n, txids, n'.chain.ledger, b, blockNow);
    }
  }

  lemma ReindexIsFresh(o: Oracles, exp: Expiries, n: Node, now: Clock)
    requires n.chain.blocks != [] && Fresh(o, exp, n, now)
    ensures Fresh(o, exp, Reindexed(o, n, now), now)
  {
    CrashIsFresh(o, exp, n, now);
    if Replay(n.chain.blocks).Some? {
      var bs := n.chain.blocks;
      var n' := Reindexed(o, n, now);
      var rs := Flattened(bs[1..]);
      hide Replay, TxIdOf, RebuildTxids, AllDistinct;
      forall i, r | 0 <= i < |bs| && r in bs[i].receipts ensures Named(o, exp, r.tx) {
        if i > 0 {
          assert bs[1..][i - 1] == bs[i];
          FlattenedHas(bs[1..], i - 1, r);
        }
      }
      RebuildMissesNothing(o, exp, bs, |bs|, now);
      HistoryPrefix(o, exp, n.txids, rs, n.pool, now);
      forall r | r in rs ensures Stored(o, n'.txids, r, now) {
        var i := FlattenedFrom(bs[1..], r);
        assert bs[1..][i] == bs[i + 1];
        assert Named(o, exp, r.tx);
      }
      assert History(n') == rs;
    }
  }

  predicate EventNamed(o: Oracles, exp: Expiries, e: Event) {
    e.PushEvent? ==> Named(o, exp, e.tx)
  }

  lemma StepIsFresh(o: Oracles, exp: Expiries, n: Node, e: Event, t: u64)
    requires n.chain.blocks != [] && Fresh(o, exp, n, t) && InOrder(t, e) && EventNamed(o, exp, e)
    ensures Fresh(o, exp, Step(o, n, e), After(t, e))
  {
    hide PushTx, Produce, Reindexed, HistoryOk, Timed, Bounded, Named;
    match e
    case PushEvent(tx, now) =>
      FreshLater(o, exp, n, t, now);
      PushIsFresh(o, exp, n, tx, now);
    case ProduceEvent(kp, stale, purgeNow, blockNow) =>
      FreshLater(o, exp, n, t, purgeNow);
      ProduceIsFresh(o, exp, kp, n, stale, purgeNow, blockNow);
    case RestartEvent =>
      CrashIsFresh(o, exp, n, t);
    case ReindexEvent(now) =>
      FreshLater(o, exp, n, t, now);
      ReindexIsFresh(o, exp, n, now);
  }

  lemma {:induction false} RunIsFresh(o: Oracles, exp: Expiries, n: Node, events: seq<Event>, t: u64)
    requires n.chain.blocks != [] && Fresh(o, exp, n, t) && NonDecreasing(t, events)
    requires forall e | e in events :: EventNamed(o, exp, e)
    ensures Fresh(o, exp, Run(o, n, events), Latest(t, events))
  {
    if events != [] {
      var before, e := events[..|events| - 1], events[|events| - 1];
      RunIsFresh(o, exp, n, before, t);
      hide Fresh, Step, EventNamed;
      assert e in events;
      StepIsFresh(o, exp, Run(o, n, before), e, Latest(t, before));
    }
  }

  // ----- the main results -----

  /** The transactions a run is made of: those pushed and the two of genesis. */
  function Involved(genesis: Node, events: seq<Event>): set<TxVariant>
    requires genesis.chain.blocks != []
  {
    (set e | e in events && e.PushEvent? :: e.tx) + (set r | r in genesis.chain.blocks[0].receipts :: r.tx)
  }

  /** Identifiers do not collide in a finite set of transactions that have a byte form. */
  predicate NoCollisions(o: Oracles, txs: set<TxVariant>) {
    forall a, b | a in txs && b in txs :: TxFits(a) && NoCollision(o, a, b)
  }

  ghost function ExpiryOf(o: Oracles, txs: set<TxVariant>): Expiries {
    id => if exists tx :: tx in txs && TxIdOf(o, tx) == id then
            var tx :| tx in txs && TxIdOf(o, tx) == id; tx.base.expiry
          else 0
  }

  lemma AllNamed(o: Oracles, txs: set<TxVariant>, tx: TxVariant)
    requires NoCollisions(o, txs) && tx in txs
    ensures Named(o, ExpiryOf(o, txs), tx)
  {
    hide TxFits;
    var id := TxIdOf(o, tx);
    var a :| a in txs && TxIdOf(o, a) == id && ExpiryOf(o, txs)(id) == a.base.expiry;
    SameIdSameExpiry(o, a, tx);
  }

  lemma GenesisIsFresh(o: Oracles, exp: Expiries, kp: KeyPair, keys: seq<PublicKey>, now: Clock)
    requires now + 1 < TWO_64
    requires forall r | r in GenesisReceipts(kp, keys, now) :: Named(o, exp, r.tx)
    ensures Fresh(o, exp, Genesis(o, kp, keys, now), now)
  {
    hide GenesisWallet, GenesisOwner, Named, Sign, ReceiptRoot;
    var n := Genesis(o, kp, keys, now);
    GenesisBlockIs(o, kp, keys, now);
    assert n.chain.blocks[1..] == [];
    assert History(n) == [];
  }

  lemma GenesisBlockIs(o: Oracles, kp: KeyPair, keys: seq<PublicKey>, now: Clock)
    requires now + 1 < TWO_64
    ensures var b := GenesisBlock(o, kp, keys, now);
            b.receipts == GenesisReceipts(kp, keys, now) && b.header.timestamp == now && Bounded(b.receipts, now)
  {
    hide GenesisWallet;
  }

  lemma RunFromGenesis(o: Oracles, owner: KeyPair, keys: seq<PublicKey>, start: Clock, events: seq<Event>)
    requires start + 1 < TWO_64 && NonDecreasing(start, events)
    requires NoCollisions(o, Involved(Genesis(o, owner, keys, start), events))
    ensures var g := Genesis(o, owner, keys, start);
            Fresh(o, ExpiryOf(o, Involved(g, events)), Run(o, g, events), Latest(start, events))
  {
    hide NoCollisions, GenesisReceipts, ExpiryOf, Named, Fresh, NonDecreasing;
    GenesisBlockIs(o, owner, keys, start);
    var g := Genesis(o, owner, keys, start);
    var txs := Involved(g, events);
    forall tx | tx in txs ensures Named(o, ExpiryOf(o, txs), tx) {
      AllNamed(o, txs, tx);
    }
    GenesisIsFresh(o, ExpiryOf(o, txs), owner, keys, start);
    RunIsFresh(o, ExpiryOf(o, txs), g, events, start);
  }

  /** After genesis and any pushes, produced blocks, restarts and reindexing on a clock that does
      not fall back, no transaction is on the chain or in the pool twice. */
  lemma NoTransactionTwice(o: Oracles, owner: KeyPair, keys: seq<PublicKey>, start: Clock, events: seq<Event>)
    requires start + 1 < TWO_64 && NonDecreasing(start, events)
    requires NoCollisions(o, Involved(Genesis(o, owner, keys, start), events))
    ensures AllDistinct(o, History(Run(o, Genesis(o, owner, keys, start), events)))
  {
    RunFromGenesis(o, owner, keys, start, events);
    hide AllDistinct, Run, Genesis, NoCollisions, NonDecreasing, Timed, Named, Bounded;
  }

  lemma SigsOutsideId(o: Oracles, tx: TxVariant, sigs: seq<SigPair>)
    ensures TxIdOf(o, WithSigs(tx, sigs)) == TxIdOf(o, tx)
    ensures WithSigs(tx, sigs).base.expiry == tx.base.expiry
  {
  }

  lemma HistoryBounded(n: Node, r: Receipt, now: u64)
    requires n.chain.blocks != [] && Timed(n.chain.blocks, now) && Bounded(n.pool, now) && r in History(n)
    ensures r.tx.base.expiry <= now + TX_MAX_EXPIRY_TIME
  {
    if r !in n.pool {
      var bs := n.chain.blocks;
      var i := FlattenedFrom(bs[1..], r);
      assert bs[1..][i] == bs[i + 1];
      assert Bounded(bs[i + 1].receipts, bs[i + 1].header.timestamp);
    }
  }

  lemma FreshMeans(o: Oracles, exp: Expiries, n: Node, now: u64, r: Receipt)
    requires n.chain.blocks != [] && Fresh(o, exp, n, now) && r in History(n)
    ensures Stored(o, n.txids, r, now) && r.tx.base.expiry <= now + TX_MAX_EXPIRY_TIME
  {
    hide History, Timed, Bounded;
    HistoryBounded(n, r, now);
  }

  /** The same runs: whatever is on the chain or in the pool is never let in again, at any later
      time and however it is signed. Until it expires it is refused as a duplicate, so neither the
      purge nor the early end of the rebuild has forgotten it. */
  lemma NeverLetInAgain(o: Oracles, owner: KeyPair, keys: seq<PublicKey>, start: Clock, events: seq<Event>,
                        r: Receipt, sigs: seq<SigPair>, now: Clock)
    requires start + 1 < TWO_64 && NonDecreasing(start, events) && Latest(start, events) <= now
    requires NoCollisions(o, Involved(Genesis(o, owner, keys, start), events))
    requires r in History(Run(o, Genesis(o, owner, keys, start), events))
    ensures var n := Run(o, Genesis(o, owner, keys, start), events);
            var refusal := if r.tx.base.expiry <= now then TxExpired else TxDupe;
            PushTx(o, n, WithSigs(r.tx, sigs), now) == (n, PushRefused(refusal))
  {
    RunFromGenesis(o, owner, keys, start, events);
    hide *;
    var g := Genesis(o, owner, keys, start);
    var n, latest := Run(o, g, events), Latest(start, events);
    FreshMeans(o, ExpiryOf(o, Involved(g, events)), n, latest, r);
    StoredIsRefused(o, n, r, sigs, latest, now);
  }

  lemma StoredIsRefused(o: Oracles, n: Node, r: Receipt, sigs: seq<SigPair>, latest: u64, now: Clock)
    requires n.chain.blocks != [] && Stored(o, n.txids, r, latest)
    requires latest <= now && r.tx.base.expiry <= latest + TX_MAX_EXPIRY_TIME
    ensures var refusal := if r.tx.base.expiry <= now then TxExpired else TxDupe;
            PushTx(o, n, WithSigs(r.tx, sigs), now) == (n, PushRefused(refusal))
  {
    SigsOutsideId(o, r.tx, sigs);
    hide Execute, TxIdOf, WithSigs;
  }
}
