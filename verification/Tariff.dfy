// The two fees in closed form, all numbers written out: constants.rs, `get_network_fee` and
// `get_account_fee` in blockchain/mod.rs.

module Tariffs {
  import opened Wrappers
  import opened Numbers
  import opened Assets
  import opened Crypto
  import opened Accounts
  import opened Blocks
  import opened FeePolicy
  import opened Ledgers
  import opened Conservation
  import opened Chains
  import opened Nodes
  import opened Runs

  // ----- the network fee -----

  function ReceiptsOf(blocks: seq<Block>): nat {
    if blocks == [] then 0 else ReceiptsOf(blocks[..|blocks| - 1]) + |blocks[|blocks| - 1].receipts|
  }

  /** The newest height that is a multiple of five. */
  function Mark(blocks: seq<Block>): nat
    requires blocks != []
  {
    5 * ((|blocks| - 1) / 5)
  }

  /** The receipts in the block at that height and the ten before it, or all there are. */
  function Recent(blocks: seq<Block>): nat
    requires blocks != []
  {
    var m := Mark(blocks);
    ReceiptsOf(blocks[if m < 10 then 0 else m - 10..m + 1])
  }

  /** 1.015 to the power of `k` in units of 10^-5, cut off. */
  function Growth(k: nat): int {
    PowPositive(1000, k);
    Pow(1015, k) * 100_000 / Pow(1000, k)
  }

  /** 25 units times the growth, cut off once more; none where the growth is above 64 bits. */
  function FeeFor(receipts: nat): Option<int> {
    var g := Growth((1 + receipts) / 10);
    if g <= 0x7FFF_FFFF_FFFF_FFFF then Some(25 * g / 100_000) else None
  }

  lemma {:induction false} ReceiptsInIs(blocks: seq<Block>, from: nat, n: nat)
    requires from <= n <= |blocks|
    ensures ReceiptsIn(blocks, from, n - 1) == ReceiptsOf(blocks[from..n])
    decreases n
  {
    var part := blocks[from..n];
    if from < n {
      assert part[..|part| - 1] == blocks[from..n - 1];
      ReceiptsInIs(blocks, from, n - 1);
    } else {
      assert part == [];
    }
  }

  lemma QuotientScaled(x: nat, y: nat, c: nat)
    requires y > 0 && c > 0
    ensures y * c > 0 && (x * c) / (y * c) == x / y
  {
    var q := x / y;
    QuotientUnique(x, y, q);
    assert q * y <= x < q * y + y;
    MulMonotone(1, y, c);
    MulMonotone(q * y, x, c);
    MulMonotone(x + 1, q * y + y, c);
    assert (q * y) * c == q * (y * c) && (q * y + y) * c == q * (y * c) + y * c;
    assert q * (y * c) <= x * c < q * (y * c) + y * c;
    QuotientNatural(x, y);
    QuotientUnique(x * c, y * c, q);
  }

  /** The power of 1.015, cut off at five decimals. */
  lemma PowerIsGrowth(k: nat)
    requires 0 < k && 5 * k <= 0xFFFF
    ensures SetDecimalsBig(Pow(101_500, k), 5 * k, 5) == Growth(k)
  {
    var d := 5 * k - 5;
    var x, c := Pow(1015, k), Pow(100, k);
    PowPositive(1015, k);
    PowPositive(1000, k);
    PowPositive(100, k);
    PowPositive(10, d);
    PowOfProduct(1015, 100, k);
    PowOfProduct(1000, 100, k);
    TokensAsDecimals(k);
    PowAdd(10, d, 5);
    assert Pow(10, 5) == 100_000 && Pow(101_500, k) == x * c && Pow(100_000, k) == Pow(1000, k) * c;
    hide Pow;
    assert Pow(10, d) * 100_000 == Pow(1000, k) * c;
    QuotientScaled(x * c, Pow(10, d), 100_000);
    assert x * c * 100_000 == x * 100_000 * c;
    QuotientScaled(x * 100_000, Pow(1000, k), c);
    assert TruncDiv(x * c, Pow(10, d)) == (x * c) / Pow(10, d) by {
      MulMonotone(1, x, c);
    }
    if d == 0 {
      PowerOfNothing();
    }
  }

  lemma PowerOfNothing()
    ensures Pow(10, 0) == 1
  {
  }

  // ----- growth -----

  /** At least 1.5 in a hundred per step. */
  lemma {:induction false} AtLeastLinear(n: nat)
    ensures Pow(1015, n) * 1000 >= Pow(1000, n) * (1000 + 15 * n)
  {
    if n > 0 {
      AtLeastLinear(n - 1);
      PowPositive(1000, n - 1);
      var a, b := Pow(1015, n - 1), Pow(1000, n - 1);
      assert Pow(1015, n) * 1000 == 1015 * (a * 1000);
      assert 1015 * (b * (1000 + 15 * (n - 1))) >= (1000 * b) * (1000 + 15 * n) by {
        assert 1015 * (1000 + 15 * (n - 1)) >= 1000 * (1000 + 15 * n);
        assert 1015 * (b * (1000 + 15 * (n - 1))) == b * (1015 * (1000 + 15 * (n - 1)));
        assert (1000 * b) * (1000 + 15 * n) == b * (1000 * (1000 + 15 * n));
        MulMonotone(1000 * (1000 + 15 * n), 1015 * (1000 + 15 * (n - 1)), b);
      }
    }
  }

  lemma DoubledOnce()
    ensures Pow(1015, 67) >= 2 * Pow(1000, 67) > 0
  {
    AtLeastLinear(67);
    PowPositive(1000, 67);
    hide Pow;
  }

  lemma ProductsBelow(a: nat, b: nat, x: nat, y: nat, p: nat)
    requires a >= 2 * b && x >= p * y
    ensures a * x >= 2 * p * (b * y)
  {
    MulMonotone(2 * b, a, x);
    MulMonotone(p * y, x, 2 * b);
    assert p * y * (2 * b) == 2 * p * (b * y);
  }

  /** 67 steps double. */
  lemma {:induction false} Doubles(j: nat)
    ensures Pow(1015, 67 * j) >= Pow(2, j) * Pow(1000, 67 * j)
  {
    if j > 0 {
      var m := 67 * (j - 1);
      Doubles(j - 1);
      DoubledOnce();
      PowAdd(1015, 67, m);
      PowAdd(1000, 67, m);
      PowPositive(1000, m);
      PowPositive(1015, m);
      PowPositive(2, j - 1);
      assert Pow(2, j) == 2 * Pow(2, j - 1);
      hide Pow;
      assert 67 * j == 67 + m;
      ProductsBelow(Pow(1015, 67), Pow(1000, 67), Pow(1015, m), Pow(1000, m), Pow(2, j - 1));
    }
  }

  lemma GrowthStep(k: nat)
    ensures Growth(k) <= Growth(k + 1)
  {
    PowPositive(1015, k);
    PowPositive(1000, k);
    var a, b := Pow(1015, k) * 100_000, Pow(1000, k);
    assert Pow(1015, k + 1) * 100_000 == 1015 * a && Pow(1000, k + 1) == 1000 * b;
    hide Pow;
    var q := a / b;
    QuotientNatural(a, b);
    QuotientUnique(a, b, q);
    MulMonotone(q * b, a, 1000);
    assert q * (1000 * b) <= 1015 * a;
    AtLeast(1015 * a, 1000 * b, q);
  }

  lemma AtLeast(x: nat, d: nat, q: nat)
    requires d > 0 && q * d <= x
    ensures x / d >= q
  {
    if x / d < q {
      QuotientNatural(x, d);
      QuotientUnique(x, d, x / d);
      MulMonotone(x / d + 1, q, d);
    }
  }

  lemma {:induction false} GrowthMonotone(j: nat, k: nat)
    requires j <= k
    ensures Growth(j) <= Growth(k)
    decreases k
  {
    if j < k {
      hide Growth;
      GrowthMonotone(j, k - 1);
      GrowthStep(k - 1);
    }
  }

  /** Where the power has too many digits for 16 bits, it has long been above 64. */
  lemma GrowthExplodes(k: nat)
    requires k >= 3149
    ensures Growth(k) > 0x7FFF_FFFF_FFFF_FFFF
  {
    Doubles(47);
    PowPositive(1000, 3149);
    PowerOfTwoBound(47);
    var b := Pow(1000, 3149);
    hide Pow;
    MulMonotone(Pow(2, 47) * b, Pow(1015, 3149), 100_000);
    assert Pow(2, 47) * b * 100_000 == Pow(2, 47) * 100_000 * b;
    AtLeast(Pow(1015, 3149) * 100_000, b, Pow(2, 47) * 100_000);
    GrowthMonotone(3149, k);
  }

  // ----- the fee -----

  lemma GrowthAtLeastOne(k: nat)
    ensures Growth(k) >= 100_000
  {
    GrowthMonotone(0, k);
    assert Growth(0) == 100_000;
  }

  lemma PowerIs(k: nat)
    requires k <= 0xFFFF
    ensures CheckedPow(101_500, k) == if Growth(k) <= 0x7FFF_FFFF_FFFF_FFFF then Some(Growth(k)) else None
  {
    GrowthAtLeastOne(k);
    if k >= 3149 {
      GrowthExplodes(k);
    }
    if k == 0 {
      assert Growth(0) == 100_000;
    } else if 5 * k <= 0xFFFF {
      PowerIsGrowth(k);
    }
    hide Growth, Pow;
  }

  lemma LeastFeeGrown(g: Asset)
    requires g >= 0
    ensures CheckedMul(25, g) == Some(25 * g / 100_000)
  {
  }

  /** The network fee: 25 units times 1.015 to the power of a tenth of the receipts, those of the blocks
      from ten before the newest multiple of five up to it, and cut off twice. There is none exactly
      where the power does not fit 64 bits. */
  lemma NetworkFeeIs(blocks: seq<Block>)
    requires blocks != []
    ensures NetworkFee(blocks) == FeeFor(Recent(blocks))
  {
    var h := |blocks| - 1;
    assert h - h % 5 == Mark(blocks);
    var m := Mark(blocks);
    var k := (1 + Recent(blocks)) / 10;
    ReceiptsInIs(blocks, if m < 10 then 0 else m - 10, m + 1);
    GrowthAtLeastOne(k);
    if k > 0xFFFF {
      GrowthExplodes(k);
    } else {
      PowerIs(k);
      if Growth(k) <= 0x7FFF_FFFF_FFFF_FFFF {
        LeastFeeGrown(Growth(k));
      }
    }
    hide Growth, CheckedPow, CheckedMul, ReceiptsIn, ReceiptsOf;
  }

  /** No fee is above every fee. */
  predicate NotAbove(a: Option<int>, b: Option<int>) {
    b.Some? ==> a.Some? && a.value <= b.value
  }

  /** More receipts in the window never lower the fee. */
  lemma BusierIsDearer(a: seq<Block>, b: seq<Block>)
    requires a != [] && b != [] && Recent(a) <= Recent(b)
    ensures NotAbove(NetworkFee(a), NetworkFee(b))
  {
    hide Growth, Recent, NetworkFee;
    NetworkFeeIs(a);
    NetworkFeeIs(b);
    var j, k := (1 + Recent(a)) / 10, (1 + Recent(b)) / 10;
    GrowthMonotone(j, k);
  }

  /** The fee is 25 units up to 28 receipts in the window, and above from 29 on. */
  lemma RisesFrom29(blocks: seq<Block>)
    requires blocks != []
    ensures NetworkFee(blocks) == Some(25) <==> Recent(blocks) <= 28
    ensures NetworkFee(blocks).Some? ==> NetworkFee(blocks).value >= 25
  {
    hide Recent, NetworkFee;
    NetworkFeeIs(blocks);
    var k := (1 + Recent(blocks)) / 10;
    FirstGrowths();
    GrowthAtLeastOne(k);
    if k >= 3 {
      GrowthMonotone(3, k);
    }
    hide Growth;
  }

  lemma FirstGrowths()
    ensures Growth(0) == 100_000 && Growth(1) == 101_500 && Growth(2) == 103_022 && Growth(3) == 104_567
  {
    assert Pow(1015, 2) == 1_030_225 && Pow(1000, 2) == 1_000_000;
    assert Pow(1015, 3) == 1_045_678_375 && Pow(1000, 3) == 1_000_000_000;
  }

  // ----- the account fee -----

  /** How many of the receipts the account pays for. */
  function Payments(rs: seq<Receipt>, id: AccountId): nat {
    if rs == [] then 0
    else
      var payer := Payer(rs[|rs| - 1].tx);
      Payments(rs[..|rs| - 1], id) + if payer.Some? && payer.value.0 == id then 1 else 0
  }

  function PaymentsIn(blocks: seq<Block>, id: AccountId): nat {
    if blocks == [] then 0 else PaymentsIn(blocks[..|blocks| - 1], id) + Payments(blocks[|blocks| - 1].receipts, id)
  }

  /** The four blocks in front of `s` hold no payment of the account. */
  predicate QuietBefore(blocks: seq<Block>, id: AccountId, s: nat) {
    4 <= s <= |blocks| && forall i | s - 4 <= i < s :: Payments(blocks[i].receipts, id) == 0
  }

  /** Behind the newest four blocks in a row without a payment, or the beginning. */
  predicate Resets(blocks: seq<Block>, id: AccountId, s: nat) {
    && (s == 0 || QuietBefore(blocks, id, s))
    && forall t | s < t <= |blocks| :: !QuietBefore(blocks, id, t)
  }

  /** There always is such a point. */
  lemma {:induction false} LastReset(blocks: seq<Block>, id: AccountId, n: nat) returns (s: nat)
    requires n <= |blocks| && forall t | n < t <= |blocks| :: !QuietBefore(blocks, id, t)
    ensures s <= |blocks| && Resets(blocks, id, s)
    decreases n
  {
    if n == 0 || QuietBefore(blocks, id, n) {
      s := n;
    } else {
      s := LastReset(blocks, id, n - 1);
    }
  }

  lemma {:induction false} PaymentsAre(rs: seq<Receipt>, id: AccountId)
    ensures CountPaid(rs, id) == Payments(rs, id)
  {
    if rs != [] {
      PaymentsAre(rs[..|rs| - 1], id);
    }
  }

  /** The blocks from `from` up to but not including `to`. */
  function Part(blocks: seq<Block>, from: nat, to: nat): seq<Block>
    requires to <= |blocks|
  {
    if from < to then blocks[from..to] else []
  }

  lemma PartNext(blocks: seq<Block>, id: AccountId, from: nat, to: nat)
    requires 0 < to <= |blocks|
    ensures PaymentsIn(Part(blocks, from, to), id)
         == PaymentsIn(Part(blocks, from, to - 1), id) + if from < to then Payments(blocks[to - 1].receipts, id) else 0
  {
    hide Payments;
    if from < to {
      var part := blocks[from..to];
      assert part[..|part| - 1] == Part(blocks, from, to - 1) && part[|part| - 1] == blocks[to - 1];
    }
  }

  lemma {:induction false} WindowIs(blocks: seq<Block>, id: AccountId, n: nat, delta: nat, s: nat)
    requires n + delta <= |blocks| && delta < 4 && s <= n + delta
    requires forall i | n <= i < n + delta :: Payments(blocks[i].receipts, id) == 0
    requires s == 0 || QuietBefore(blocks, id, s)
    requires forall t | s < t <= n + delta :: !QuietBefore(blocks, id, t)
    ensures WindowCount(blocks, id, n, delta) == PaymentsIn(Part(blocks, s, n), id)
    decreases n
  {
    hide Payments, CountPaid, PaymentsIn;
    if n > 0 {
      PaymentsAre(blocks[n - 1].receipts, id);
      PartNext(blocks, id, s, n);
      hide Part;
      if Payments(blocks[n - 1].receipts, id) > 0 {
        assert s < n;
        WindowIs(blocks, id, n - 1, 0, s);
      } else if delta + 1 < 4 {
        WindowIs(blocks, id, n - 1, delta + 1, s);
      } else {
        assert QuietBefore(blocks, id, n + delta);
        NothingBehind(blocks, id, s, n - 1);
      }
    } else {
      NothingBehind(blocks, id, s, 0);
    }
  }

  lemma NothingBehind(blocks: seq<Block>, id: AccountId, from: nat, to: nat)
    requires to <= from && to <= |blocks|
    ensures PaymentsIn(Part(blocks, from, to), id) == 0
  {
  }

  /** An account is charged for one payment more than those in the pool and in all blocks since four
      blocks in a row without any, or since the beginning. */
  lemma FeeCountIs(blocks: seq<Block>, id: AccountId, rs: seq<Receipt>, s: nat)
    requires s <= |blocks| && Resets(blocks, id, s)
    ensures FeeCount(blocks, id, rs) == 1 + Payments(rs, id) + PaymentsIn(blocks[s..], id)
  {
    hide Payments, CountPaid, PaymentsIn, WindowCount, QuietBefore;
    PaymentsAre(rs, id);
    WindowIs(blocks, id, |blocks|, 0, s);
    assert Part(blocks, s, |blocks|) == blocks[s..];
  }

  /** In any reachable state: 25 units doubled once for each of them. */
  lemma AccountFeeIs(o: Oracles, n: Node, id: AccountId, s: nat)
    requires Reachable(o, n) && s <= |n.chain.blocks| && Resets(n.chain.blocks, id, s)
    ensures var payments := 1 + Payments(n.pool, id) + PaymentsIn(n.chain.blocks[s..], id);
            AccountFee(n.chain.blocks, id, n.pool) == if payments <= 46 then Some(25 * Pow(2, payments)) else None
  {
    hide Reachable, Resets, AccountFee, Payments, PaymentsIn, FeeCount, Pow;
    FeeCountIs(n.chain.blocks, id, n.pool, s);
    AccountFeeIsExact(o, n, id);
  }

  /** What an account is asked for in any reachable state: both fees, and nothing where one is missing. */
  lemma InfoIs(o: Oracles, n: Node, id: AccountId, s: nat)
    requires Reachable(o, n) && n.chain.blocks != [] && s <= |n.chain.blocks| && Resets(n.chain.blocks, id, s)
    ensures IsInfo(GetAccountInfo(n.chain, id, n.pool), GetAccount(n.chain.ledger, id, n.pool),
                   FeeFor(Recent(n.chain.blocks)), 1 + Payments(n.pool, id) + PaymentsIn(n.chain.blocks[s..], id))
  {
    hide Reachable, Resets, AccountFee, NetworkFee, Payments, PaymentsIn, FeeFor, Recent, Pow, GetAccount;
    AccountFeeIs(o, n, id, s);
    NetworkFeeIs(n.chain.blocks);
  }

  predicate IsInfo(info: Option<AccountInfo>, account: Option<Account>, network: Option<int>, payments: nat) {
    && (info.Some? <==> account.Some? && network.Some? && payments <= 46)
    && (info.Some? ==>
          && info.value.account == account.value
          && info.value.netFee == network.value && info.value.accountFee == 25 * Pow(2, payments))
  }
}
