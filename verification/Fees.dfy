// Fees that grow with activity: constants.rs, `get_account_fee` and `get_network_fee`.

module FeePolicy {
  import opened Wrappers
  import opened Numbers
  import opened Counting
  import opened Assets
  import opened Accounts
  import opened Blocks

  const GRAEL_FEE_MIN: Asset := 25
  const GRAEL_FEE_MULT: Asset := 200_000
  const GRAEL_FEE_NET_MULT: Asset := 101_500
  const GRAEL_ACC_CREATE_FEE_MULT: Asset := 200_000
  const GRAEL_ACC_CREATE_MIN_BAL_MULT: Asset := 200_000
  const NETWORK_FEE_AVG_WINDOW := 10
  const FEE_RESET_WINDOW := 4

  // ----- the account fee -----

  /** The account pays for the transaction. */
  predicate PaidBy(r: Receipt, id: AccountId) {
    match r.tx
    case OwnerTx(_, _, _) => false
    case MintTx(_, _, _, _, _) => false
    case CreateAccountTx(_, creator, _) => creator == id
    case UpdateAccountTx(_, accountId, _, _) => accountId == id
    case TransferTx(_, from, _, _, _, _) => from == id
  }

  function CountPaid(rs: seq<Receipt>, id: AccountId): nat {
    Count(rs, (r: Receipt) => PaidBy(r, id))
  }

  /** The payments in the newest of the first `n` blocks and backwards, until `FEE_RESET_WINDOW`
      blocks in a row have none. */
  function WindowCount(blocks: seq<Block>, id: AccountId, n: nat, delta: nat): nat
    requires n <= |blocks|
  {
    if n == 0 then 0
    else
      var paid := CountPaid(blocks[n - 1].receipts, id);
      var delta' := if paid > 0 then 0 else delta + 1;
      if delta' == FEE_RESET_WINDOW then paid else paid + WindowCount(blocks, id, n - 1, delta')
  }

  function FeeCount(blocks: seq<Block>, id: AccountId, rs: seq<Receipt>): nat {
    1 + CountPaid(rs, id) + WindowCount(blocks, id, |blocks|, 0)
  }

  /** The count is cast to 16 bits. */
  function AccountFee(blocks: seq<Block>, id: AccountId, rs: seq<Receipt>): Option<Asset> {
    var p :- CheckedPow(GRAEL_FEE_MULT, FeeCount(blocks, id, rs) % 0x1_0000);
    CheckedMul(GRAEL_FEE_MIN, p)
  }

  /** Where the cast loses nothing, the fee is the least fee doubled once per counted payment, and
      there is none from the 47th on. */
  lemma AccountFeeDoubles(blocks: seq<Block>, id: AccountId, rs: seq<Receipt>)
    requires FeeCount(blocks, id, rs) < 0x1_0000
    ensures var n := FeeCount(blocks, id, rs);
            AccountFee(blocks, id, rs) == if n <= 46 then Some(25 * Pow(2, n)) else None
  {
    hide FeeCount, CheckedPow, CheckedMul, Pow;
    var n := FeeCount(blocks, id, rs);
    PowOfTwoTokens(n);
    PowerOfTwoBound(n);
    PowPositive(2, n);
    if n <= 46 {
      LeastFeeTimes(Pow(2, n));
    }
  }

  lemma LeastFeeTimes(x: int)
    requires x >= 0 && x * UNITS_PER_TOKEN <= I64_MAX
    ensures CheckedMul(GRAEL_FEE_MIN, x * UNITS_PER_TOKEN) == Some(25 * x)
  {
    assert 25 * (x * UNITS_PER_TOKEN) == 25 * x * 100_000;
    TruncDivExact(25 * x, 100_000);
  }

  /** A window already partly spent counts no more. */
  lemma {:induction false} WindowShorter(blocks: seq<Block>, id: AccountId, n: nat, d1: nat, d2: nat)
    requires n <= |blocks| && d1 <= d2 < FEE_RESET_WINDOW
    ensures WindowCount(blocks, id, n, d2) <= WindowCount(blocks, id, n, d1)
  {
    if n > 0 && CountPaid(blocks[n - 1].receipts, id) == 0 && d2 + 1 < FEE_RESET_WINDOW {
      WindowShorter(blocks, id, n - 1, d1 + 1, d2 + 1);
    }
  }

  lemma {:induction false} WindowPrefix(blocks: seq<Block>, b: Block, id: AccountId, n: nat, delta: nat)
    requires n <= |blocks|
    ensures WindowCount(blocks + [b], id, n, delta) == WindowCount(blocks, id, n, delta)
  {
    if n > 0 {
      var delta' := if CountPaid(blocks[n - 1].receipts, id) > 0 then 0 else delta + 1;
      WindowPrefix(blocks, b, id, n - 1, delta');
    }
  }

  /** Producing a block from pending receipts never raises an account's count. */
  lemma ProducingNeverRaises(blocks: seq<Block>, b: Block, id: AccountId)
    ensures FeeCount(blocks + [b], id, []) <= FeeCount(blocks, id, b.receipts)
    ensures CountPaid(b.receipts, id) > 0 ==> FeeCount(blocks + [b], id, []) == FeeCount(blocks, id, b.receipts)
  {
    WindowPrefix(blocks, b, id, |blocks|, 0);
    WindowPrefix(blocks, b, id, |blocks|, 1);
    WindowShorter(blocks, id, |blocks|, 0, 1);
  }

  lemma FeeCountSnoc(blocks: seq<Block>, id: AccountId, rs: seq<Receipt>, r: Receipt)
    ensures FeeCount(blocks, id, rs + [r]) == FeeCount(blocks, id, rs) + if PaidBy(r, id) then 1 else 0
  {
    assert (rs + [r])[..|rs + [r]| - 1] == rs;
  }

  // ----- the network fee -----

  /** The receipts in blocks `from` up to and including `to`. */
  function ReceiptsIn(blocks: seq<Block>, from: nat, to: int): nat
    requires to < |blocks|
    decreases if to < from then 0 else to - from + 1
  {
    if to < from then 0 else ReceiptsIn(blocks, from, to - 1) + |blocks[to].receipts|
  }

  /** The fee moves every fifth block with the average number of receipts over a window. */
  function NetworkFee(blocks: seq<Block>): Option<Asset>
    requires blocks != []
  {
    var head := |blocks| - 1;
    var max := head - head % 5;
    var min := if max > NETWORK_FEE_AVG_WINDOW then max - NETWORK_FEE_AVG_WINDOW else 0;
    var count := (1 + ReceiptsIn(blocks, min, max)) / NETWORK_FEE_AVG_WINDOW;
    if count > 0xFFFF then None
    else
      var p :- CheckedPow(GRAEL_FEE_NET_MULT, count);
      CheckedMul(GRAEL_FEE_MIN, p)
  }

  lemma {:induction false} ReceiptsInPrefix(blocks: seq<Block>, b: Block, from: nat, to: int)
    requires to < |blocks|
    ensures ReceiptsIn(blocks + [b], from, to) == ReceiptsIn(blocks, from, to)
    decreases if to < from then 0 else to - from + 1
  {
    if to >= from {
      ReceiptsInPrefix(blocks, b, from, to - 1);
    }
  }

  /** The network fee stays as it is for five blocks at a time: a new block changes it only if its
      height is a multiple of five. */
  lemma NetworkFeeHolds(blocks: seq<Block>, b: Block)
    requires blocks != [] && |blocks| % 5 != 0
    ensures NetworkFee(blocks + [b]) == NetworkFee(blocks)
  {
    hide CheckedPow, CheckedMul, ReceiptsIn;
    var max := |blocks| - |blocks| % 5;
    assert (|blocks| - 1) - (|blocks| - 1) % 5 == max;
    ReceiptsInPrefix(blocks, b, if max > NETWORK_FEE_AVG_WINDOW then max - NETWORK_FEE_AVG_WINDOW else 0, max);
  }

  /** Powers and products of amounts not below zero stay there. */
  lemma PowNonNegative(a: Asset, n: u16)
    requires a > 0
    ensures CheckedPow(a, n).Some? ==> CheckedPow(a, n).value >= 0
  {
    PowPositive(a, n);
    if n > 0 && MAX_PRECISION * n <= 0xFFFF {
      var d := MAX_PRECISION * n - MAX_PRECISION;
      PowPositive(10, d);
      TruncDivUnique(Pow(a, n), Pow(10, d), TruncDiv(Pow(a, n), Pow(10, d)));
    }
  }

  lemma MulNonNegative(a: Asset, b: Asset)
    requires a >= 0 && b >= 0
    ensures CheckedMul(a, b).Some? ==> CheckedMul(a, b).value >= 0
  {
    assert a * b >= 0;
    TruncDivUnique(a * b, 100_000, TruncDiv(a * b, 100_000));
  }

  lemma FeesNonNegative(blocks: seq<Block>, id: AccountId, rs: seq<Receipt>)
    requires blocks != []
    ensures NetworkFee(blocks).Some? ==> NetworkFee(blocks).value >= 0
    ensures AccountFee(blocks, id, rs).Some? ==> AccountFee(blocks, id, rs).value >= 0
  {
    hide CheckedPow, CheckedMul;
    var n := FeeCount(blocks, id, rs) % 0x1_0000;
    PowNonNegative(GRAEL_FEE_MULT, n);
    if CheckedPow(GRAEL_FEE_MULT, n).Some? {
      MulNonNegative(GRAEL_FEE_MIN, CheckedPow(GRAEL_FEE_MULT, n).value);
    }
    var head := |blocks| - 1;
    var max := head - head % 5;
    var min := if max > NETWORK_FEE_AVG_WINDOW then max - NETWORK_FEE_AVG_WINDOW else 0;
    var count := (1 + ReceiptsIn(blocks, min, max)) / NETWORK_FEE_AVG_WINDOW;
    if count <= 0xFFFF {
      PowNonNegative(GRAEL_FEE_NET_MULT, count);
      if CheckedPow(GRAEL_FEE_NET_MULT, count).Some? {
        MulNonNegative(GRAEL_FEE_MIN, CheckedPow(GRAEL_FEE_NET_MULT, count).value);
      }
    }
  }
}
