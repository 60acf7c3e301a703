/** The paper ledger of crates/executor-core/src/paper_ledger.rs. */
module Ledger {
  import opened Numerics

  datatype OrderSide = Buy | Sell

  datatype Fill = Fill(symbol: string, side: OrderSide, qty: real, price: real, notional: real,
                       fee: real, isEntry: bool, dryRun: bool, note: string)

  /** The fields of a ledger at one moment. */
  datatype Account = Account(fills: seq<Fill>, realized: real, fees: real, openEntries: nat, closedTrades: nat)
  {
    function Entered(symbol: string, side: OrderSide, qty: real, price: real, feeRate: real, dryRun: bool): Account
    {
      var notional := Notional(qty, price);
      var fee := FeeOf(notional, feeRate);
      Account(fills + [Fill(symbol, side, qty, price, notional, fee, true, dryRun, "entry")],
              realized, fees + fee, openEntries + 1, closedTrades)
    }

    function Exited(symbol: string, side: OrderSide, qty: real, entryPrice: real, exitPrice: real,
                    feeRate: real, dryRun: bool, note: string): Account
    {
      var notional := Notional(qty, exitPrice);
      var fee := FeeOf(notional, feeRate);
      var pnl := ClosePnl(side, entryPrice, exitPrice, qty);
      Account(fills + [Fill(symbol, side, qty, exitPrice, notional, fee, false, dryRun, note)],
              realized + (pnl - fee), fees + fee, openEntries, closedTrades + 1)
    }

    function NetPnl(): real { realized }
  }

  function Notional(qty: real, price: real): real { qty * price }

  function FeeOf(notional: real, rate: real): real { notional * rate }

  /** Money received by selling, paid by buying. */
  function Signed(side: OrderSide, amount: real): real
  {
    if side == Sell then amount else -amount
  }

  /** Profit of closing at `exitPrice` a position entered at `entryPrice`. */
  function ClosePnl(closeSide: OrderSide, entryPrice: real, exitPrice: real, qty: real): real
  {
    Direction(closeSide) * (exitPrice - entryPrice) * qty
  }

  const EMPTY := Account([], 0.0, 0.0, 0, 0)

  /** Sign of the profit of closing with an order on this side. */
  function Direction(closeSide: OrderSide): real
  {
    if closeSide == Sell then 1.0 else -1.0
  }

  class PaperLedger {
    var fills: seq<Fill>
    var realized: real
    var fees: real
    var openEntries: nat
    var closedTrades: nat

    ghost function Value(): Account
      reads this
    {
      Account(fills, realized, fees, openEntries, closedTrades)
    }

    constructor ()
      ensures Value() == EMPTY
    {
      fills, realized, fees, openEntries, closedTrades := [], 0.0, 0.0, 0, 0;
    }

    method RecordEntry(symbol: string, side: OrderSide, qty: real, price: real, feeRate: real, dryRun: bool)
      modifies this
      ensures Value() == old(Value()).Entered(symbol, side, qty, price, feeRate, dryRun)
    {
      var notional := Notional(qty, price);
      var fee := FeeOf(notional, feeRate);
      fees := fees + fee;
      openEntries := openEntries + 1;
      fills := fills + [Fill(symbol, side, qty, price, notional, fee, true, dryRun, "entry")];
    }

    method RecordExit(symbol: string, side: OrderSide, qty: real, entryPrice: real, exitPrice: real,
                      feeRate: real, dryRun: bool, note: string)
      modifies this
      ensures Value() == old(Value()).Exited(symbol, side, qty, entryPrice, exitPrice, feeRate, dryRun, note)
    {
      var notional := Notional(qty, exitPrice);
      var fee := FeeOf(notional, feeRate);
      fees := fees + fee;
      var pnl := ClosePnl(side, entryPrice, exitPrice, qty);
      realized := realized + (pnl - fee);
      closedTrades := closedTrades + 1;
      fills := fills + [Fill(symbol, side, qty, exitPrice, notional, fee, false, dryRun, note)];
    }

    method NetPnl() returns (r: real)
      ensures r == Value().NetPnl()
    {
      r := realized;
    }
  }

  // ------------------------------------------------------------------
  // What the fills alone say
  // ------------------------------------------------------------------

  function CashOf(f: Fill): real { Signed(f.side, f.notional) }

  function FeeIn(f: Fill): real { f.fee }

  function ExitFeeIn(f: Fill): real { if f.isEntry then 0.0 else f.fee }

  function EntryFeeIn(f: Fill): real { if f.isEntry then f.fee else 0.0 }

  /** Money received minus money paid over all fills, fees aside. */
  function Cash(fills: seq<Fill>): real { Total(fills, CashOf) }

  function Fees(fills: seq<Fill>): real { Total(fills, FeeIn) }

  function ExitFees(fills: seq<Fill>): real { Total(fills, ExitFeeIn) }

  function EntryFees(fills: seq<Fill>): real { Total(fills, EntryFeeIn) }

  function Entries(fills: seq<Fill>, n: nat := |fills|): nat
    requires n <= |fills|
    decreases n
  {
    if n == 0 then 0 else Entries(fills, n - 1) + if fills[n - 1].isEntry then 1 else 0
  }

  lemma {:induction false} EntriesPrefix(fills: seq<Fill>, f: Fill, n: nat)
    requires n <= |fills|
    ensures Entries(fills + [f], n) == Entries(fills, n)
  {
    if n > 0 {
      EntriesPrefix(fills, f, n - 1);
    }
  }

  lemma AppendFill(fills: seq<Fill>, f: Fill)
    ensures Cash(fills + [f]) == Cash(fills) + CashOf(f)
    ensures Fees(fills + [f]) == Fees(fills) + FeeIn(f)
    ensures ExitFees(fills + [f]) == ExitFees(fills) + ExitFeeIn(f)
    ensures EntryFees(fills + [f]) == EntryFees(fills) + EntryFeeIn(f)
    ensures Entries(fills + [f]) == Entries(fills) + if f.isEntry then 1 else 0
  {
    TotalAppend(fills, f, CashOf);
    TotalAppend(fills, f, FeeIn);
    TotalAppend(fills, f, ExitFeeIn);
    TotalAppend(fills, f, EntryFeeIn);
    EntriesPrefix(fills, f, |fills|);
  }

  lemma {:induction false} FeesSplit(fills: seq<Fill>, n: nat)
    requires n <= |fills|
    ensures Total(fills, FeeIn, n) == Total(fills, EntryFeeIn, n) + Total(fills, ExitFeeIn, n)
  {
    if n > 0 {
      FeesSplit(fills, n - 1);
    }
  }

  /** The running totals agree with the fills they summarise. */
  ghost predicate Consistent(a: Account)
  {
    && a.fees == Fees(a.fills)
    && a.openEntries == Entries(a.fills)
    && a.openEntries + a.closedTrades == |a.fills|
  }

  /** Money still tied up in positions: realized profit, before its exit
      fees, is the cash of the fills plus this. */
  function TiedUp(a: Account): real
  {
    a.realized + ExitFees(a.fills) - Cash(a.fills)
  }

  /** Opening ties up the signed cost of the position. */
  lemma EnteredEffect(a: Account, symbol: string, side: OrderSide, qty: real, price: real, feeRate: real, dryRun: bool)
    requires Consistent(a)
    ensures var b := a.Entered(symbol, side, qty, price, feeRate, dryRun);
            Consistent(b) && TiedUp(b) == TiedUp(a) - Signed(side, Notional(qty, price))
  {
    var b := a.Entered(symbol, side, qty, price, feeRate, dryRun);
    AppendFill(a.fills, b.fills[|a.fills|]);
  }

  lemma PnlIsNotionalDifference(side: OrderSide, entryPrice: real, exitPrice: real, qty: real)
    ensures ClosePnl(side, entryPrice, exitPrice, qty)
            == Signed(side, Notional(qty, exitPrice)) - Signed(side, Notional(qty, entryPrice))
  {
  }

  /** Closing frees exactly the signed cost at the entry price, whatever the
      exit price and the fee. */
  lemma ExitedEffect(a: Account, symbol: string, side: OrderSide, qty: real, entryPrice: real, exitPrice: real,
                     feeRate: real, dryRun: bool, note: string)
    requires Consistent(a)
    ensures var b := a.Exited(symbol, side, qty, entryPrice, exitPrice, feeRate, dryRun, note);
            Consistent(b) && TiedUp(b) == TiedUp(a) - Signed(side, Notional(qty, entryPrice))
  {
    var b := a.Exited(symbol, side, qty, entryPrice, exitPrice, feeRate, dryRun, note);
    AppendFill(a.fills, b.fills[|a.fills|]);
    PnlIsNotionalDifference(side, entryPrice, exitPrice, qty);
  }

  /** A flat account reports its cash minus the exit fees only: net PnL
      overstates what is really left by the sum of the entry fees. */
  lemma NetPnlOmitsEntryFees(a: Account)
    requires Consistent(a) && TiedUp(a) == 0.0
    ensures a.NetPnl() == (Cash(a.fills) - a.fees) + EntryFees(a.fills)
  {
    FeesSplit(a.fills, |a.fills|);
  }
}
