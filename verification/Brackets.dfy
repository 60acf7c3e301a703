/** What an open position risks: its size, and what its stop costs. */
module Brackets {
  import opened Numerics
  import opened Packets
  import opened Entry
  import opened Positions
  import opened Executor
  import opened Conservation
  import TakeProfits
  import Ledger

  /** The least distance of the stop from the entry price. */
  function StopGap(cfg: Config, entry: real): real { Times(entry * 0.001, cfg.atrMult) }

  /** Positions keep a stop on the losing side and the size their budget gave them. */
  ghost predicate Bracketed(cfg: Config, pos: Position)
  {
    && pos.entryPrice > 0.0 && pos.qtyRemaining == pos.qty
    && (if pos.side == Long then pos.stop <= pos.entryPrice - StopGap(cfg, pos.entryPrice)
        else pos.stop >= pos.entryPrice + StopGap(cfg, pos.entryPrice))
    && Ledger.Notional(pos.qty, pos.entryPrice) == Times(Budget(cfg, pos.symbolId), Min(pos.entryPrice, 1.0))
  }

  ghost predicate AllBracketed(cfg: Config, positions: seq<Position>)
  {
    forall i | 0 <= i < |positions| :: Bracketed(cfg, positions[i])
  }

  lemma SizeMeetsBudget(budget: real, px: real)
    requires px > 0.0
    ensures Ledger.Notional(budget / Max(px, 1.0), px) == Times(budget, Min(px, 1.0))
  {
    DivMul(budget, Max(px, 1.0));
  }

  lemma NewIsBracketed(cfg: Config, pkt: Packet, openNs: nat)
    requires pkt.symbolId in cfg.idToBybit && pkt.refPrice > 0.0 && cfg.atrMult >= 0.0
    ensures Bracketed(cfg, NewPosition(cfg, pkt, openNs))
  {
    SizeMeetsBudget(Budget(cfg, pkt.symbolId), pkt.refPrice);
    MulMono(pkt.refPrice * 0.001, Max(pkt.atr, pkt.refPrice * 0.001), cfg.atrMult);
  }

  lemma {:induction false} ExitsKeepBrackets(cfg: Config, lags: map<SymbolId, LagState>, pkt: Packet, now: nat,
                                             positions: seq<Position>, ledger: Ledger.Account, n: nat)
    requires n <= |positions| && AllBracketed(cfg, positions)
    ensures AllBracketed(cfg, Exits(cfg, lags, pkt, now, positions, ledger, n).0)
  {
    if n > 0 {
      ExitsKeepBrackets(cfg, lags, pkt, now, positions, ledger, n - 1);
      assert Bracketed(cfg, positions[n - 1]);
    }
  }

  lemma EntryKeepsBrackets(cfg: Config, s: State, pkt: Packet, c: Clocks)
    requires AllBracketed(cfg, s.positions) && pkt.refPrice > 0.0 && cfg.atrMult >= 0.0
    ensures AllBracketed(cfg, Entered(cfg, s, pkt, c).positions)
  {
    if Opens(cfg, s, pkt, c.entry) {
      NewIsBracketed(cfg, pkt, c.open);
    }
  }

  lemma TickKeepsBrackets(cfg: Config, s: State, t: Tick, root: real, c: Clocks)
    requires AllBracketed(cfg, s.positions) && t.mid > 0.0 && cfg.atrMult >= 0.0
    ensures AllBracketed(cfg, OnTick(cfg, s, t, root, c).positions)
  {
    var s1 := Prepared(s, t, c);
    var pkt := PacketOf(cfg, s1, t, root, c);
    ExitsKeepBrackets(cfg, s1.lags, pkt, c.exit, s1.positions, s1.ledger, |s1.positions|);
    EntryKeepsBrackets(cfg, Exited(cfg, s1, pkt, c.exit), pkt, c);
  }

  lemma StepKeepsBrackets(cfg: Config, s: State, e: Event)
    requires AllBracketed(cfg, s.positions) && TakeProfits.PositiveTick(e) && cfg.atrMult >= 0.0
    ensures AllBracketed(cfg, Step(cfg, s, e).positions)
  {
    if e.BinanceTick? {
      TickKeepsBrackets(cfg, s, e.tick, e.root, e.clocks);
    } else if e.Timer? {
      MissFrame(cfg, s, e.at);
    } else {
      OnlyTicksAndTimersTrade(cfg, s, e);
    }
  }

  lemma {:induction false} RunKeepsBrackets(cfg: Config, s: State, es: seq<Event>)
    requires AllBracketed(cfg, s.positions) && cfg.atrMult >= 0.0
    requires forall i | 0 <= i < |es| :: TakeProfits.PositiveTick(es[i])
    ensures AllBracketed(cfg, Run(cfg, s, es).positions)
    decreases |es|
  {
    if es != [] {
      StepKeepsBrackets(cfg, s, es[0]);
      RunKeepsBrackets(cfg, Step(cfg, s, es[0]), es[1..]);
    }
  }

  /** Exposure over runs: on positive prices the notional at risk is, at any
      moment, nothing or exactly one symbol's budget, scaled down by the price
      only below one dollar. */
  lemma ExposureIsOneBudget(cfg: Config, at: nat, es: seq<Event>, s: State)
    requires cfg.atrMult >= 0.0 && forall i | 0 <= i < |es| :: TakeProfits.PositiveTick(es[i])
    requires s == Run(cfg, Init(cfg, at), es)
    ensures |s.positions| <= 1
    ensures forall pos | pos in s.positions ::
              Ledger.Notional(pos.qty, pos.entryPrice) == Times(Budget(cfg, pos.symbolId), Min(pos.entryPrice, 1.0))
  {
    TakeProfits.InitRunIsSound(cfg, at, es, s);
    InitRunIsBracketed(cfg, at, es, s);
  }

  lemma InitRunIsBracketed(cfg: Config, at: nat, es: seq<Event>, s: State)
    requires cfg.atrMult >= 0.0 && forall i | 0 <= i < |es| :: TakeProfits.PositiveTick(es[i])
    requires s == Run(cfg, Init(cfg, at), es)
    ensures AllBracketed(cfg, s.positions)
  {
    RunKeepsBrackets(cfg, Init(cfg, at), es);
  }

  // ------------------------------------------------------------------
  // What a stop costs
  // ------------------------------------------------------------------

  /** The price at which this tick stops the one open position out, if it does. */
  function StoppedAt(cfg: Config, s: State, t: Tick, root: real, c: Clocks): Option<real>
  {
    var s1 := Prepared(s, t, c);
    var pkt := PacketOf(cfg, s1, t, root, c);
    if |s.positions| == 1 && ExitOf(cfg, s1.lags, pkt, c.exit, s.positions[0]) == Some(StopLoss)
    then Some(ExitMid(s1.lags, pkt, s.positions[0])) else None
  }

  /** Net PnL falls by at least the stop distance on the whole size, and by the
      exit fee on top. */
  ghost predicate CostsTheStop(cfg: Config, s: State, t: Tick, root: real, c: Clocks)
  {
    var px := StoppedAt(cfg, s, t, root, c);
    px.Some? && s.positions[0].qty > 0.0 ==>
      var pos := s.positions[0];
      OnTick(cfg, s, t, root, c).ledger.NetPnl()
      <= s.ledger.NetPnl() - Times(StopGap(cfg, pos.entryPrice), pos.qty)
         - Ledger.FeeOf(Ledger.Notional(pos.qty, px.value), cfg.feeRate)
  }

  lemma StopIsBehind(cfg: Config, lags: map<SymbolId, LagState>, pkt: Packet, now: nat, pos: Position)
    requires Bracketed(cfg, pos) && pos.qty > 0.0
    requires ExitOf(cfg, lags, pkt, now, pos) == Some(StopLoss)
    ensures Ledger.ClosePnl(CloseSide(pos.side), pos.entryPrice, ExitMid(lags, pkt, pos), pos.qty)
            <= -Times(StopGap(cfg, pos.entryPrice), pos.qty)
  {
    var px := ExitMid(lags, pkt, pos);
    var gain := if pos.side == Long then px - pos.entryPrice else pos.entryPrice - px;
    assert gain <= -StopGap(cfg, pos.entryPrice);
    MulMono(gain, -StopGap(cfg, pos.entryPrice), pos.qty);
  }

  lemma TickBooksStop(cfg: Config, s: State, t: Tick, root: real, c: Clocks)
    requires Known(cfg, s.positions) && AllBracketed(cfg, s.positions)
    ensures CostsTheStop(cfg, s, t, root, c)
  {
    if StoppedAt(cfg, s, t, root, c).Some? && s.positions[0].qty > 0.0 {
      var pos, s1 := s.positions[0], Prepared(s, t, c);
      var pkt := PacketOf(cfg, s1, t, root, c);
      assert Bracketed(cfg, pos);
      StopIsBehind(cfg, s1.lags, pkt, c.exit, pos);
      TakeProfits.LoneExit(cfg, s1.lags, pkt, c.exit, s.positions, s.ledger);
      TakeProfits.EntryKeepsRealized(cfg, Exited(cfg, s1, pkt, c.exit), pkt, c);
    }
  }

  /** A stop is really a loss, and of known least size: after any run on
      positive prices, a tick that stops the open position out loses at least
      the stop distance on the whole size, plus the exit fee. */
  lemma StopLossCosts(cfg: Config, at: nat, es: seq<Event>, s: State, t: Tick, root: real, c: Clocks)
    requires cfg.atrMult >= 0.0 && forall i | 0 <= i < |es| :: TakeProfits.PositiveTick(es[i])
    requires s == Run(cfg, Init(cfg, at), es)
    ensures CostsTheStop(cfg, s, t, root, c)
  {
    TakeProfits.InitRunIsSound(cfg, at, es, s);
    InitRunIsBracketed(cfg, at, es, s);
    TickBooksStop(cfg, s, t, root, c);
  }
}
