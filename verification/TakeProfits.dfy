/** A take-profit in the simulated executor earns more than both its fees. */
module TakeProfits {
  import opened Numerics
  import opened Packets
  import opened Entry
  import opened Positions
  import opened Executor
  import opened Conservation
  import Ledger

  /** Positions keep the target and the size they were opened with. */
  ghost predicate Targeted(cfg: Config, pos: Position)
  {
    pos.tp == TargetPrice(pos.side, pos.entryPrice, cfg.tpPct) && pos.qtyRemaining == pos.qty && pos.entryPrice > 0.0
  }

  ghost predicate AllTargeted(cfg: Config, positions: seq<Position>)
  {
    forall i | 0 <= i < |positions| :: Targeted(cfg, positions[i])
  }

  lemma {:induction false} ExitsKeepTargets(cfg: Config, lags: map<SymbolId, LagState>, pkt: Packet, now: nat,
                                            positions: seq<Position>, ledger: Ledger.Account, n: nat)
    requires n <= |positions| && AllTargeted(cfg, positions)
    ensures AllTargeted(cfg, Exits(cfg, lags, pkt, now, positions, ledger, n).0)
  {
    if n > 0 {
      ExitsKeepTargets(cfg, lags, pkt, now, positions, ledger, n - 1);
      assert Targeted(cfg, positions[n - 1]);
    }
  }

  lemma EntryKeepsTargets(cfg: Config, s: State, pkt: Packet, c: Clocks)
    requires AllTargeted(cfg, s.positions) && pkt.refPrice > 0.0
    ensures AllTargeted(cfg, Entered(cfg, s, pkt, c).positions)
  {
    if Opens(cfg, s, pkt, c.entry) {
      assert Targeted(cfg, NewPosition(cfg, pkt, c.open));
    }
  }

  lemma TickKeepsTargets(cfg: Config, s: State, t: Tick, root: real, c: Clocks)
    requires AllTargeted(cfg, s.positions) && t.mid > 0.0
    ensures AllTargeted(cfg, OnTick(cfg, s, t, root, c).positions)
  {
    var s1 := Prepared(s, t, c);
    var pkt := PacketOf(cfg, s1, t, root, c);
    ExitsKeepTargets(cfg, s1.lags, pkt, c.exit, s1.positions, s1.ledger, |s1.positions|);
    EntryKeepsTargets(cfg, Exited(cfg, s1, pkt, c.exit), pkt, c);
  }

  predicate PositiveTick(e: Event) { e.BinanceTick? ==> e.tick.mid > 0.0 }

  lemma StepKeepsTargets(cfg: Config, s: State, e: Event)
    requires AllTargeted(cfg, s.positions) && PositiveTick(e)
    ensures AllTargeted(cfg, Step(cfg, s, e).positions)
  {
    if e.BinanceTick? {
      TickKeepsTargets(cfg, s, e.tick, e.root, e.clocks);
    } else if e.Timer? {
      MissFrame(cfg, s, e.at);
    } else {
      OnlyTicksAndTimersTrade(cfg, s, e);
    }
  }

  lemma {:induction false} RunKeepsTargets(cfg: Config, s: State, es: seq<Event>)
    requires AllTargeted(cfg, s.positions) && forall i | 0 <= i < |es| :: PositiveTick(es[i])
    ensures AllTargeted(cfg, Run(cfg, s, es).positions)
    decreases |es|
  {
    if es != [] {
      StepKeepsTargets(cfg, s, es[0]);
      RunKeepsTargets(cfg, Step(cfg, s, es[0]), es[1..]);
    }
  }

  /** The configuration passed startup with these fees. */
  ghost predicate Accepted(cfg: Config, fees: Fees)
  {
    && cfg.feeRate == fees.takerPct && 0.0 <= fees.takerPct <= 0.015 && fees.bufferPct >= 0.0
    && TargetAccepted(fees, cfg.tpPct) && cfg.tpPct < 1.0
  }

  lemma TakeProfitHitsTarget(cfg: Config, lags: map<SymbolId, LagState>, pkt: Packet, now: nat, pos: Position)
    requires Targeted(cfg, pos) && ExitOf(cfg, lags, pkt, now, pos) == Some(TakeProfit)
    ensures HitsTarget(pos.side, pos.entryPrice, cfg.tpPct, ExitMid(lags, pkt, pos))
  {
    var moved := cfg.pm.UpdateLagCapture(pos, pkt);
    assert moved.tp == pos.tp && moved.side == pos.side;
    assert ExitMid(lags, pkt, pos) > 0.0;
  }

  /** Booking the close adds gross profit less the exit fee. */
  lemma CloseBooksGross(cfg: Config, ledger: Ledger.Account, pos: Position, px: real, note: string)
    requires pos.symbolId in cfg.idToBybit && Profitable(pos.side, pos.entryPrice, px, pos.qtyRemaining, cfg.feeRate)
    ensures Closed(cfg, ledger, pos, px, note).realized - ledger.realized
            > Ledger.FeeOf(Ledger.Notional(pos.qtyRemaining, pos.entryPrice), cfg.feeRate)
  {
    GrossIsClosePnl(pos, px);
  }

  lemma GrossIsClosePnl(pos: Position, px: real)
    ensures Gross(pos.side, pos.entryPrice, px, pos.qtyRemaining)
            == Ledger.ClosePnl(CloseSide(pos.side), pos.entryPrice, px, pos.qtyRemaining)
  {
  }

  lemma EntryKeepsRealized(cfg: Config, s: State, pkt: Packet, c: Clocks)
    ensures Entered(cfg, s, pkt, c).ledger.realized == s.ledger.realized
  {
  }

  lemma TickBooksTakeProfit(cfg: Config, fees: Fees, s: State, t: Tick, root: real, c: Clocks)
    requires Accepted(cfg, fees) && |s.positions| == 1 && Known(cfg, s.positions) && AllTargeted(cfg, s.positions)
    requires s.positions[0].qty > 0.0
    requires var s1 := Prepared(s, t, c);
             ExitOf(cfg, s1.lags, PacketOf(cfg, s1, t, root, c), c.exit, s.positions[0]) == Some(TakeProfit)
    ensures OnTick(cfg, s, t, root, c).ledger.realized - s.ledger.realized > EntryFee(cfg, s.positions[0])
  {
    var pos, s1 := s.positions[0], Prepared(s, t, c);
    var pkt := PacketOf(cfg, s1, t, root, c);
    var px := ExitMid(s1.lags, pkt, pos);
    assert Targeted(cfg, pos);
    TakeProfitHitsTarget(cfg, s1.lags, pkt, c.exit, pos);
    TakeProfitPays(fees, cfg.tpPct, pos.side, pos.entryPrice, px, pos.qty);
    CloseBooksGross(cfg, s.ledger, pos, px, ReasonName(TakeProfit));
    LoneExit(cfg, s1.lags, pkt, c.exit, s.positions, s.ledger);
    EntryKeepsRealized(cfg, Exited(cfg, s1, pkt, c.exit), pkt, c);
  }

  /** The fee recorded when the position was opened. */
  function EntryFee(cfg: Config, pos: Position): real
  {
    Ledger.FeeOf(Ledger.Notional(pos.qty, pos.entryPrice), cfg.feeRate)
  }

  lemma LoneExit(cfg: Config, lags: map<SymbolId, LagState>, pkt: Packet, now: nat,
                 positions: seq<Position>, ledger: Ledger.Account)
    requires |positions| == 1 && ExitOf(cfg, lags, pkt, now, positions[0]).Some?
    ensures Exits(cfg, lags, pkt, now, positions, ledger)
            == ([], Closed(cfg, ledger, positions[0], ExitMid(lags, pkt, positions[0]),
                           ReasonName(ExitOf(cfg, lags, pkt, now, positions[0]).value)))
  {
    assert Exits(cfg, lags, pkt, now, positions, ledger, 0) == ([], ledger);
  }

  /** The tick closes the one open position, of positive size, at its target. */
  predicate TakesProfit(cfg: Config, s: State, t: Tick, root: real, c: Clocks)
  {
    var s1 := Prepared(s, t, c);
    && |s.positions| == 1 && s.positions[0].qty > 0.0
    && ExitOf(cfg, s1.lags, PacketOf(cfg, s1, t, root, c), c.exit, s.positions[0]) == Some(TakeProfit)
  }

  /** Net PnL (exit fee already paid) rises by more than the recorded entry fee. */
  predicate BeatsFees(cfg: Config, s: State, t: Tick, root: real, c: Clocks)
  {
    TakesProfit(cfg, s, t, root, c) ==>
      OnTick(cfg, s, t, root, c).ledger.NetPnl() - s.ledger.NetPnl() > EntryFee(cfg, s.positions[0])
  }

  lemma TargetedStateBeatsFees(cfg: Config, fees: Fees, s: State, t: Tick, root: real, c: Clocks)
    requires Accepted(cfg, fees) && Sound(cfg, s) && AllTargeted(cfg, s.positions)
    ensures BeatsFees(cfg, s, t, root, c)
  {
    if TakesProfit(cfg, s, t, root, c) {
      TickBooksTakeProfit(cfg, fees, s, t, root, c);
    }
  }

  /** A take-profit is really a profit: after any run on positive prices, under
      a configuration accepted at startup with a taker fee up to 1.5 percent, a
      tick that closes the open position for TakeProfit earns more than both fees. */
  lemma TakeProfitBeatsFees(cfg: Config, fees: Fees, at: nat, es: seq<Event>, s: State, t: Tick, root: real, c: Clocks)
    requires Accepted(cfg, fees) && forall i | 0 <= i < |es| :: PositiveTick(es[i])
    requires s == Run(cfg, Init(cfg, at), es)
    ensures BeatsFees(cfg, s, t, root, c)
  {
    InitRunIsSound(cfg, at, es, s);
    InitRunIsTargeted(cfg, at, es, s);
    TargetedStateBeatsFees(cfg, fees, s, t, root, c);
  }

  lemma InitRunIsSound(cfg: Config, at: nat, es: seq<Event>, s: State)
    requires s == Run(cfg, Init(cfg, at), es)
    ensures Sound(cfg, s)
  {
    InitIsSound(cfg, at);
    RunKeepsSound(cfg, Init(cfg, at), es);
  }

  lemma InitRunIsTargeted(cfg: Config, at: nat, es: seq<Event>, s: State)
    requires s == Run(cfg, Init(cfg, at), es) && forall i | 0 <= i < |es| :: PositiveTick(es[i])
    ensures AllTargeted(cfg, s.positions)
  {
    RunKeepsTargets(cfg, Init(cfg, at), es);
  }
}
