/** Cash conservation of the simulated ledger over whole runs. */
module Conservation {
  import opened Numerics
  import opened Packets
  import opened Positions
  import opened Executor
  import Metrics
  import Entry
  import Ledger

  function CostOf(pos: Position): real
  {
    Ledger.Signed(CloseSide(pos.side), Ledger.Notional(pos.qtyRemaining, pos.entryPrice))
  }

  /** Signed entry cost of the open positions. */
  function OpenCost(positions: seq<Position>): real
  {
    Total(positions, CostOf)
  }

  ghost predicate Known(cfg: Config, positions: seq<Position>)
  {
    forall i | 0 <= i < |positions| :: positions[i].symbolId in cfg.idToBybit
  }

  /** The ledger explains the positions: totals agree with the fills, what is
      tied up is the cost of what is open, and entries are closed or open. */
  ghost predicate Balanced(cfg: Config, ledger: Ledger.Account, positions: seq<Position>)
  {
    && Known(cfg, positions)
    && Ledger.Consistent(ledger)
    && Ledger.TiedUp(ledger) == OpenCost(positions)
    && ledger.openEntries == ledger.closedTrades + |positions|
  }

  /** Each position the exit loop has passed is still open at its cost or has
      freed exactly that. */
  lemma {:induction false} ExitsKeepBalance(cfg: Config, lags: map<SymbolId, Entry.LagState>, pkt: Packet, now: nat,
                                            positions: seq<Position>, ledger: Ledger.Account, n: nat)
    requires Known(cfg, positions) && Ledger.Consistent(ledger) && n <= |positions|
    ensures var (kept, book) := Exits(cfg, lags, pkt, now, positions, ledger, n);
            && Known(cfg, kept) && |kept| <= n && Ledger.Consistent(book)
            && Ledger.TiedUp(book) - OpenCost(kept) == Ledger.TiedUp(ledger) - Total(positions, CostOf, n)
            && book.openEntries == ledger.openEntries
            && book.closedTrades + |kept| == ledger.closedTrades + n
  {
    if n > 0 {
      var pos := positions[n - 1];
      ExitsKeepBalance(cfg, lags, pkt, now, positions, ledger, n - 1);
      var (kept, book) := Exits(cfg, lags, pkt, now, positions, ledger, n - 1);
      match ExitOf(cfg, lags, pkt, now, pos)
      case None => KeepKeepsCost(cfg, kept, pos, pkt);
      case Some(reason) => CloseFreesCost(cfg, book, pos, ExitMid(lags, pkt, pos), ReasonName(reason));
    }
  }

  lemma KeepKeepsCost(cfg: Config, kept: seq<Position>, pos: Position, pkt: Packet)
    requires Known(cfg, kept) && pos.symbolId in cfg.idToBybit
    ensures var moved := kept + [cfg.pm.UpdateLagCapture(pos, pkt)];
            Known(cfg, moved) && OpenCost(moved) == OpenCost(kept) + CostOf(pos)
  {
    var moved := cfg.pm.UpdateLagCapture(pos, pkt);
    TotalAppend(kept, moved, CostOf);
    assert CostOf(moved) == CostOf(pos);
  }

  lemma CloseFreesCost(cfg: Config, ledger: Ledger.Account, pos: Position, px: real, note: string)
    requires pos.symbolId in cfg.idToBybit && Ledger.Consistent(ledger)
    ensures var book := Closed(cfg, ledger, pos, px, note);
            && Ledger.Consistent(book)
            && Ledger.TiedUp(book) == Ledger.TiedUp(ledger) - CostOf(pos)
            && book.closedTrades == ledger.closedTrades + 1 && book.openEntries == ledger.openEntries
  {
    Ledger.ExitedEffect(ledger, cfg.idToBybit[pos.symbolId], CloseSide(pos.side), pos.qtyRemaining, pos.entryPrice, px,
                        cfg.feeRate, true, note);
  }

  lemma {:induction false} FlattenKeepsBalance(cfg: Config, lags: map<SymbolId, Entry.LagState>,
                                               positions: seq<Position>, ledger: Ledger.Account, n: nat)
    requires Known(cfg, positions) && Ledger.Consistent(ledger) && n <= |positions|
    ensures var book := Flattened(cfg, lags, positions, ledger, n);
            && Ledger.Consistent(book)
            && Ledger.TiedUp(book) == Ledger.TiedUp(ledger) - Total(positions, CostOf, n)
            && book.closedTrades == ledger.closedTrades + n && book.openEntries == ledger.openEntries
  {
    if n > 0 {
      var pos := positions[n - 1];
      FlattenKeepsBalance(cfg, lags, positions, ledger, n - 1);
      CloseFreesCost(cfg, Flattened(cfg, lags, positions, ledger, n - 1), pos,
                     MidForSymbol(lags, pos.symbolId, pos.entryPrice), "flatten");
    }
  }

  /** What every reachable simulated state satisfies. */
  ghost predicate Sound(cfg: Config, s: State)
  {
    Balanced(cfg, s.ledger, s.positions) && |s.positions| <= 1
  }

  lemma OpenKeepsSound(cfg: Config, s: State, pkt: Packet, c: Clocks)
    requires Sound(cfg, s) && s.positions == [] && pkt.symbolId in cfg.idToBybit
    ensures Sound(cfg, Opened(cfg, s, pkt, c))
  {
    var pos := NewPosition(cfg, pkt, c.open);
    Ledger.EnteredEffect(s.ledger, pos.symbolName, EntryOrder(pos.side), pos.qty, pos.entryPrice, cfg.feeRate, true);
    TotalAppend(s.positions, pos, CostOf);
  }

  lemma TickKeepsSound(cfg: Config, s: State, t: Entry.Tick, root: real, c: Clocks)
    requires Sound(cfg, s)
    ensures Sound(cfg, OnTick(cfg, s, t, root, c))
  {
    var s1 := Prepared(s, t, c);
    var pkt := PacketOf(cfg, s1, t, root, c);
    ExitsKeepBalance(cfg, s1.lags, pkt, c.exit, s1.positions, s1.ledger, |s1.positions|);
    var s2 := Exited(cfg, s1, pkt, c.exit);
    assert Sound(cfg, s2);
    if Opens(cfg, s2, pkt, c.entry) {
      OpenKeepsSound(cfg, Admitted(cfg, s2, pkt, c.entry), pkt, c);
    }
  }

  lemma FlattenKeepsSound(cfg: Config, s: State)
    requires Sound(cfg, s)
    ensures Sound(cfg, Flatten(cfg, s))
  {
    FlattenKeepsBalance(cfg, s.lags, s.positions, s.ledger, |s.positions|);
  }

  lemma TimerKeepsSound(cfg: Config, s: State, at: nat)
    requires Sound(cfg, s)
    ensures Sound(cfg, OnTimer(cfg, s, at))
  {
    MissFrame(cfg, s, at);
    FlattenKeepsSound(cfg, MissCounted(cfg, s, at));
  }

  lemma StepKeepsSound(cfg: Config, s: State, e: Event)
    requires Sound(cfg, s)
    ensures Sound(cfg, Step(cfg, s, e))
  {
    if e.BinanceTick? {
      TickKeepsSound(cfg, s, e.tick, e.root, e.clocks);
    } else if e.Timer? {
      TimerKeepsSound(cfg, s, e.at);
    } else {
      OnlyTicksAndTimersTrade(cfg, s, e);
    }
  }

  lemma {:induction false} RunKeepsSound(cfg: Config, s: State, es: seq<Event>)
    requires Sound(cfg, s)
    ensures Sound(cfg, Run(cfg, s, es))
    decreases |es|
  {
    if es != [] {
      StepKeepsSound(cfg, s, es[0]);
      RunKeepsSound(cfg, Step(cfg, s, es[0]), es[1..]);
    }
  }

  /** The books of a state add up: realized profit plus all exit fees is the
      signed cash of all fills plus the signed entry cost of what is open; the
      fee total is the sum of the fill fees; every fill is an entry or a closed
      trade; every entry is closed or open, and at most one is open. */
  ghost predicate BooksAddUp(s: State)
  {
    var fills := s.ledger.fills;
    && s.ledger.realized + Ledger.ExitFees(fills) == Ledger.Cash(fills) + OpenCost(s.positions)
    && s.ledger.fees == Ledger.Fees(fills)
    && s.ledger.openEntries == Ledger.Entries(fills)
    && s.ledger.openEntries + s.ledger.closedTrades == |fills|
    && s.ledger.openEntries == s.ledger.closedTrades + |s.positions|
    && |s.positions| <= 1
  }

  lemma SoundBooksAddUp(cfg: Config, s: State)
    requires Sound(cfg, s)
    ensures BooksAddUp(s)
  {
  }

  lemma NothingIsBalanced(cfg: Config, ledger: Ledger.Account, positions: seq<Position>)
    requires |ledger.fills| == 0 && |positions| == 0
    requires ledger.realized == 0.0 && ledger.fees == 0.0 && ledger.openEntries == 0 && ledger.closedTrades == 0
    ensures Balanced(cfg, ledger, positions)
  {
  }

  lemma InitIsSound(cfg: Config, at: nat)
    ensures Sound(cfg, Init(cfg, at))
  {
    var s := Init(cfg, at);
    NothingIsBalanced(cfg, s.ledger, s.positions);
  }

  /** Cash conservation: the books add up after any run of the simulated executor. */
  lemma CashIsConserved(cfg: Config, at: nat, es: seq<Event>)
    ensures BooksAddUp(Run(cfg, Init(cfg, at), es))
  {
    InitIsSound(cfg, at);
    RunKeepsSound(cfg, Init(cfg, at), es);
    SoundBooksAddUp(cfg, Run(cfg, Init(cfg, at), es));
  }

  /** Whenever nothing is open, the net PnL the drawdown guard looks at exceeds
      the cash really left after all fees by exactly the entry fees paid. */
  ghost predicate NetPnlOmitsEntryFees(s: State)
  {
    s.positions == [] ==>
      s.ledger.NetPnl() == (Ledger.Cash(s.ledger.fills) - s.ledger.fees) + Ledger.EntryFees(s.ledger.fills)
  }

  lemma SoundOmitsEntryFees(cfg: Config, s: State)
    requires Sound(cfg, s)
    ensures NetPnlOmitsEntryFees(s)
  {
    if s.positions == [] {
      Ledger.NetPnlOmitsEntryFees(s.ledger);
    }
  }

  lemma FlatNetPnlOmitsEntryFees(cfg: Config, at: nat, es: seq<Event>)
    ensures NetPnlOmitsEntryFees(Run(cfg, Init(cfg, at), es))
  {
    InitIsSound(cfg, at);
    RunKeepsSound(cfg, Init(cfg, at), es);
    SoundOmitsEntryFees(cfg, Run(cfg, Init(cfg, at), es));
  }
}
