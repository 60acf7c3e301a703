/** When the drawdown lockout begins, in money, and that it never ends. */
module Lockout {
  import opened Numerics
  import opened Risk
  import opened Executor
  import Conservation
  import Feeds
  import Halts
  import Ledger
  import Positions

  /** What a flat account has made: the cash of its fills less the exit fees. */
  function Made(ledger: Ledger.Account): real
  {
    Ledger.Cash(ledger.fills) - Ledger.ExitFees(ledger.fills)
  }

  /** The loss has reached the configured share of the deposit; without a deposit
      the day counts as even, and only a limit that allows no even day is reached. */
  predicate LossAtLimit(cfg: Config, made: real)
  {
    if cfg.deposit > 0.0 then made <= -Times(cfg.maxDailyDd, cfg.deposit) else cfg.maxDailyDd <= 0.0
  }

  /** A heartbeat, or a timer that counts a miss: what refreshes the day PnL. */
  predicate Refreshes(cfg: Config, s: State, e: Event)
  {
    e.Heartbeat? || (e.Timer? && e.at > s.lastHb + cfg.heartbeatTimeoutNs)
  }

  lemma RefreshedHits(cfg: Config, s: State)
    requires s.warm.maxDailyDd == cfg.maxDailyDd
    ensures var s' := Refreshed(cfg, s);
            && s'.flags == ComputeFlags(s'.warm)
            && s'.warm.dayPnlPct == DayPnl(cfg, s.ledger)
            && (s'.warm.DrawdownHit() <==> LossAtLimit(cfg, s.ledger.realized))
            && s'.positions == s.positions && s'.ledger == s.ledger
  {
    if cfg.deposit > 0.0 {
      Halts.LossAgainst(s.ledger.realized, cfg.deposit, cfg.maxDailyDd);
    }
  }

  lemma RefreshLocks(cfg: Config, s: State, e: Event)
    requires s.positions == [] && s.warm.maxDailyDd == cfg.maxDailyDd && Refreshes(cfg, s, e)
    ensures var s' := Step(cfg, s, e);
            && s'.ledger == s.ledger
            && (LossAtLimit(cfg, s.ledger.realized) <==> !Has(s'.flags, DD_OK))
            && (LossAtLimit(cfg, s.ledger.realized) ==> Halts.LockedOut(cfg, s'))
  {
    if e.Heartbeat? {
      RefreshedHits(cfg, s.(lastHb := e.at, safe := s.safe.Heartbeat()));
    } else {
      assert HeartbeatLate(cfg, s, e.at);
      RefreshedHits(cfg, s.(safe := s.safe.Miss()));
    }
    FlagsMeanGuards(Step(cfg, s, e).warm);
  }

  lemma {:induction false} LockedRuns(cfg: Config, s: State, later: seq<Event>)
    requires Halts.LockedOut(cfg, s)
    ensures var s' := Run(cfg, s, later); !Has(s'.flags, DD_OK) && s'.positions == [] && s'.ledger == s.ledger
  {
    Halts.LockoutIsAbsorbing(cfg, s, later);
    FlagsMeanGuards(Run(cfg, s, later).warm);
  }

  /** From startup, on a flat executor, a heartbeat or counted miss takes the
      drawdown bit away, and for good, exactly when what the fills have made
      (sales less purchases less exit fees) is a loss of at least the configured
      share of the deposit; and from then on no events of any kind open a
      position or change the ledger. */
  lemma DrawdownLocksExactly(cfg: Config, at: nat, es: seq<Event>, s: State, e: Event)
    requires s == Run(cfg, Init(cfg, at), es) && s.positions == [] && Refreshes(cfg, s, e)
    ensures var s' := Step(cfg, s, e);
            && (LossAtLimit(cfg, Made(s.ledger)) <==> !Has(s'.flags, DD_OK))
            && (LossAtLimit(cfg, Made(s.ledger)) <==> forall later :: !Has(Run(cfg, s', later).flags, DD_OK))
            && (LossAtLimit(cfg, Made(s.ledger)) ==>
                  forall later :: Run(cfg, s', later).positions == [] && Run(cfg, s', later).ledger == s.ledger)
  {
    FlatMade(cfg, at, es, s);
    Feeds.InitIsInformed(cfg, at);
    Feeds.RunKeepsInformed(cfg, Init(cfg, at), es);
    RefreshLocks(cfg, s, e);
    var s' := Step(cfg, s, e);
    if LossAtLimit(cfg, Made(s.ledger)) {
      forall later
        ensures !Has(Run(cfg, s', later).flags, DD_OK)
        ensures Run(cfg, s', later).positions == [] && Run(cfg, s', later).ledger == s.ledger
      {
        LockedRuns(cfg, s', later);
      }
    } else {
      EmptyRun(cfg, s', es[..0]);
    }
  }

  lemma EmptyRun(cfg: Config, s: State, none: seq<Event>)
    requires |none| == 0
    ensures Run(cfg, s, none) == s
  {
  }

  /** A flat account has realized what it has made. */
  lemma FlatMade(cfg: Config, at: nat, es: seq<Event>, s: State)
    requires s == Run(cfg, Init(cfg, at), es) && s.positions == []
    ensures s.ledger.realized == Made(s.ledger)
  {
    Conservation.CashIsConserved(cfg, at, es);
    NoCost(s.positions);
  }

  lemma NoCost(positions: seq<Positions.Position>)
    requires |positions| == 0
    ensures Conservation.OpenCost(positions) == 0.0
  {
  }

}
