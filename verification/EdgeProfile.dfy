/** The edge profile: how the analyzer's gate writes it
    (research/quant/analyze_lead_lag.py), what startup validation demands of it
    (crates/shared/src/validation.rs) and what the executor makes of its hours. */
module EdgeProfile {
  import opened Numerics
  import Executor

  /** What the research of one symbol by one method found (`summarize_symbol`
      and the means over its events). */
  datatype Findings = Findings(meanNet: real, bestNet: real, hours: seq<nat>, events: nat)

  datatype Method = Bar | Event

  datatype MethodArg = BarOnly | EventOnly | Both
  {
    function Primary(): Method { if this == BarOnly then Bar else Event }

    function Methods(): seq<Method>
    {
      match this
      case BarOnly => [Bar]
      case EventOnly => [Event]
      case Both => [Bar, Event]
    }
  }

  /** Findings of one symbol; a method that saw no impulse event found nothing. */
  datatype Research = Research(bar: Option<Findings>, event: Option<Findings>)
  {
    function By(m: Method): Option<Findings> { if m == Bar then bar else event }
  }

  datatype Edge = Edge(netEdgeBps: real, tradeHours: seq<nat>)

  datatype Profile = Profile(status: string, researchMethod: string, dataSource: string, periodDays: nat,
                             edges: map<string, Edge>)

  // ------------------------------------------------------------------
  // The analyzer
  // ------------------------------------------------------------------

  /** `round(x, 2)`: to the nearest hundredth, ties to the even one. */
  function Round2(x: real): real
  {
    var low := (x * 100.0).Floor;
    var over := x * 100.0 - low as real;
    var n := if over < 0.5 || (over == 0.5 && low % 2 == 0) then low else low + 1;
    n as real / 100.0
  }

  lemma RoundsToPositive(x: real)
    ensures Round2(x) > 0.0 <==> x > 0.005
  {
    var low := (x * 100.0).Floor;
    if low == 0 {
      assert Round2(x) > 0.0 <==> x * 100.0 > 0.5;
    } else if low < 0 {
      assert Round2(x) <= 0.0;
    }
  }

  const MIN_EVENTS: nat := 50
  const MIN_HOURS: nat := 3
  const MIN_DAYS: nat := 14

  predicate Passes(f: Findings)
  {
    f.meanNet > 0.0 && f.bestNet > 0.0 && |f.hours| >= MIN_HOURS && f.events >= MIN_EVENTS
  }

  /** The edge first written for the primary method. */
  function Drafted(f: Findings): Edge
  {
    if f.meanNet <= 0.0 || f.events < MIN_EVENTS
    then Edge(Round2(Min(Min(f.bestNet, f.meanNet), 0.0)), [])
    else Edge(Round2(f.bestNet), f.hours)
  }

  /** The last pass over the edges. */
  function Normalized(e: Edge): Edge
  {
    if e.netEdgeBps <= 0.0 || |e.tradeHours| < MIN_HOURS then Edge(Min(e.netEdgeBps, 0.0), []) else e
  }

  function DataSource(given: Option<string>, detected: string): string
  {
    if given.Some? && |given.value| > 0 then given.value else detected
  }

  /** What `detect_data_source` can answer. */
  predicate Detectable(source: string) { source == "synthetic" || source == "binance_vision" || source == "live" }

  /** The primary findings of a symbol, if it was traded and had events. */
  function PrimaryOf(research: map<string, Research>, arg: MethodArg, sym: string): Option<Findings>
  {
    if sym in research then research[sym].By(arg.Primary()) else None
  }

  /** Runs one symbol through the requested methods; only the primary one counts. */
  method AnalyzeSymbol(r: Research, arg: MethodArg) returns (best: Option<Edge>, pass: bool)
    ensures best == match r.By(arg.Primary()) case None => None case Some(f) => Some(Drafted(f))
    ensures pass <==> r.By(arg.Primary()).Some? && Passes(r.By(arg.Primary()).value)
  {
    best, pass := None, false;
    var methods := arg.Methods();
    for i := 0 to |methods|
      invariant forall j | 0 <= j < i :: methods[j] == arg.Primary() ==>
                  best == (match r.By(arg.Primary()) case None => None case Some(f) => Some(Drafted(f)))
                  && (pass <==> r.By(arg.Primary()).Some? && Passes(r.By(arg.Primary()).value))
      invariant (forall j | 0 <= j < i :: methods[j] != arg.Primary()) ==> best == None && !pass
    {
      var m := methods[i];
      var found := r.By(m);
      if found.None? { continue; }
      var f := found.value;
      var ok := f.meanNet > 0.0 && f.bestNet > 0.0 && |f.hours| >= 3 && f.events >= 50;
      if m == arg.Primary() {
        var edge := Edge(Round2(f.bestNet), f.hours);
        if f.meanNet <= 0.0 || f.events < 50 {
          edge := Edge(Round2(Min(Min(f.bestNet, f.meanNet), 0.0)), []);
        }
        best := Some(edge);
        if ok { pass := true; }
      }
    }
    assert methods[|methods| - 1] == arg.Primary();
  }

  /** The profile the analyzer writes, entry by entry. */
  ghost predicate IsAnalysis(p: Profile, symbols: seq<string>, research: map<string, Research>, arg: MethodArg,
                             source: string, days: nat)
  {
    && (forall s :: s in p.edges <==> s in symbols && PrimaryOf(research, arg, s).Some?)
    && (forall s | s in p.edges :: p.edges[s] == Normalized(Drafted(PrimaryOf(research, arg, s).value)))
    && p.status == (if SomePass(symbols, research, arg) && source != "synthetic" && days >= MIN_DAYS then "pass" else "fail")
    && p.researchMethod == "l2_vwap" && p.dataSource == source && p.periodDays == days
  }

  ghost predicate SomePass(symbols: seq<string>, research: map<string, Research>, arg: MethodArg)
  {
    exists s :: s in symbols && PrimaryOf(research, arg, s).Some? && Passes(PrimaryOf(research, arg, s).value)
  }

  /** The gate and normalisation part of the analyzer. */
  method Analyze(symbols: seq<string>, research: map<string, Research>, arg: MethodArg, given: Option<string>,
                 detected: string, days: nat) returns (p: Profile)
    ensures IsAnalysis(p, symbols, research, arg, DataSource(given, detected), days)
  {
    var edges, anyPass := Draft(symbols, research, arg);
    var source := DataSource(given, detected);
    var productionOk := anyPass && source != "synthetic" && days >= 14;
    edges := Normalize(edges);
    p := Profile(if productionOk then "pass" else "fail", "l2_vwap", source, days, edges);
  }

  method Draft(symbols: seq<string>, research: map<string, Research>, arg: MethodArg)
    returns (edges: map<string, Edge>, anyPass: bool)
    ensures forall s :: s in edges <==> s in symbols && PrimaryOf(research, arg, s).Some?
    ensures forall s | s in edges :: edges[s] == Drafted(PrimaryOf(research, arg, s).value)
    ensures anyPass <==> SomePass(symbols, research, arg)
  {
    edges, anyPass := map[], false;
    for i := 0 to |symbols|
      invariant forall s :: s in edges <==> s in symbols[..i] && PrimaryOf(research, arg, s).Some?
      invariant forall s | s in edges :: edges[s] == Drafted(PrimaryOf(research, arg, s).value)
      invariant anyPass <==> SomePass(symbols[..i], research, arg)
    {
      assert symbols[..i + 1] == symbols[..i] + [symbols[i]];
      PassGrows(symbols[..i], symbols[i], research, arg);
      var sym := symbols[i];
      if sym !in research { continue; }
      var best, pass := AnalyzeSymbol(research[sym], arg);
      if best.Some? { edges := edges[sym := best.value]; }
      anyPass := anyPass || pass;
    }
    assert symbols[..|symbols|] == symbols;
  }

  lemma PassGrows(symbols: seq<string>, sym: string, research: map<string, Research>, arg: MethodArg)
    ensures SomePass(symbols + [sym], research, arg) <==>
            SomePass(symbols, research, arg)
            || (PrimaryOf(research, arg, sym).Some? && Passes(PrimaryOf(research, arg, sym).value))
  {
    assert sym in symbols + [sym];
    assert forall s :: s in symbols + [sym] <==> s in symbols || s == sym;
  }

  method Normalize(drafts: map<string, Edge>) returns (edges: map<string, Edge>)
    ensures edges == map s | s in drafts :: Normalized(drafts[s])
  {
    edges := drafts;
    var todo := drafts.Keys;
    while todo != {}
      invariant todo <= drafts.Keys && edges.Keys == drafts.Keys
      invariant forall s | s in edges :: edges[s] == if s in todo then drafts[s] else Normalized(drafts[s])
      decreases todo
    {
      var sym :| sym in todo;
      var cfg := edges[sym];
      if cfg.netEdgeBps <= 0.0 || |cfg.tradeHours| < 3 {
        edges := edges[sym := Edge(Min(cfg.netEdgeBps, 0.0), [])];
      }
      todo := todo - {sym};
    }
  }

  // ------------------------------------------------------------------
  // Startup validation
  // ------------------------------------------------------------------

  datatype ValidationError =
    | StatusNotPass | WrongMethod | NoSource | UnknownSource | TooFewDays | NoPositiveEdge | TooFewHours

  predicate KnownSource(source: string) { source == "live" || source == "binance_vision" }

  /** `validate_production_edge`; `None` is acceptance. */
  function Validate(p: Profile): Option<ValidationError>
  {
    if p.status != "pass" then Some(StatusNotPass)
    else if p.researchMethod != "l2_vwap" then Some(WrongMethod)
    else if p.dataSource == "" || p.dataSource == "synthetic" then Some(NoSource)
    else if !KnownSource(p.dataSource) then Some(UnknownSource)
    else if p.periodDays < MIN_DAYS then Some(TooFewDays)
    else if !exists s | s in p.edges :: p.edges[s].netEdgeBps > 0.0 then Some(NoPositiveEdge)
    else if exists s | s in p.edges :: p.edges[s].netEdgeBps > 0.0 && |p.edges[s].tradeHours| < MIN_HOURS
      then Some(TooFewHours)
    else None
  }

  /** What startup demands of any profile, whoever wrote it: the status, the
      method and one of the two known sources by name, fourteen days, an edge
      above zero, and three hours for every such edge. A profile that fails is
      told the first of these it fails. */
  lemma ValidateExactly(p: Profile)
    ensures var passed, byMethod, known := p.status == "pass", p.researchMethod == "l2_vwap",
                                           p.dataSource == "live" || p.dataSource == "binance_vision";
            var days, positive := p.periodDays >= 14, exists s | s in p.edges :: p.edges[s].netEdgeBps > 0.0;
            var hours := forall s | s in p.edges :: p.edges[s].netEdgeBps > 0.0 ==> |p.edges[s].tradeHours| >= 3;
            && (Validate(p) == None <==> passed && byMethod && known && days && positive && hours)
            && (Validate(p) == Some(StatusNotPass) <==> !passed)
            && (Validate(p) == Some(WrongMethod) <==> passed && !byMethod)
            && (Validate(p) == Some(NoSource) <==> passed && byMethod && p.dataSource in {"", "synthetic"})
            && (Validate(p) == Some(UnknownSource) <==> passed && byMethod && !known && p.dataSource !in {"", "synthetic"})
            && (Validate(p) == Some(TooFewDays) <==> passed && byMethod && known && !days)
            && (Validate(p) == Some(NoPositiveEdge) <==> passed && byMethod && known && days && !positive)
            && (Validate(p) == Some(TooFewHours) <==> passed && byMethod && known && days && positive && !hours)
  {
  }

  /** `decide_alt_enable`. */
  predicate AltEnabled(p: Profile, sym: string)
  {
    p.status == "pass" && sym in p.edges && p.edges[sym].netEdgeBps > 0.0 && |p.edges[sym].tradeHours| >= MIN_HOURS
  }

  // ------------------------------------------------------------------
  // Writer and validator
  // ------------------------------------------------------------------

  /** Findings whose edge survives into the profile: the gate, with the best
      hour above half a hundredth of a basis point. */
  predicate Keeps(f: Findings)
  {
    f.meanNet > 0.0 && f.events >= 50 && |f.hours| >= 3 && f.bestNet > 0.005
  }

  /** Every edge in the profile is either kept whole or blanked. */
  lemma EdgesAreKeptOrBlanked(f: Findings)
    ensures var e := Normalized(Drafted(f));
            && (e.netEdgeBps > 0.0 <==> Keeps(f))
            && e.tradeHours == (if Keeps(f) then f.hours else [])
  {
    RoundsToPositive(f.bestNet);
    RoundsToPositive(Min(Min(f.bestNet, f.meanNet), 0.0));
  }

  ghost predicate SomeKept(symbols: seq<string>, research: map<string, Research>, arg: MethodArg)
  {
    exists s :: s in symbols && PrimaryOf(research, arg, s).Some? && Keeps(PrimaryOf(research, arg, s).value)
  }

  lemma KeptEdges(p: Profile, symbols: seq<string>, research: map<string, Research>, arg: MethodArg,
                  source: string, days: nat)
    requires IsAnalysis(p, symbols, research, arg, source, days)
    ensures (exists s | s in p.edges :: p.edges[s].netEdgeBps > 0.0) <==> SomeKept(symbols, research, arg)
    ensures forall s | s in p.edges :: p.edges[s].netEdgeBps > 0.0 ==> |p.edges[s].tradeHours| >= MIN_HOURS
    ensures SomeKept(symbols, research, arg) ==> SomePass(symbols, research, arg)
  {
    forall s | s in p.edges
      ensures p.edges[s].netEdgeBps > 0.0 <==> Keeps(PrimaryOf(research, arg, s).value)
      ensures p.edges[s].netEdgeBps > 0.0 ==> |p.edges[s].tradeHours| >= MIN_HOURS
    {
      EdgesAreKeptOrBlanked(PrimaryOf(research, arg, s).value);
    }
    if SomeKept(symbols, research, arg) {
      var s :| s in symbols && PrimaryOf(research, arg, s).Some? && Keeps(PrimaryOf(research, arg, s).value);
      assert s in p.edges;
    }
  }

  /** For any findings at all, startup accepts the analyzer's profile exactly
      when its status is pass, its source is one of the two known ones and some
      edge stayed positive; in terms of the findings, exactly when enough days
      of known origin hold one symbol worth keeping. Of the validator's seven
      complaints only three can ever be made, and never the one about hours. */
  lemma AcceptedExactly(p: Profile, symbols: seq<string>, research: map<string, Research>, arg: MethodArg,
                        given: Option<string>, detected: string, days: nat)
    requires Detectable(detected)
    requires IsAnalysis(p, symbols, research, arg, DataSource(given, detected), days)
    ensures Validate(p) == None <==>
            p.status == "pass" && (p.dataSource == "live" || p.dataSource == "binance_vision")
            && exists s | s in p.edges :: p.edges[s].netEdgeBps > 0.0
    ensures Validate(p) == None <==>
            days >= 14 && (p.dataSource == "live" || p.dataSource == "binance_vision") && SomeKept(symbols, research, arg)
    ensures Validate(p) in {None, Some(StatusNotPass), Some(UnknownSource), Some(NoPositiveEdge)}
  {
    KeptEdges(p, symbols, research, arg, DataSource(given, detected), days);
  }

  /** Rounding moves a number by at most half a hundredth. */
  lemma RoundsNearby(x: real)
    ensures -0.005 <= Round2(x) - x <= 0.005
    ensures exists n :: Round2(x) == Hundredths(n)
  {
    var low := (x * 100.0).Floor;
    assert Round2(x) == Hundredths(low) || Round2(x) == Hundredths(low + 1);
  }

  function Hundredths(n: int): real { n as real / 100.0 }

  /** The findings that count for a symbol (the event ones, unless only bars were
      asked for) are positive on the mean and in the best hour, over at least
      three hours and fifty events. */
  predicate Qualifies(r: Research, arg: MethodArg)
  {
    var found := if arg == BarOnly then r.bar else r.event;
    found.Some? && found.value.meanNet > 0.0 && found.value.bestNet > 0.0
    && |found.value.hours| >= 3 && found.value.events >= 50
  }

  /** What the analyzer calls a pass: two weeks of data that are not synthetic,
      and some symbol asked for that qualifies. The source is the given one,
      unless it is missing or empty. */
  lemma StatusExactly(p: Profile, symbols: seq<string>, research: map<string, Research>, arg: MethodArg,
                      given: Option<string>, detected: string, days: nat)
    requires IsAnalysis(p, symbols, research, arg, DataSource(given, detected), days)
    ensures p.dataSource == match given case None => detected case Some(g) => if g == "" then detected else g
    ensures p.status == "pass" <==>
            days >= 14 && p.dataSource != "synthetic"
            && exists s :: s in symbols && s in research && Qualifies(research[s], arg)
    ensures p.status == "pass" || p.status == "fail"
  {
    forall s | s in research
      ensures Qualifies(research[s], arg) <==>
              PrimaryOf(research, arg, s).Some? && Passes(PrimaryOf(research, arg, s).value)
    {
    }
  }

  /** The number a kept edge is written with: the best hour, rounded. */
  lemma KeptEdgeIsBestHour(p: Profile, symbols: seq<string>, research: map<string, Research>, arg: MethodArg,
                           source: string, days: nat, sym: string)
    requires IsAnalysis(p, symbols, research, arg, source, days)
    requires sym in p.edges && p.edges[sym].netEdgeBps > 0.0
    ensures var best := PrimaryOf(research, arg, sym).value.bestNet;
            best - 0.005 <= p.edges[sym].netEdgeBps <= best + 0.005
  {
    var f := PrimaryOf(research, arg, sym).value;
    EdgesAreKeptOrBlanked(f);
    RoundsNearby(f.bestNet);
  }

  /** The number a blanked edge is written with: to half a hundredth, the best
      hour, or the mean where the mean or the number of events failed and it is
      lower, but never above zero. */
  lemma BlankedEdgeValue(f: Findings)
    requires !Keeps(f)
    ensures var e := Normalized(Drafted(f));
            var low := if (f.meanNet <= 0.0 || f.events < 50) && f.meanNet < f.bestNet then f.meanNet else f.bestNet;
            if low < 0.0 then low - 0.005 <= e.netEdgeBps <= low + 0.005 && e.netEdgeBps <= 0.0 else e.netEdgeBps == 0.0
  {
    EdgesAreKeptOrBlanked(f);
    RoundsNearby(f.bestNet);
    RoundsNearby(Min(Min(f.bestNet, f.meanNet), 0.0));
    RoundsToPositive(f.bestNet);
    if f.bestNet >= 0.0 {
      RoundsUp(f.bestNet);
    }
    if Min(Min(f.bestNet, f.meanNet), 0.0) == 0.0 {
      RoundsUp(0.0);
    }
  }

  lemma RoundsUp(x: real)
    requires x >= 0.0
    ensures Round2(x) >= 0.0
  {
  }

  /** A pass that startup still refuses: exactly when the source was given by
      hand as something unknown, or no passing symbol's best hour rounds above
      zero. */
  lemma PassYetRefusedExactly(p: Profile, symbols: seq<string>, research: map<string, Research>, arg: MethodArg,
                              given: Option<string>, detected: string, days: nat)
    requires Detectable(detected)
    requires IsAnalysis(p, symbols, research, arg, DataSource(given, detected), days)
    requires p.status == "pass"
    ensures Validate(p) == Some(UnknownSource) <==> given.Some? && given.value !in {"", "live", "binance_vision"}
    ensures Validate(p) == Some(NoPositiveEdge) <==>
            p.dataSource in {"live", "binance_vision"}
            && forall s | s in symbols && PrimaryOf(research, arg, s).Some? && Passes(PrimaryOf(research, arg, s).value)
                 :: PrimaryOf(research, arg, s).value.bestNet <= 0.005
  {
    KeptEdges(p, symbols, research, arg, DataSource(given, detected), days);
    forall s | s in symbols && PrimaryOf(research, arg, s).Some?
      ensures Keeps(PrimaryOf(research, arg, s).value) <==>
              Passes(PrimaryOf(research, arg, s).value) && PrimaryOf(research, arg, s).value.bestNet > 0.005
    {
    }
  }

  /** A concrete one: a steady edge of 0.004 bps passes the gate and rounds away. */
  lemma TinyEdgePassesYetIsRefused(p: Profile)
    requires IsAnalysis(p, ["BTCUSDT"], map["BTCUSDT" := Research(None, Some(Findings(0.004, 0.004, [8, 9, 10], 50)))],
                        EventOnly, "live", 14)
    ensures p.status == "pass" && Validate(p) == Some(NoPositiveEdge)
  {
    var research := map["BTCUSDT" := Research(None, Some(Findings(0.004, 0.004, [8, 9, 10], 50)))];
    assert "BTCUSDT" in ["BTCUSDT"] && Passes(PrimaryOf(research, EventOnly, "BTCUSDT").value);
    KeptEdges(p, ["BTCUSDT"], research, EventOnly, "live", 14);
    assert !SomeKept(["BTCUSDT"], research, EventOnly);
  }

  /** An alternative symbol is enabled exactly when the profile passed and its
      own edge was kept. */
  lemma AltEnabledExactly(p: Profile, symbols: seq<string>, research: map<string, Research>, arg: MethodArg,
                          source: string, days: nat, sym: string)
    requires IsAnalysis(p, symbols, research, arg, source, days)
    ensures AltEnabled(p, sym) <==>
            p.status == "pass" && sym in symbols && PrimaryOf(research, arg, sym).Some?
            && Keeps(PrimaryOf(research, arg, sym).value)
  {
    if sym in p.edges {
      EdgesAreKeptOrBlanked(PrimaryOf(research, arg, sym).value);
    }
  }

  // ------------------------------------------------------------------
  // What the executor makes of the hours
  // ------------------------------------------------------------------

  function HoursOf(p: Profile): map<string, seq<nat>> { map s | s in p.edges :: p.edges[s].tradeHours }

  /** The hour gate, for a symbol the analyzer looked at: a kept symbol trades in
      its profitable hours, and a symbol the analyzer rejected trades around the
      clock, because its blanked list reads as no restriction. */
  lemma RejectedSymbolsTradeAllHours(p: Profile, symbols: seq<string>, research: map<string, Research>, arg: MethodArg,
                                     source: string, days: nat, cfg: Executor.Config, id: nat, now: nat)
    requires IsAnalysis(p, symbols, research, arg, source, days)
    requires cfg.edgeHours == HoursOf(p) && id in cfg.idToBinance && cfg.idToBinance[id] in p.edges
    ensures var f := PrimaryOf(research, arg, cfg.idToBinance[id]).value;
            Executor.TradeHourOk(cfg, id, now) <==> (Keeps(f) ==> (now / Executor.HOUR_NS) % 24 in f.hours)
  {
    EdgesAreKeptOrBlanked(PrimaryOf(research, arg, cfg.idToBinance[id]).value);
  }
}
