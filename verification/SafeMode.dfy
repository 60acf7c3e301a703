/** Heartbeat-driven safe mode of crates/executor-core/src/safe_mode.rs. */
module SafeModes {

  datatype Phase = Normal | Caution | Defensive | Emergency

  datatype SafeState = SafeState(missCaution: nat, missDefensive: nat, missEmergency: nat,
                                 consecutiveMisses: nat, phase: Phase)
  {
    function Heartbeat(): SafeState { this.(consecutiveMisses := 0, phase := Normal) }

    function Miss(): SafeState
    {
      var k := consecutiveMisses + 1;
      this.(consecutiveMisses := k,
            phase := if k >= missEmergency then Emergency
                     else if k >= missDefensive then Defensive
                     else if k >= missCaution then Caution
                     else Normal)
    }

    predicate HaltEntries() { phase != Normal }

    predicate CloseAll() { phase == Emergency }
  }

  function Fresh(c: nat, d: nat, e: nat): SafeState { SafeState(c, d, e, 0, Normal) }

  class SafeMode {
    const missCaution: nat
    const missDefensive: nat
    const missEmergency: nat
    var consecutiveMisses: nat
    var phase: Phase

    ghost function Value(): SafeState
      reads this
    {
      SafeState(missCaution, missDefensive, missEmergency, consecutiveMisses, phase)
    }

    constructor (c: nat, d: nat, e: nat)
      ensures Value() == Fresh(c, d, e)
    {
      missCaution, missDefensive, missEmergency := c, d, e;
      consecutiveMisses, phase := 0, Normal;
    }

    method OnHeartbeat()
      modifies this
      ensures Value() == old(Value()).Heartbeat()
    {
      consecutiveMisses := 0;
      phase := Normal;
    }

    method OnMiss()
      modifies this
      ensures Value() == old(Value()).Miss()
    {
      consecutiveMisses := consecutiveMisses + 1;
      phase := if consecutiveMisses >= missEmergency then Emergency
               else if consecutiveMisses >= missDefensive then Defensive
               else if consecutiveMisses >= missCaution then Caution
               else Normal;
    }

    predicate HaltEntries()
      reads this
      ensures HaltEntries() <==> Value().HaltEntries()
    {
      phase == Caution || phase == Defensive || phase == Emergency
    }

    predicate CloseAll()
      reads this
      ensures CloseAll() <==> Value().CloseAll()
    {
      phase == Emergency
    }
  }

  datatype Beat = Beats | Missed

  function Watch(s: SafeState, beats: seq<Beat>): SafeState
  {
    if beats == [] then s
    else
      var t := Watch(s, beats[..|beats| - 1]);
      if beats[|beats| - 1] == Beats then t.Heartbeat() else t.Miss()
  }

  /** Length of the run of misses at the end. */
  function TrailingMisses(beats: seq<Beat>): nat
  {
    if beats == [] || beats[|beats| - 1] == Beats then 0 else 1 + TrailingMisses(beats[..|beats| - 1])
  }

  /** Safe mode remembers only the misses since the last heartbeat: entries are
      halted exactly when there is one and some threshold is reached, and
      everything is closed exactly at the emergency threshold, in whatever
      order the three thresholds are configured. */
  lemma {:induction false} PhaseFollowsTrailingMisses(c: nat, d: nat, e: nat, beats: seq<Beat>)
    ensures var s, k := Watch(Fresh(c, d, e), beats), TrailingMisses(beats);
            && s.consecutiveMisses == k
            && (s.HaltEntries() <==> k > 0 && (k >= c || k >= d || k >= e))
            && (s.CloseAll() <==> k > 0 && k >= e)
            && s.missCaution == c && s.missDefensive == d && s.missEmergency == e
  {
    if beats != [] {
      PhaseFollowsTrailingMisses(c, d, e, beats[..|beats| - 1]);
    }
  }
}
