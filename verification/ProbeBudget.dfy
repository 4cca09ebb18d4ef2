/** The shared connection budget of checker/probe_budget.go: two nested counting semaphores, made
    of buffered channels, acquired with cancellation and released at most once.  Any number of
    probes run at the same time; each channel operation is one step. */
module ProbeBudget {

  /** The capacity of the diagnostics channel. */
  function DiagnosticLimit(limit: int): (d: nat)
    ensures 1 <= d <= 4
    ensures limit > 0 ==> d <= limit && (10 <= limit <= 40 ==> d == limit / 10)
    ensures (limit < 20 ==> d == 1) && (limit >= 40 ==> d == 4)
  {
    if limit <= 0 || limit / 10 < 1 then 1 else if limit / 10 > 4 then 4 else limit / 10
  }

  /** newProbeBudget. */
  method NewProbeBudget(limit: int) returns (slots: nat, bounded: bool, diagnostics: nat)
    ensures bounded <==> limit > 0
    ensures bounded ==> slots == limit
    ensures diagnostics == DiagnosticLimit(limit)
  {
    slots, bounded := 0, false;
    diagnostics := 1;
    if limit > 0 {
      slots, bounded := limit, true;
      var share := limit / 10;
      if share < 1 {
        share := 1;
      }
      if share > 4 {
        share := 4;
      }
      diagnostics := share;
    }
  }

  /** Where a probe is in acquire and in its release closure. */
  datatype Position =
    | Arrived
    | WantsDiagnostic
    | WantsSlot
    | Counting
    | Holding
    | Uncounting
    | FreeingSlot
    | FreeingDiagnostic
    | GivingUp
    | Failed
    | Released

  datatype Probe = Probe(diagnostic: bool, cancelled: bool, at: Position)

  /** The lengths of the two channels, the counter of active probes, and the probes. */
  datatype State = State(limit: int, slots: nat, diagnostics: nat, active: int, probes: map<nat, Probe>)

  /** A probe arrives, its context is cancelled, it takes the step that its position allows (choosing
      between a ready channel and a cancelled context as it likes), or its holder calls release. */
  datatype Step = Arrive(id: nat, diagnostic: bool) | Cancel(id: nat) | Go(id: nat, cancel: bool) | Release(id: nat)

  predicate Bounded(limit: int) { limit > 0 }

  /** Whether the probe's next step can be taken; a release and a fresh arrival never wait. */
  predicate CanGo(s: State, id: nat, cancel: bool)
    requires id in s.probes
  {
    var p := s.probes[id];
    match p.at
    case Arrived => true
    case WantsDiagnostic => if cancel then p.cancelled else s.diagnostics < DiagnosticLimit(s.limit)
    case WantsSlot => if cancel then Bounded(s.limit) && p.cancelled else Bounded(s.limit) ==> s.slots < s.limit
    case Counting => true
    case Holding => false
    case Uncounting => true
    case FreeingSlot => Bounded(s.limit) ==> s.slots > 0
    case FreeingDiagnostic => s.diagnostics > 0
    case GivingUp => s.diagnostics > 0
    case Failed => false
    case Released => false
  }

  function At(s: State, id: nat, at: Position): State
    requires id in s.probes
  {
    s.(probes := s.probes[id := s.probes[id].(at := at)])
  }

  function Less(n: nat): nat { if n > 0 then n - 1 else 0 }

  /** The step of a probe that can go. */
  function Went(s: State, id: nat, cancel: bool): State
    requires id in s.probes
  {
    var p := s.probes[id];
    match p.at
    case Arrived => if p.cancelled then At(s, id, Failed) else At(s, id, if p.diagnostic then WantsDiagnostic else WantsSlot)
    case WantsDiagnostic =>
      if cancel then At(s, id, Failed) else At(s, id, WantsSlot).(diagnostics := s.diagnostics + 1)
    case WantsSlot =>
      if cancel then At(s, id, if p.diagnostic then GivingUp else Failed)
      else At(s, id, Counting).(slots := if Bounded(s.limit) then s.slots + 1 else s.slots)
    case Counting => At(s, id, Holding).(active := s.active + 1)
    case Uncounting => At(s, id, FreeingSlot).(active := s.active - 1)
    case FreeingSlot =>
      At(s, id, if p.diagnostic then FreeingDiagnostic else Released).(slots := if Bounded(s.limit) then Less(s.slots) else s.slots)
    case FreeingDiagnostic => At(s, id, Released).(diagnostics := Less(s.diagnostics))
    case GivingUp => At(s, id, Failed).(diagnostics := Less(s.diagnostics))
    case _ => s
  }

  /** A step that is not enabled changes nothing, and neither does a second release. */
  function Next(s: State, a: Step): State {
    match a
    case Arrive(id, diagnostic) => if id in s.probes then s else s.(probes := s.probes[id := Probe(diagnostic, false, Arrived)])
    case Cancel(id) => if id in s.probes then s.(probes := s.probes[id := s.probes[id].(cancelled := true)]) else s
    case Go(id, cancel) => if id in s.probes && CanGo(s, id, cancel) then Went(s, id, cancel) else s
    case Release(id) => if id in s.probes && s.probes[id].at == Holding then At(s, id, Uncounting) else s
  }

  function Run(s: State, steps: seq<Step>): State {
    if steps == [] then s else Next(Run(s, steps[..|steps| - 1]), steps[|steps| - 1])
  }

  function Empty(limit: int): State { State(limit, 0, 0, 0, map[]) }

  // ---- who holds what ----

  predicate HasSlot(at: Position) { at == Counting || at == Holding || at == Uncounting || at == FreeingSlot }

  predicate HasDiagnostic(p: Probe) {
    p.diagnostic && (p.at == WantsSlot || HasSlot(p.at) || p.at == FreeingDiagnostic || p.at == GivingUp)
  }

  predicate IsCounted(at: Position) { at == Holding || at == Uncounting }

  function SlotHolders(s: State): set<nat> { set id | id in s.probes && HasSlot(s.probes[id].at) }

  function DiagnosticHolders(s: State): set<nat> { set id | id in s.probes && HasDiagnostic(s.probes[id]) }

  function Counted(s: State): set<nat> { set id | id in s.probes && IsCounted(s.probes[id].at) }

  /** The channels and the counter say how many probes hold a slot, hold a diagnostic token and
      are counted, and neither channel is overfull. */
  predicate Accurate(s: State) {
    TokensAccurate(s) && forall id :: id in s.probes ==> (DiagnosticOnly(s.probes[id].at) ==> s.probes[id].diagnostic)
  }

  predicate DiagnosticOnly(at: Position) { at == FreeingDiagnostic || at == GivingUp || at == WantsDiagnostic }

  /** Moving one probe changes a set of probes by at most that probe. */
  lemma Grows(a: set<nat>, b: set<nat>, id: nat)
    requires a - {id} == b - {id}
    ensures |b| == |a| + (if id in b then 1 else 0) - (if id in a then 1 else 0)
  {
    assert |a| == |a - {id}| + (if id in a then 1 else 0) by {
      if id in a {
        assert a == (a - {id}) + {id};
      } else {
        assert a == a - {id};
      }
    }
    assert |b| == |b - {id}| + (if id in b then 1 else 0) by {
      if id in b {
        assert b == (b - {id}) + {id};
      } else {
        assert b == b - {id};
      }
    }
  }

  function Bit(b: bool): int { if b then 1 else 0 }

  predicate SlotOf(s: State, id: nat) { id in s.probes && HasSlot(s.probes[id].at) }

  predicate DiagnosticOf(s: State, id: nat) { id in s.probes && HasDiagnostic(s.probes[id]) }

  predicate CountedOf(s: State, id: nat) { id in s.probes && IsCounted(s.probes[id].at) }

  lemma OneMoves(s: State, n: State, id: nat)
    requires id in n.probes && n.probes == s.probes[id := n.probes[id]]
    ensures |SlotHolders(n)| == |SlotHolders(s)| + Bit(SlotOf(n, id)) - Bit(SlotOf(s, id))
    ensures |DiagnosticHolders(n)| == |DiagnosticHolders(s)| + Bit(DiagnosticOf(n, id)) - Bit(DiagnosticOf(s, id))
    ensures |Counted(n)| == |Counted(s)| + Bit(CountedOf(n, id)) - Bit(CountedOf(s, id))
  {
    Grows(SlotHolders(s), SlotHolders(n), id);
    Grows(DiagnosticHolders(s), DiagnosticHolders(n), id);
    Grows(Counted(s), Counted(n), id);
  }

  lemma HolderHolds(s: State, id: nat)
    requires Accurate(s) && id in s.probes
    ensures HasSlot(s.probes[id].at) && Bounded(s.limit) ==> s.slots > 0
    ensures HasDiagnostic(s.probes[id]) ==> s.diagnostics > 0
  {
    assert HasSlot(s.probes[id].at) ==> id in SlotHolders(s);
    assert HasDiagnostic(s.probes[id]) ==> id in DiagnosticHolders(s);
  }

  predicate Acquiring(at: Position) { at == Arrived || at == WantsDiagnostic || at == WantsSlot || at == Counting }

  /** The tokens are right. */
  predicate TokensAccurate(s: State) {
    && (Bounded(s.limit) ==> s.slots == |SlotHolders(s)| && s.slots <= s.limit)
    && (!Bounded(s.limit) ==> s.slots == 0)
    && s.diagnostics == |DiagnosticHolders(s)| && s.diagnostics <= DiagnosticLimit(s.limit)
    && s.active == |Counted(s)|
  }

  lemma AcquireKeepsTokens(s: State, id: nat, cancel: bool)
    requires Accurate(s) && id in s.probes && CanGo(s, id, cancel) && Acquiring(s.probes[id].at)
    ensures TokensAccurate(Went(s, id, cancel))
  {
    OneMoves(s, Went(s, id, cancel), id);
    hide SlotHolders, DiagnosticHolders, Counted, DiagnosticLimit;
  }

  lemma ReleaseKeepsTokens(s: State, id: nat, cancel: bool)
    requires Accurate(s) && id in s.probes && CanGo(s, id, cancel) && !Acquiring(s.probes[id].at)
    ensures TokensAccurate(Went(s, id, cancel))
  {
    HolderHolds(s, id);
    OneMoves(s, Went(s, id, cancel), id);
    hide SlotHolders, DiagnosticHolders, Counted, DiagnosticLimit;
  }

  lemma AccurateGo(s: State, id: nat, cancel: bool)
    requires Accurate(s) && id in s.probes && CanGo(s, id, cancel)
    ensures Accurate(Went(s, id, cancel))
  {
    if Acquiring(s.probes[id].at) {
      AcquireKeepsTokens(s, id, cancel);
    } else {
      ReleaseKeepsTokens(s, id, cancel);
    }
    hide SlotHolders, DiagnosticHolders, Counted, DiagnosticLimit;
  }

  lemma AccurateStep(s: State, a: Step)
    requires Accurate(s)
    ensures Accurate(Next(s, a))
  {
    match a
    case Go(id, cancel) =>
      if id in s.probes && CanGo(s, id, cancel) {
        AccurateGo(s, id, cancel);
      }
    case _ =>
      if Next(s, a) != s {
        OneMoves(s, Next(s, a), a.id);
        hide SlotHolders, DiagnosticHolders, Counted;
      }
  }

  lemma EmptyIsAccurate(limit: int)
    ensures Accurate(Empty(limit))
  {
    var s := Empty(limit);
    assert SlotHolders(s) == {} && DiagnosticHolders(s) == {} && Counted(s) == {};
  }

  lemma KeepsLimit(s: State, a: Step)
    ensures Next(s, a).limit == s.limit
  {
  }

  lemma {:induction false} RunIsAccurate(limit: int, steps: seq<Step>)
    ensures Accurate(Run(Empty(limit), steps)) && Run(Empty(limit), steps).limit == limit
  {
    hide Accurate, Next;
    if steps == [] {
      EmptyIsAccurate(limit);
    } else {
      RunIsAccurate(limit, steps[..|steps| - 1]);
      AccurateStep(Run(Empty(limit), steps[..|steps| - 1]), steps[|steps| - 1]);
      KeepsLimit(Run(Empty(limit), steps[..|steps| - 1]), steps[|steps| - 1]);
    }
  }

  // ---- main results ----

  lemma Within(a: set<nat>, b: set<nat>)
    requires a <= b
    ensures |a| <= |b|
  {
    assert b == a + (b - a);
  }

  /** In every run, at most `limit` probes hold a slot and at most the diagnostic allowance of them
      are diagnostics; only slot holders are counted as active; and a probe that gives tokens back
      never has to wait, so none is lost. */
  lemma BudgetHolds(limit: int, steps: seq<Step>)
    ensures var s := Run(Empty(limit), steps);
            && (limit > 0 ==> |SlotHolders(s)| <= limit)
            && |DiagnosticHolders(s)| <= DiagnosticLimit(limit)
            && 0 <= s.active <= |SlotHolders(s)|
            && forall id, cancel :: id in s.probes && s.probes[id].at in {Uncounting, FreeingSlot, FreeingDiagnostic, GivingUp} ==> CanGo(s, id, cancel)
  {
    var s := Run(Empty(limit), steps);
    RunIsAccurate(limit, steps);
    Within(Counted(s), SlotHolders(s));
    forall id, cancel | id in s.probes && s.probes[id].at in {Uncounting, FreeingSlot, FreeingDiagnostic, GivingUp} ensures CanGo(s, id, cancel) {
      HolderHolds(s, id);
    }
  }

  /** When every probe has failed, been released, or not got anything yet, every count is zero again. */
  lemma AllReturned(limit: int, steps: seq<Step>)
    requires forall id :: id in Run(Empty(limit), steps).probes ==>
               Run(Empty(limit), steps).probes[id].at in {Arrived, WantsDiagnostic, Failed, Released} ||
               (Run(Empty(limit), steps).probes[id].at == WantsSlot && !Run(Empty(limit), steps).probes[id].diagnostic)
    ensures var s := Run(Empty(limit), steps); s.slots == 0 && s.diagnostics == 0 && s.active == 0
  {
    var s := Run(Empty(limit), steps);
    RunIsAccurate(limit, steps);
    assert SlotHolders(s) == {} && DiagnosticHolders(s) == {} && Counted(s) == {};
  }

  function OrdinaryHolders(s: State): set<nat> { set id | id in SlotHolders(s) && !s.probes[id].diagnostic }

  /** Diagnostics leave room: as long as fewer ordinary probes than the rest of the budget hold a
      slot, a slot is free. */
  lemma OrdinaryProbesFindRoom(limit: int, steps: seq<Step>)
    requires limit > 0
    ensures var s := Run(Empty(limit), steps);
            |OrdinaryHolders(s)| < limit - DiagnosticLimit(limit) ==> s.slots < limit
    ensures limit - DiagnosticLimit(limit) >= 1 <==> limit >= 2
  {
    var s := Run(Empty(limit), steps);
    RunIsAccurate(limit, steps);
    var others := SlotHolders(s) - OrdinaryHolders(s);
    assert SlotHolders(s) == OrdinaryHolders(s) + others;
    assert others <= DiagnosticHolders(s);
    Within(others, DiagnosticHolders(s));
  }

  /** No run gets stuck: while some probe waits for a token, it or another probe can take a step or
      is holding its tokens and may release them. */
  lemma NotStuck(limit: int, steps: seq<Step>, waiting: nat)
    requires waiting in Run(Empty(limit), steps).probes && Run(Empty(limit), steps).probes[waiting].at in {WantsDiagnostic, WantsSlot}
    ensures var s := Run(Empty(limit), steps);
            exists id :: id in s.probes && (s.probes[id].at == Holding || CanGo(s, id, false))
  {
    var s := Run(Empty(limit), steps);
    RunIsAccurate(limit, steps);
    if s.probes[waiting].at == WantsSlot && !CanGo(s, waiting, false) {
      SomeoneHasSlot(s);
    } else if !CanGo(s, waiting, false) {
      assert DiagnosticHolders(s) != {};
      var holder :| holder in DiagnosticHolders(s);
      HolderHolds(s, holder);
      if s.probes[holder].at == WantsSlot && !CanGo(s, holder, false) {
        SomeoneHasSlot(s);
      }
    }
  }

  lemma SomeoneHasSlot(s: State)
    requires Accurate(s) && Bounded(s.limit) && s.slots == s.limit
    ensures exists id :: id in s.probes && (s.probes[id].at == Holding || CanGo(s, id, false))
  {
    assert SlotHolders(s) != {};
    var holder :| holder in SlotHolders(s);
    HolderHolds(s, holder);
    assert s.probes[holder].at == Holding || CanGo(s, holder, false);
  }

  /** Releasing again changes nothing, at any later time. */
  lemma ReleasedOnce(s: State, steps: seq<Step>, id: nat)
    requires id in s.probes && s.probes[id].at == Holding
    ensures var n := Run(Next(s, Release(id)), steps);
            id in n.probes && n.probes[id].at != Holding && Next(n, Release(id)) == n
  {
    ReleasingStays(s, steps, id);
  }

  predicate Leaving(at: Position) { at == Uncounting || at == FreeingSlot || at == FreeingDiagnostic || at == Released }

  lemma LeavingStep(s: State, a: Step, id: nat)
    requires id in s.probes && Leaving(s.probes[id].at)
    ensures id in Next(s, a).probes && Leaving(Next(s, a).probes[id].at)
  {
  }

  lemma {:induction false} ReleasingStays(s: State, steps: seq<Step>, id: nat)
    requires id in s.probes && s.probes[id].at == Holding
    ensures var n := Run(Next(s, Release(id)), steps); id in n.probes && Leaving(n.probes[id].at)
  {
    if steps != [] {
      ReleasingStays(s, steps[..|steps| - 1], id);
      LeavingStep(Run(Next(s, Release(id)), steps[..|steps| - 1]), steps[|steps| - 1], id);
      hide Next;
    }
  }

  function Goes(id: nat, n: nat): seq<Step> { seq(n, i => Go(id, false)) }

  lemma RunGoes(s: State, id: nat, n: nat)
    ensures Run(s, Goes(id, n + 1)) == Next(Run(s, Goes(id, n)), Go(id, false))
    ensures Run(s, Goes(id, 0)) == s
  {
    assert Goes(id, n + 1)[..n] == Goes(id, n);
  }

  lemma RunSeveral(s: State, id: nat)
    ensures var g := Go(id, false);
            && Run(s, Goes(id, 2)) == Next(Next(s, g), g) && Run(s, Goes(id, 3)) == Next(Next(Next(s, g), g), g)
            && Run(s, Goes(id, 4)) == Next(Next(Next(Next(s, g), g), g), g)
  {
    hide Run, Next;
    RunGoes(s, id, 0);
    RunGoes(s, id, 1);
    RunGoes(s, id, 2);
    RunGoes(s, id, 3);
  }

  /** A probe that finds room takes one slot, and one of the allowance if it is a diagnostic one; ... */
  lemma ProbeTakes(s: State, id: nat, diagnostic: bool)
    requires id !in s.probes && (diagnostic ==> s.diagnostics < DiagnosticLimit(s.limit)) && (s.limit > 0 ==> s.slots < s.limit)
    ensures var n := Run(Next(s, Arrive(id, diagnostic)), Goes(id, if diagnostic then 4 else 3));
            && n == State(s.limit, if s.limit > 0 then s.slots + 1 else s.slots, if diagnostic then s.diagnostics + 1 else s.diagnostics,
                          s.active + 1, s.probes[id := Probe(diagnostic, false, Holding)])
  {
    RunSeveral(Next(s, Arrive(id, diagnostic)), id);
    hide Run;
    TakesIn(s, id, diagnostic);
  }

  lemma TakesIn(s: State, id: nat, diagnostic: bool)
    requires id !in s.probes && (diagnostic ==> s.diagnostics < DiagnosticLimit(s.limit)) && (s.limit > 0 ==> s.slots < s.limit)
    ensures var g, a := Go(id, false), Next(s, Arrive(id, diagnostic));
            (if diagnostic then Next(Next(Next(Next(a, g), g), g), g) else Next(Next(Next(a, g), g), g)) ==
            State(s.limit, if s.limit > 0 then s.slots + 1 else s.slots, if diagnostic then s.diagnostics + 1 else s.diagnostics,
                  s.active + 1, s.probes[id := Probe(diagnostic, false, Holding)])
  {
  }

  /** ... and its release gives exactly these back. */
  lemma ProbeGivesBack(s: State, id: nat)
    requires id in s.probes && s.probes[id].at == Holding && (s.limit > 0 ==> s.slots > 0) && (s.probes[id].diagnostic ==> s.diagnostics > 0)
    ensures var n := Run(Next(s, Release(id)), Goes(id, if s.probes[id].diagnostic then 3 else 2));
            && n == State(s.limit, if s.limit > 0 then s.slots - 1 else s.slots, if s.probes[id].diagnostic then s.diagnostics - 1 else s.diagnostics,
                          s.active - 1, s.probes[id := s.probes[id].(at := Released)])
  {
    RunSeveral(Next(s, Release(id)), id);
    hide Run;
    GivesBackIn(s, id);
  }

  lemma GivesBackIn(s: State, id: nat)
    requires id in s.probes && s.probes[id].at == Holding && (s.limit > 0 ==> s.slots > 0) && (s.probes[id].diagnostic ==> s.diagnostics > 0)
    ensures var g, a := Go(id, false), Next(s, Release(id));
            (if s.probes[id].diagnostic then Next(Next(Next(a, g), g), g) else Next(Next(a, g), g)) ==
            State(s.limit, if s.limit > 0 then s.slots - 1 else s.slots, if s.probes[id].diagnostic then s.diagnostics - 1 else s.diagnostics,
                  s.active - 1, s.probes[id := s.probes[id].(at := Released)])
  {
  }
}
