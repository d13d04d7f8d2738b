/** Which steps leave a live timer that no handler holds and no record names. */
module RecoveryOrphans {
  import opened Common
  import opened FirewallRules
  import opened RecoveryProtocol
  import opened RecoveryInvariant
  import opened RecoverySafety
  import opened RecoveryOrigins
  import opened RecoveryOwned

  predicate HeldLive(s: State) {
    HeldUnit(s.pc).Some? && HeldUnit(s.pc).value in s.timers && s.timers[HeldUnit(s.pc).value].Live()
  }

  // An operation ends between arming and saving: its timer was armed but the
  // scheduler's answer was lost, or it ends with its timer live and no record;
  // or a confirmation drops the record of a timer whose script has begun.
  ghost predicate LetsGo(s: State, e: Event) {
    || (s.pc.Arming? && e.Proceed? && e.outcome.FailedApplied? && !Expired(s, s.pc.started))
    || (HeldLive(s) && Next(s, e).pc.Idle? && !(s.pc.Saving? && e.Proceed? && e.outcome.Done?))
    || (s.pc.Clearing? && e.Proceed? && e.outcome.Done? && s.pc.todo != [] && s.pc.todo[0].DropPending? &&
        RecordIsLive(s, s.pc.todo[0].rule))
  }

  predicate RecordIsLive(s: State, n: Native) {
    n in s.db.pending && s.db.pending[n].timer in s.timers && s.timers[s.db.pending[n].timer].Live()
  }

  ghost predicate Accounted(s: State, u: nat) {
    HeldUnit(s.pc) == Some(u) || exists n :: n in s.db.pending && s.db.pending[n].timer == u
  }

  lemma ArmingOrphans(s: State, outcome: Outcome, lag: nat)
    requires Inv(s) && NoOrphans(s) && s.pc.Arming?
    ensures NoOrphans(ArmStep(s, outcome, lag)) <==> !LetsGo(s, Proceed(outcome, lag))
  {
    var t := ArmStep(s, outcome, lag);
    assert HandlerStep(s, outcome, lag) == t;
    if LetsGo(s, Proceed(outcome, lag)) {
      assert t.timers[s.nextUnit].Live();
    }
  }

  lemma HoldingOrphans(s: State, e: Event)
    requires Inv(s) && NoOrphans(s) && HeldUnit(s.pc).Some? && Next(s, e).timers == s.timers && Next(s, e).db == s.db
    requires HeldUnit(Next(s, e).pc) == HeldUnit(s.pc) || Next(s, e).pc.Idle?
    requires !(s.pc.Saving? && e.Proceed? && e.outcome.Done?)
    ensures NoOrphans(Next(s, e)) <==> !LetsGo(s, e)
  {
    var u := HeldUnit(s.pc).value;
    if HeldLive(s) && Next(s, e).pc.Idle? {
      assert s.timers[u].Live();
    }
  }

  // The record of the rule an operation works on, if there is one, has expired.
  predicate OpUnblocked(s: State) {
    HoldsOp(s.pc) ==> !PendingBlocks(s, s.pc.op.id)
  }

  lemma StepUnblocked(s: State, e: Event)
    requires OpUnblocked(s)
    ensures OpUnblocked(Next(s, e))
  {
    if HoldsOp(Next(s, e).pc) {
      OpComesFrom(s, e);
      if e.Proceed? {
        HandlerKeepsPending(s, e.outcome, e.lag);
      }
    }
  }

  lemma {:induction false} RunUnblocked(s0: State, events: seq<Event>, i: nat)
    requires Initial(s0) && i <= |events|
    ensures OpUnblocked(At(s0, events, i))
  {
    if i > 0 {
      RunUnblocked(s0, events, i - 1);
      StepUnblocked(At(s0, events, i - 1), events[i - 1]);
    }
  }

  // Before its record is stored no other live timer belongs to the rule.
  lemma SavingOrphans(s: State, outcome: Outcome)
    requires Inv(s) && NoOrphans(s) && OpUnblocked(s) && s.pc.Saving? && outcome.Done?
    ensures NoOrphans(SaveStep(s, outcome))
  {
    var t, n, u := SaveStep(s, outcome), s.pc.op.id, s.pc.unit;
    assert t.db.pending[n].timer == u;
    forall v | v in t.timers && t.timers[v].Live() ensures Accounted(t, v) {
      if v != u {
        var m :| m in s.db.pending && s.db.pending[m].timer == v;
        assert m != n;
        assert t.db.pending[m].timer == v;
      }
    }
  }

  lemma DroppedOrphans(s: State, t: State, n: Native)
    requires RecordsOk(s) && NoOrphans(s) && HeldUnit(s.pc).None? && HeldUnit(t.pc).None?
    requires t.timers == s.timers && t.db.pending == s.db.pending - {n}
    ensures NoOrphans(t) <==> !RecordIsLive(s, n)
  {
    forall v | v in t.timers && t.timers[v].Live() && !(n in s.db.pending && s.db.pending[n].timer == v)
      ensures Accounted(t, v)
    {
      var m :| m in s.db.pending && s.db.pending[m].timer == v;
      assert t.db.pending[m].timer == v;
    }
    if RecordIsLive(s, n) {
      assert !Accounted(t, s.db.pending[n].timer);
    }
  }

  lemma ClearingOrphans(s: State, outcome: Outcome)
    requires Inv(s) && NoOrphans(s) && s.pc.Clearing?
    ensures NoOrphans(ClearStep(s, outcome)) <==> !LetsGo(s, Proceed(outcome, 0))
  {
    var t := ClearStep(s, outcome);
    if outcome.Done? && s.pc.todo[0].DropPending? {
      DroppedOrphans(s, t, s.pc.todo[0].rule);
    } else {
      StillAccounted(s, t);
    }
  }

  // Neither the timers in force nor what accounts for them changes.
  lemma StillAccounted(s: State, t: State)
    requires NoOrphans(s) && t.db.pending == s.db.pending && HeldUnit(t.pc) == HeldUnit(s.pc)
    requires forall u :: u in t.timers && t.timers[u].Live() ==> u in s.timers && s.timers[u].Live()
    ensures NoOrphans(t)
  {
    forall u | u in t.timers && t.timers[u].Live() ensures Accounted(t, u) {
      assert Accounted(s, u);
    }
  }

  lemma HandlerOrphans(s: State, outcome: Outcome, lag: nat)
    requires Inv(s) && NoOrphans(s) && OpUnblocked(s)
    ensures NoOrphans(HandlerStep(s, outcome, lag)) <==> !LetsGo(s, Proceed(outcome, lag))
  {
    if HeldUnit(s.pc).Some? || s.pc.Applying? {
      HolderOrphans(s, outcome, lag);
    } else if s.pc.Arming? {
      ArmingOrphans(s, outcome, lag);
    } else if s.pc.Clearing? {
      ClearingOrphans(s, outcome);
    } else {
      OtherOrphans(s, outcome, lag);
    }
  }

  lemma HolderOrphans(s: State, outcome: Outcome, lag: nat)
    requires Inv(s) && NoOrphans(s) && OpUnblocked(s) && (HeldUnit(s.pc).Some? || s.pc.Applying?)
    ensures NoOrphans(HandlerStep(s, outcome, lag)) <==> !LetsGo(s, Proceed(outcome, lag))
  {
    if s.pc.Applying? {
      ApplyingOrphans(s, outcome, lag);
    } else if s.pc.Saving? && outcome.Done? {
      SavingOrphans(s, outcome);
    } else {
      HoldingOrphans(s, Proceed(outcome, lag));
    }
  }

  lemma OtherOrphans(s: State, outcome: Outcome, lag: nat)
    requires Inv(s) && NoOrphans(s) && HeldUnit(s.pc).None? && !s.pc.Arming? && !s.pc.Applying? && !s.pc.Clearing?
    ensures NoOrphans(HandlerStep(s, outcome, lag)) && !LetsGo(s, Proceed(outcome, lag))
  {
    HandlerKeepsPending(s, outcome, lag);
    HandlerHoldsNone(s, outcome, lag);
    StillAccounted(s, HandlerStep(s, outcome, lag));
  }

  lemma HandlerHoldsNone(s: State, outcome: Outcome, lag: nat)
    requires HeldUnit(s.pc).None? && !s.pc.Arming? && !s.pc.Applying?
    ensures var t := HandlerStep(s, outcome, lag);
            && HeldUnit(t.pc).None? && t.timers.Keys == s.timers.Keys
            && forall u :: u in s.timers && t.timers[u].Live() ==> s.timers[u].Live()
  {
  }

  lemma ApplyingOrphans(s: State, outcome: Outcome, lag: nat)
    requires Inv(s) && NoOrphans(s) && s.pc.Applying?
    ensures NoOrphans(HandlerStep(s, outcome, lag)) <==> !LetsGo(s, Proceed(outcome, lag))
  {
    var t := ApplyStep(s, outcome);
    assert HandlerStep(s, outcome, lag) == t;
    if s.pc.timer.None? {
      StillAccounted(s, t);
    } else {
      HoldingOrphans(s, Proceed(outcome, lag));
    }
  }

  lemma FireOrphans(s: State, u: nat, outcome: Outcome)
    requires Inv(s) && NoOrphans(s) && u in s.timers
    ensures NoOrphans(FireStep(s, u, outcome)) && !LetsGo(s, Fire(u, outcome))
  {
    FireMovesStatus(s, u, outcome);
    StillAccounted(s, FireStep(s, u, outcome));
  }

  // Exactly these steps leave a live timer without a record.
  lemma OrphansComeFrom(s: State, e: Event)
    requires Inv(s) && NoOrphans(s) && OpUnblocked(s)
    ensures NoOrphans(Next(s, e)) <==> !LetsGo(s, e)
  {
    match e {
      case Fire(u, outcome) => if u in s.timers { FireOrphans(s, u, outcome); }
      case Proceed(outcome, lag) => HandlerOrphans(s, outcome, lag);
      case Crash => LeavingOrphans(s, e);
      case Abandon => LeavingOrphans(s, e);
      case _ => RequestOrphans(s, e);
    }
  }

  lemma RequestOrphans(s: State, e: Event)
    requires NoOrphans(s) && !e.Fire? && !e.Proceed? && !e.Crash? && !e.Abandon?
    ensures NoOrphans(Next(s, e)) && !LetsGo(s, e)
  {
    var t := Next(s, e);
    assert t.timers == s.timers && t.db == s.db && HeldUnit(t.pc) == HeldUnit(s.pc);
    StillAccounted(s, t);
  }

  lemma LeavingOrphans(s: State, e: Event)
    requires Inv(s) && NoOrphans(s) && (e.Crash? || e.Abandon?)
    ensures NoOrphans(Next(s, e)) <==> !LetsGo(s, e)
  {
    if HeldUnit(s.pc).Some? {
      HoldingOrphans(s, e);
    } else {
      StillAccounted(s, Next(s, e));
    }
  }

  // So in every run.
  lemma {:induction false} OrphanedExactly(s0: State, events: seq<Event>, i: nat)
    requires Initial(s0) && i < |events| && NoOrphans(At(s0, events, i))
    ensures NoOrphans(At(s0, events, i + 1)) <==> !LetsGo(At(s0, events, i), events[i])
  {
    InitialHolds(s0);
    RunKeeps(s0, events, i);
    RunUnblocked(s0, events, i);
    OrphansComeFrom(At(s0, events, i), events[i]);
  }
}
