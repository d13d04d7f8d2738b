/** Each step keeps the invariant of RecoveryOwned, and the theorem follows. */
module RecoveryOwnedSteps {
  import opened Common
  import opened FirewallRules
  import opened FirewallHost
  import opened RecoveryProtocol
  import opened RecoveryInvariant
  import opened RecoveryRestore
  import opened RecoveryOwned

  // ----- Steps outside the handler -----

  lemma TickOwn(s: State, ms: nat)
    requires OwnInv(s)
    ensures OwnInv(Next(s, Tick(ms)))
  {
  }

  // Whatever the panel was doing, it does no longer.
  lemma LeaveOwn(s: State, t: State)
    requires OwnInv(s) && !HoldsOp(t.pc) && !InConfirmation(t.pc)
    requires t == s.(pc := t.pc, left := t.left, update := t.update, restarts := t.restarts)
    ensures OwnInv(t)
  {
  }

  // Nothing the invariant speaks of has changed.
  lemma SameOwn(s: State, t: State)
    requires OwnInv(s) && t == s.(left := t.left, update := t.update)
    ensures OwnInv(t)
  {
  }

  lemma OutsideOwn(s: State, e: Event)
    requires OwnInv(s) && (e.Crash? || e.Abandon? || e.StageUpdate? || e.LockForUpdate? || e.RestoreBinary?)
    ensures OwnInv(Next(s, e))
  {
    var t := Next(s, e);
    if t.pc == s.pc {
      SameOwn(s, t);
    } else {
      LeaveOwn(s, t);
    }
  }

  // ----- A timer runs one command -----

  lemma SetElsewhere(h: Host, script: seq<Cmd>, k: nat, layer: Layer, n: Native, present: bool)
    requires k <= |script| && Effective(h, script, k) && !Mentions(script, n)
    ensures Effective(h.Set(layer, n, present), script, k)
  {
    forall i | 0 <= i < k ensures Holds(h.Set(layer, n, present), script[i]) {
      assert Holds(h, script[i]) && script[i].rule != n;
    }
  }

  // The operation a live timer undoes.
  lemma OwnerOf(s: State, u: nat) returns (op: Op)
    requires Inv(s) && NoOrphans(s) && u in s.timers && s.timers[u].Live()
    ensures WellFormed(op) && s.timers[u].script == UndoScript(op)
    ensures HeldUnit(s.pc) == Some(u) ==> op == s.pc.op
    ensures HeldUnit(s.pc) != Some(u) ==>
              op.id in s.db.pending && s.db.pending[op.id].timer == u && s.db.pending[op.id].op == op
  {
    if HeldUnit(s.pc) == Some(u) {
      op := s.pc.op;
    } else {
      var n :| n in s.db.pending && s.db.pending[n].timer == u;
      op := s.db.pending[n].op;
    }
  }

  lemma FireRunning(s: State, u: nat, k: nat, op: Op)
    requires Inv(s) && RunningEffective(s) && Disjoint(s) && u in s.timers
    requires s.timers[u].status == Running(k) && s.timers[u].script == UndoScript(op) && WellFormed(op)
    ensures RunningEffective(FireStep(s, u, Done))
    ensures FireStep(s, u, Done).timers[u].status.Finished? ==>
              Effective(FireStep(s, u, Done).host, UndoScript(op), |UndoScript(op)|)
  {
    var t := FireStep(s, u, Done);
    var c := UndoScript(op)[k];
    CommandExtends(s.host, op, k);
    forall v | v in t.timers && v != u && t.timers[v].status.Running?
      ensures Effective(t.host, t.timers[v].script, t.timers[v].status.next)
    {
      assert !Mentions(s.timers[v].script, s.timers[u].script[k].rule);
      SetElsewhere(s.host, s.timers[v].script, s.timers[v].status.next, c.layer, c.rule, c.present);
    }
  }

  lemma FireShape(s: State, u: nat, v: nat)
    requires Inv(s) && u in s.timers && v in s.timers
    ensures var t := FireStep(s, u, Done);
            && t.timers.Keys == s.timers.Keys
            && t.timers[v] == s.timers[v].(status := t.timers[v].status)
            && (v != u ==> t.timers[v] == s.timers[v])
            && (t.timers[v].Live() ==> s.timers[v].Live())
  {
  }

  lemma FireDisjoint(s: State, u: nat)
    requires Inv(s) && u in s.timers && Disjoint(s)
    ensures Disjoint(FireStep(s, u, Done))
  {
    var t := FireStep(s, u, Done);
    FireShape(s, u, u);
    forall v | v in t.timers
      ensures v in s.timers && t.timers[v] == s.timers[v].(status := t.timers[v].status)
      ensures t.timers[v].Live() ==> s.timers[v].Live()
    {
      FireShape(s, u, v);
    }
  }

  lemma FireTimers(s: State, u: nat)
    requires Inv(s) && NoOrphans(s) && u in s.timers && Disjoint(s) && RunningEffective(s)
    ensures RunningEffective(FireStep(s, u, Done))
  {
    match s.timers[u].status {
      case Running(k) =>
        var op := OwnerOf(s, u);
        FireRunning(s, u, k, op);
      case _ =>
    }
  }

  // A command touches only what its own script mentions.
  lemma FireFrame(s: State, u: nat, n: Native)
    requires Inv(s) && u in s.timers && !Mentions(s.timers[u].script, n)
    ensures n in FireStep(s, u, Done).host.runtime <==> n in s.host.runtime
    ensures n in FireStep(s, u, Done).host.permanent <==> n in s.host.permanent
    ensures FireStep(s, u, Done).host.zones == s.host.zones
  {
  }

  lemma FireFrameZones(s: State, u: nat)
    requires u in s.timers
    ensures var t := FireStep(s, u, Done);
            t.db == s.db && t.now == s.now && t.pc == s.pc && t.host.zones == s.host.zones && t.timers.Keys == s.timers.Keys
  {
  }

  lemma FireClear(s: State, t: State)
    requires OpClear(s) && t.db == s.db && t.now == s.now && t.pc == s.pc && t.timers.Keys == s.timers.Keys
    requires forall v :: v in s.timers ==>
               t.timers[v].script == s.timers[v].script && (t.timers[v].Live() ==> s.timers[v].Live())
    ensures OpClear(t)
  {
  }

  lemma FireOp(s: State, u: nat)
    requires Inv(s) && u in s.timers && OpClear(s) && OpOwned(s)
    ensures var t := FireStep(s, u, Done); OpClear(t) && OpOwned(t)
  {
    var t := FireStep(s, u, Done);
    FireFrameZones(s, u);
    forall v | v in s.timers
      ensures t.timers[v].script == s.timers[v].script && (t.timers[v].Live() ==> s.timers[v].Live())
    {
      FireShape(s, u, v);
    }
    FireClear(s, t);
  }

  // The last command of an edit's script takes its destination away and ends it.
  lemma FireOwnDestination(s: State, u: nat, op: Op)
    requires u in s.timers && op.kind.EditExternal? && WellFormed(op) && s.timers[u].script == UndoScript(op)
    requires op.dest in s.host.permanent && FireStep(s, u, Done).timers[u].Live()
    ensures op.dest in FireStep(s, u, Done).host.permanent
  {
  }

  lemma FireOtherDestination(s: State, u: nat, v: nat, op: Op)
    requires Inv(s) && Disjoint(s) && u in s.timers && v in s.timers && u != v && s.timers[u].Live() && s.timers[v].Live()
    requires op.kind.EditExternal? && s.timers[v].script == UndoScript(op) && op.dest in s.host.permanent
    ensures op.dest in FireStep(s, u, Done).host.permanent
  {
    assert s.timers[v].script[2].rule == op.dest;
    assert !Mentions(s.timers[u].script, op.dest);
    FireFrame(s, u, op.dest);
  }

  lemma FireAdding(s: State, u: nat)
    requires Inv(s) && u in s.timers && s.timers[u].Live() && Disjoint(s) && OpClear(s) && AddingOk(s)
    ensures AddingOk(FireStep(s, u, Done))
  {
    if (s.pc.Settling? || (s.pc.Applying? && !s.pc.op.kind.IsArmed() && s.pc.phase.PermanentStep?)) {
      assert HeldUnit(s.pc).None?;
      FireFrame(s, u, s.pc.op.id);
    }
    if IsAdding(s.pc) && HeldByRecord(s.db, s.timers, s.pc.op.id) {
      FireKeepsRecord(s, u, s.pc.op.id);
    }
    if s.pc.Saving? && s.pc.op.kind.EditExternal? && FireStep(s, u, Done).timers[s.pc.unit].Live() {
      FireSaving(s, u);
    }
  }

  lemma FireSaving(s: State, u: nat)
    requires Inv(s) && u in s.timers && s.timers[u].Live() && Disjoint(s) && AddingOk(s)
    requires s.pc.Saving? && s.pc.op.kind.EditExternal? && FireStep(s, u, Done).timers[s.pc.unit].Live()
    ensures s.pc.op.dest in FireStep(s, u, Done).host.permanent
  {
    FireShape(s, u, s.pc.unit);
    if s.pc.unit == u {
      FireOwnDestination(s, u, s.pc.op);
    } else {
      FireOtherDestination(s, u, s.pc.unit, s.pc.op);
    }
  }

  lemma FireEditRecord(s: State, u: nat, n: Native)
    requires Inv(s) && u in s.timers && s.timers[u].Live() && Disjoint(s) && EditRecordsOk(s)
    requires n in s.db.pending && s.db.pending[n].op.kind.EditExternal?
    requires FireStep(s, u, Done).timers[s.db.pending[n].timer].Live()
    ensures s.db.pending[n].op.dest in FireStep(s, u, Done).host.permanent
  {
    var p := s.db.pending[n];
    FireShape(s, u, p.timer);
    if p.timer == u {
      FireOwnDestination(s, u, p.op);
    } else {
      FireOtherDestination(s, u, p.timer, p.op);
    }
  }

  lemma FireRecords(s: State, u: nat)
    requires Inv(s) && u in s.timers && s.timers[u].Live() && Disjoint(s) && EditRecordsOk(s)
    ensures EditRecordsOk(FireStep(s, u, Done))
  {
    var t := FireStep(s, u, Done);
    FireFrameZones(s, u);
    forall n | n in s.db.pending && s.db.pending[n].op.kind.EditExternal? && t.timers[s.db.pending[n].timer].Live()
      ensures s.db.pending[n].op.dest in t.host.permanent && s.timers[s.db.pending[n].timer].Live()
    {
      FireShape(s, u, s.db.pending[n].timer);
      FireEditRecord(s, u, n);
    }
  }

  // The timer of a removal that ends has put its rule back.
  lemma FinishedRestores(s: State, u: nat, op: Op)
    requires Inv(s) && RunningEffective(s) && Disjoint(s) && u in s.timers && s.timers[u].Live()
    requires s.timers[u].script == UndoScript(op) && WellFormed(op) && op.kind.IsArmed() && !op.kind.AddDrop?
    requires FireStep(s, u, Done).timers[u].status.Finished?
    ensures FireStep(s, u, Done).host.Everywhere(op.id)
  {
    var t := FireStep(s, u, Done);
    assert UndoScript(op) != [];
    FireRunning(s, u, s.timers[u].status.next, op);
    assert Holds(t.host, UndoScript(op)[0]) && Holds(t.host, UndoScript(op)[1]);
  }

  // A removal's timer that ends has put the rule back; no other concerns it.
  lemma FireSaved(s: State, u: nat)
    requires Inv(s) && u in s.timers && s.timers[u].Live() && OpClear(s) && SavingOk(s) && RunningEffective(s) && Disjoint(s)
    ensures SavingOk(FireStep(s, u, Done))
  {
    var t := FireStep(s, u, Done);
    if s.pc.Saving? && t.timers[s.pc.unit].status.Finished? && !s.pc.op.kind.AddDrop? {
      if s.pc.unit == u {
        FinishedRestores(s, u, s.pc.op);
      } else {
        FireFrame(s, u, s.pc.op.id);
      }
    }
  }

  // A live timer that speaks of an owned rule is that of its record, or undoes
  // an addition in progress.
  lemma FireOtherRule(s: State, u: nat, n: Native)
    requires Inv(s) && NoOrphans(s) && EditRecordsOk(s) && OpOwned(s) && u in s.timers && s.timers[u].Live()
    requires n in s.db.owned && (HoldsOp(s.pc) ==> s.pc.op.id != n)
    requires n in s.db.pending ==> s.db.pending[n].timer != u
    ensures !Mentions(s.timers[u].script, n)
  {
    if Mentions(s.timers[u].script, n) {
      var op := OwnerOf(s, u);
      UndoMentions(op, n);
    }
  }

  lemma FireRestored(s: State, u: nat)
    requires Inv(s) && NoOrphans(s) && u in s.timers && s.timers[u].Live()
    requires EditRecordsOk(s) && OpOwned(s) && OpClear(s) && RestoredOk(s) && RunningEffective(s) && Disjoint(s)
    ensures RestoredOk(FireStep(s, u, Done))
  {
    var t := FireStep(s, u, Done);
    forall n | n in s.db.pending && n in s.db.owned && !s.db.pending[n].op.kind.AddDrop? && InHand(s, s.db.pending[n]) &&
               t.timers[s.db.pending[n].timer].status.Finished?
      ensures t.host.Everywhere(n)
    {
      FireRestoredAt(s, u, n);
    }
  }

  lemma FireRestoredAt(s: State, u: nat, n: Native)
    requires Inv(s) && NoOrphans(s) && u in s.timers && s.timers[u].Live()
    requires EditRecordsOk(s) && OpOwned(s) && OpClear(s) && RestoredOk(s) && RunningEffective(s) && Disjoint(s)
    requires n in s.db.pending && n in s.db.owned && !s.db.pending[n].op.kind.AddDrop? && InHand(s, s.db.pending[n])
    requires FireStep(s, u, Done).timers[s.db.pending[n].timer].status.Finished?
    ensures FireStep(s, u, Done).host.Everywhere(n)
  {
    assert RecordOk(s, n, s.db.pending[n]);
    if s.db.pending[n].timer == u {
      FinishedRestores(s, u, s.db.pending[n].op);
    } else {
      FireShape(s, u, s.db.pending[n].timer);
      FireLeavesOwned(s, u, n);
    }
  }

  lemma FireLeavesOwned(s: State, u: nat, n: Native)
    requires Inv(s) && NoOrphans(s) && EditRecordsOk(s) && OpOwned(s) && OpClear(s) && u in s.timers && s.timers[u].Live()
    requires n in s.db.pending && n in s.db.owned && InHand(s, s.db.pending[n]) && s.db.pending[n].timer != u
    ensures n in FireStep(s, u, Done).host.runtime <==> n in s.host.runtime
    ensures n in FireStep(s, u, Done).host.permanent <==> n in s.host.permanent
  {
    FireOtherRule(s, u, n);
    FireFrame(s, u, n);
  }

  lemma FireClearing(s: State, u: nat)
    requires Inv(s) && NoOrphans(s) && BlockStopped(s) && u in s.timers && s.timers[u].Live() && ClearingKeeps(s)
    ensures ClearingKeeps(FireStep(s, u, Done))
  {
    if s.pc.Clearing? && s.pc.p.op.kind.AddDrop? {
      var n := s.pc.p.op.id;
      if Mentions(s.timers[u].script, n) {
        LiveIsRecorded(s, u, n);
      }
      assert !Mentions(s.timers[u].script, n);
      FireFrame(s, u, n);
    }
  }

  lemma FireKeepsRule(s: State, u: nat, n: Native)
    requires Inv(s) && NoOrphans(s) && OwnInv(s) && u in s.timers && s.timers[u].Live() && n in s.db.owned
    ensures var t := FireStep(s, u, Done); Kept(t.host, t.db, t.timers, n)
  {
    var t := FireStep(s, u, Done);
    var op := OwnerOf(s, u);
    UndoMentions(op, n);
    if Readds(s.timers[u].script, n) {
      FireReadds(s, u, op);
    } else if Mentions(s.timers[u].script, n) {
      FireRemoves(s, u, op, n);
    } else {
      FireFrame(s, u, n);
      FireKeepsOthers(s, u, n);
    }
  }

  // A script that re-adds the rule is live, or has put it back everywhere.
  lemma FireReadds(s: State, u: nat, op: Op)
    requires Inv(s) && RunningEffective(s) && Disjoint(s) && u in s.timers && s.timers[u].Live()
    requires s.timers[u].script == UndoScript(op) && WellFormed(op) && Readds(UndoScript(op), op.id)
    ensures var t := FireStep(s, u, Done); Kept(t.host, t.db, t.timers, op.id)
  {
    var t := FireStep(s, u, Done);
    UndoMentions(op, op.id);
    match s.timers[u].status {
      case Running(k) =>
        FireRunning(s, u, k, op);
        if t.timers[u].status.Finished? {
          assert Holds(t.host, UndoScript(op)[0]) && Holds(t.host, UndoScript(op)[1]);
        }
      case Waiting =>
        assert t.timers[u].Live() && t.timers[u].script == UndoScript(op);
    }
  }

  // A script that removes an owned rule undoes an addition that is still recorded.
  lemma FireRemoves(s: State, u: nat, op: Op, n: Native)
    requires Inv(s) && NoOrphans(s) && OwnInv(s) && u in s.timers && s.timers[u].Live() && n in s.db.owned
    requires WellFormed(op) && s.timers[u].script == UndoScript(op)
    requires HeldUnit(s.pc) == Some(u) ==> op == s.pc.op
    requires HeldUnit(s.pc) != Some(u) ==> op.id in s.db.pending && s.db.pending[op.id].timer == u && s.db.pending[op.id].op == op
    requires Mentions(UndoScript(op), n) && !Readds(UndoScript(op), n)
    ensures var t := FireStep(s, u, Done); Kept(t.host, t.db, t.timers, n)
  {
    UndoMentions(op, n);
    if n !in s.db.paused {
      FireKeepsRecord(s, u, n);
    }
  }

  // Before its deadline the record of a rule would block the request.
  lemma FireKeepsRecord(s: State, u: nat, n: Native)
    requires Inv(s) && u in s.timers && HeldByRecord(s.db, s.timers, n)
    requires s.db.pending[n].op.kind.AddDrop? || s.db.pending[n].timer != u || !s.timers[u].Live()
    ensures HeldByRecord(s.db, FireStep(s, u, Done).timers, n)
  {
  }

  lemma FireKeepsOthers(s: State, u: nat, n: Native)
    requires Inv(s) && u in s.timers && Kept(s.host, s.db, s.timers, n) && !Mentions(s.timers[u].script, n)
    ensures var t := FireStep(s, u, Done); Kept(t.host, t.db, t.timers, n)
  {
    var t := FireStep(s, u, Done);
    FireFrame(s, u, n);
    if v :| v in s.timers && s.timers[v].Live() && Readds(s.timers[v].script, n) {
      ReaddsMentions(s.timers[v].script, n);
      assert t.timers[v] == s.timers[v];
    }
    if HeldByRecord(s.db, s.timers, n) {
      UndoMentions(s.db.pending[n].op, n);
      FireKeepsRecord(s, u, n);
    }
  }

  // A command that succeeds.
  lemma FireDoneOwn(s: State, u: nat)
    requires Inv(s) && OwnInv(s) && Tidy(s) && u in s.timers
    ensures OwnInv(FireStep(s, u, Done))
  {
    if s.timers[u].Live() {
      FireDisjoint(s, u);
      FireTimers(s, u);
      FireOp(s, u);
      FireAdding(s, u);
      FireSaved(s, u);
      FireRestored(s, u);
      FireRecords(s, u);
      FireClearing(s, u);
      forall n | n in s.db.owned ensures var t := FireStep(s, u, Done); Kept(t.host, t.db, t.timers, n) {
        FireKeepsRule(s, u, n);
      }
    }
  }

  // The script ends where it is.
  function Break(s: State, u: nat): State
    requires u in s.timers
  {
    s.(timers := s.timers[u := s.timers[u].(status := Broken)])
  }

  // A command that fails had its effect or not, and then the script ends.
  lemma FailedCommand(s: State, u: nat, outcome: Outcome)
    requires u in s.timers
    ensures var t := FireStep(s, u, outcome);
            || t == FireStep(s, u, Done)
            || (s.timers[u].status.Running? && t.timers[u].status.Broken? &&
                t == Break(if outcome.FailedClean? then s else FireStep(s, u, Done), u))
  {
  }

  // The rule that a broken script would have re-added is left to its record.
  lemma BrokenIsRecorded(s: State, u: nat, m: Native, n: Native)
    requires RecordsOk(s) && m in s.db.pending && s.db.pending[m].timer == u && Kept(s.host, s.db, s.timers, n)
    ensures Kept(s.host, s.db, Break(s, u).timers, n)
  {
    var timers := Break(s, u).timers;
    assert RecordOk(s, m, s.db.pending[m]);
    UndoMentions(s.db.pending[m].op, n);
    if v :| v in s.timers && s.timers[v].Live() && Readds(s.timers[v].script, n) && v != u {
      assert timers[v] == s.timers[v];
    }
  }

  lemma BreakTimers(s: State, u: nat)
    requires Disjoint(s) && RunningEffective(s) && OpClear(s) && EditRecordsOk(s) && u in s.timers
    ensures var t := Break(s, u); Disjoint(t) && RunningEffective(t) && OpClear(t) && EditRecordsOk(t)
  {
  }

  lemma BreakPc(s: State, u: nat)
    requires OpOwned(s) && AddingOk(s) && SavingOk(s) && RestoredOk(s) && ClearingKeeps(s) && u in s.timers
    ensures var t := Break(s, u); OpOwned(t) && AddingOk(t) && SavingOk(t) && RestoredOk(t) && ClearingKeeps(t)
  {
  }

  lemma BreakOwn(s: State, u: nat, m: Native)
    requires RecordsOk(s) && OwnInv(s) && u in s.timers && m in s.db.pending && s.db.pending[m].timer == u
    ensures OwnInv(Break(s, u))
  {
    BreakTimers(s, u);
    BreakPc(s, u);
    forall n | n in s.db.owned ensures Kept(s.host, s.db, Break(s, u).timers, n) {
      BrokenIsRecorded(s, u, m, n);
    }
  }

  lemma FireKeepsRecords(s: State, u: nat)
    requires Inv(s) && u in s.timers
    ensures RecordsOk(FireStep(s, u, Done)) && FireStep(s, u, Done).db == s.db
  {
    FireKeeps(s, u, Done);
    FireFrameZones(s, u);
  }

  lemma FireOwn(s: State, u: nat, outcome: Outcome)
    requires Inv(s) && OwnInv(s) && Tidy(s) && u in s.timers && HeldUnbroken(FireStep(s, u, outcome))
    ensures OwnInv(FireStep(s, u, outcome))
  {
    FailedCommand(s, u, outcome);
    FireDoneOwn(s, u);
    if FireStep(s, u, outcome) != FireStep(s, u, Done) {
      var m :| m in s.db.pending && s.db.pending[m].timer == u;
      FireKeepsRecords(s, u);
      BreakOwn(if outcome.FailedClean? then s else FireStep(s, u, Done), u, m);
    }
  }

  // ----- Requests -----

  // A request that is not a plain addition finds its rule silent.
  lemma BeginIsSilent(s: State, op: Op, env: Env, u: nat)
    requires Inv(s) && NoOrphans(s) && OwnInv(s) && s.pc.Idle? && Accepts(s, op, env)
    requires u in s.timers && s.timers[u].Live() && !op.kind.AddAllow?
    requires op.kind.EditExternal? ==> Untouched(s, op.id)
    ensures !Mentions(s.timers[u].script, op.id) && !Mentions(s.timers[u].script, op.dest)
  {
    if op.kind.EditExternal? {
      DestinationIsAbsent(s, op, env);
      UnblockedIsSilent(s, u, op.dest);
    } else {
      UnblockedIsSilent(s, u, op.id);
    }
  }

  // An edit is accepted only when nothing governs its destination.
  lemma DestinationIsAbsent(s: State, op: Op, env: Env)
    requires Accepts(s, op, env) && op.kind.EditExternal?
    ensures s.host.Nowhere(op.dest) && op.dest.zone in s.host.zones && !PendingBlocks(s, op.dest)
  {
    assert op.dest.ContainsPort(op.dest.port);
    assert op.dest in s.host.Visible() <==> !s.host.Nowhere(op.dest);
  }

  lemma BeginUnblocked(s: State, op: Op, env: Env)
    requires Accepts(s, op, env)
    ensures !PendingBlocks(s, op.id)
  {
  }

  lemma BeginClear(s: State, op: Op, env: Env)
    requires Inv(s) && NoOrphans(s) && OwnInv(s) && s.pc.Idle? && Accepts(s, op, env)
    requires op.kind.EditExternal? ==> Untouched(s, op.id)
    ensures OpClear(Dispatch(s, op))
  {
    BeginUnblocked(s, op, env);
    if !op.kind.AddAllow? {
      forall u | u in s.timers && s.timers[u].Live()
        ensures !Mentions(s.timers[u].script, op.id) && !Mentions(s.timers[u].script, op.dest)
      {
        BeginIsSilent(s, op, env, u);
      }
    }
    DispatchClear(s, op);
  }

  lemma DispatchClear(s: State, op: Op)
    requires !PendingBlocks(s, op.id)
    requires !op.kind.AddAllow? ==> Untouched(s, op.id) && Untouched(s, op.dest)
    ensures OpClear(Dispatch(s, op))
  {
  }

  lemma BeginOpOwned(s: State, op: Op, env: Env)
    requires Accepts(s, op, env)
    ensures OpOwned(Dispatch(s, op))
  {
  }

  // A drop policy that is owned and absent is held by metadata.
  lemma AbsentIsHeld(s: State, n: Native)
    requires Inv(s) && NoOrphans(s) && OwnInv(s) && HeldUnit(s.pc).None? && n in s.db.owned && s.host.Nowhere(n)
    ensures n in s.db.paused || HeldByRecord(s.db, s.timers, n)
  {
    if u :| u in s.timers && s.timers[u].Live() && Readds(s.timers[u].script, n) {
      ReaddsMentions(s.timers[u].script, n);
      LiveIsRecorded(s, u, n);
    }
  }

  lemma BeginAdding(s: State, op: Op, env: Env)
    requires Inv(s) && NoOrphans(s) && OwnInv(s) && s.pc.Idle? && Accepts(s, op, env)
    ensures AddingOk(Dispatch(s, op))
  {
    if op.kind.AddDrop? && op.id in s.db.owned {
      VisibleGoverns(s.host, op.id);
      AbsentIsHeld(s, op.id);
    }
  }

  lemma BeginOwn(s: State, op: Op, env: Env)
    requires Inv(s) && NoOrphans(s) && OwnInv(s) && s.pc.Idle? && Accepts(s, op, env)
    requires op.kind.EditExternal? ==> Untouched(s, op.id)
    ensures OwnInv(Dispatch(s, op))
  {
    BeginClear(s, op, env);
    BeginOpOwned(s, op, env);
    BeginAdding(s, op, env);
    DispatchKeeps(s, op);
  }

  lemma DispatchKeeps(s: State, op: Op)
    requires Disjoint(s) && RunningEffective(s) && EditRecordsOk(s) && RestoredOk(s) && AllKept(s) && s.pc.Idle?
    ensures var t := Dispatch(s, op);
            && Disjoint(t) && RunningEffective(t) && EditRecordsOk(t) && SavingOk(t) && RestoredOk(t)
            && ClearingKeeps(t) && AllKept(t)
  {
  }

  // A request to confirm changes nothing, or starts with the stored record.
  predicate Confirms(s: State, id: Native, t: State) {
    t == s || (id in s.db.pending && s.db.pending[id].op.id == id && s.now < s.db.pending[id].deadline &&
               t == s.(pc := Staging(s.db.pending[id], s.host)))
  }

  lemma ConfirmStarts(s: State, id: Native, token: nat, readable: bool, t: State)
    requires t == Next(s, Confirm(id, token, readable))
    ensures Confirms(s, id, t)
  {
  }

  lemma ConfirmOwn(s: State, id: Native, t: State)
    requires OwnInv(s) && s.pc.Idle? && Confirms(s, id, t)
    ensures OwnInv(t)
  {
    if t != s {
      EnterConfirmation(s, s.db.pending[id]);
    }
  }

  lemma EnterConfirmation(s: State, p: Pending)
    requires OwnInv(s) && s.pc.Idle? && p.op.id in s.db.pending && s.db.pending[p.op.id] == p && s.now < p.deadline
    ensures OwnInv(s.(pc := Staging(p, s.host)))
  {
  }

  // ----- The handler arms its timer -----

  lemma ArmOwn(s: State, outcome: Outcome, lag: nat)
    requires Inv(s) && OwnInv(s) && s.pc.Arming? && NoOrphans(ArmStep(s, outcome, lag))
    ensures OwnInv(ArmStep(s, outcome, lag))
  {
    var t := ArmStep(s, outcome, lag);
    if t.pc.Applying? {
      ArmTimers(s, outcome, lag);
      ArmKeepsAll(s, outcome, lag);
    } else {
      UnarmedIsIdle(s, outcome, lag);
      LeaveOwn(s, t);
    }
  }

  // A timer whose handler has given up would be an orphan.
  lemma UnarmedIsIdle(s: State, outcome: Outcome, lag: nat)
    requires Inv(s) && s.pc.Arming?
    ensures var t := ArmStep(s, outcome, lag); NoOrphans(t) && !t.pc.Applying? ==> t == s.(pc := Idle)
  {
    var t := ArmStep(s, outcome, lag);
    if t.nextUnit != s.nextUnit {
      assert s.nextUnit !in s.timers && t.timers[s.nextUnit].Live();
    }
  }

  // No command of one script concerns a rule of another.
  predicate Apart(a: seq<Cmd>, b: seq<Cmd>) {
    forall i :: 0 <= i < |a| ==> !Mentions(b, a[i].rule)
  }

  lemma SilentIsApart(op: Op, script: seq<Cmd>)
    requires WellFormed(op) && !Mentions(script, op.id) && !Mentions(script, op.dest)
    ensures Apart(UndoScript(op), script) && Apart(script, UndoScript(op))
  {
    forall i | 0 <= i < |UndoScript(op)| ensures !Mentions(script, UndoScript(op)[i].rule) {
      assert Mentions(UndoScript(op), UndoScript(op)[i].rule);
      UndoMentions(op, UndoScript(op)[i].rule);
    }
    forall i | 0 <= i < |script| ensures !Mentions(UndoScript(op), script[i].rule) {
      assert Mentions(script, script[i].rule);
      UndoMentions(op, script[i].rule);
    }
  }

  // A new timer whose script is apart from every live one.
  lemma NewTimerOwn(s: State, t: State, timer: Timer)
    requires Inv(s) && Disjoint(s) && RunningEffective(s)
    requires t.timers == s.timers[s.nextUnit := timer] && t.now == s.now && t.host == s.host
    requires timer.status.Waiting?
    requires forall v :: v in s.timers && s.timers[v].Live() ==>
               Apart(timer.script, s.timers[v].script) && Apart(s.timers[v].script, timer.script)
    ensures Disjoint(t) && RunningEffective(t)
  {
  }

  lemma ArmTimers(s: State, outcome: Outcome, lag: nat)
    requires Inv(s) && OwnInv(s) && s.pc.Arming? && ArmStep(s, outcome, lag).pc.Applying?
    ensures var t := ArmStep(s, outcome, lag); Disjoint(t) && RunningEffective(t) && OpClear(t)
  {
    assert OthersSilent(s);
    forall v | v in s.timers && s.timers[v].Live()
      ensures Apart(UndoScript(s.pc.op), s.timers[v].script) && Apart(s.timers[v].script, UndoScript(s.pc.op))
    {
      SilentIsApart(s.pc.op, s.timers[v].script);
    }
    var t := ArmStep(s, outcome, lag);
    NewTimerOwn(s, t, t.timers[s.nextUnit]);
  }

  lemma ArmKeepsAll(s: State, outcome: Outcome, lag: nat)
    requires Inv(s) && OwnInv(s) && s.pc.Arming? && ArmStep(s, outcome, lag).pc.Applying?
    ensures var t := ArmStep(s, outcome, lag);
            && EditRecordsOk(t) && OpOwned(t) && AddingOk(t) && SavingOk(t) && RestoredOk(t)
            && ClearingKeeps(t) && AllKept(t)
  {
    ArmKeepsHeld(s, outcome, lag);
    ArmKeepsPending(s, outcome, lag);
  }

  // The new timer is one more; the others are as they were.
  lemma ArmKeepsHeld(s: State, outcome: Outcome, lag: nat)
    requires TimersOk(s) && AllKept(s) && s.pc.Arming? && ArmStep(s, outcome, lag).pc.Applying?
    ensures AllKept(ArmStep(s, outcome, lag))
  {
    var t := ArmStep(s, outcome, lag);
    forall n | n in s.db.owned ensures Kept(t.host, t.db, t.timers, n) {
      if u :| u in s.timers && s.timers[u].Live() && Readds(s.timers[u].script, n) {
        assert t.timers[u] == s.timers[u];
      }
    }
  }

  lemma ArmKeepsPending(s: State, outcome: Outcome, lag: nat)
    requires TimersOk(s) && HeldOk(s) && RecordsOk(s) && EditRecordsOk(s) && OpOwned(s) && AddingOk(s) && RestoredOk(s)
    requires s.pc.Arming? && ArmStep(s, outcome, lag).pc.Applying?
    ensures var t := ArmStep(s, outcome, lag);
            EditRecordsOk(t) && OpOwned(t) && AddingOk(t) && SavingOk(t) && RestoredOk(t) && ClearingKeeps(t)
  {
  }
}
