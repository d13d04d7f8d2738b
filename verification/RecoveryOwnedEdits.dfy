/** The steps in which a handler edits the host, and the whole-run theorem. */
module RecoveryOwnedEdits {
  import opened Common
  import opened FirewallRules
  import opened FirewallHost
  import opened RecoveryProtocol
  import opened RecoveryInvariant
  import opened RecoveryRestore
  import opened RecoveryOwned
  import opened RecoveryOwnedSteps

  // ----- One edit of one layer by the handler -----

  predicate HeldWaits(s: State) {
    HeldUnit(s.pc).Some? ==>
      HeldUnit(s.pc).value in s.timers && s.timers[HeldUnit(s.pc).value].status.Waiting?
  }

  // Losing the rule n from a layer would still leave it held.
  ghost predicate HeldOtherwise(s: State, n: Native) {
    || n !in s.db.owned || n in s.db.paused || HeldByRecord(s.db, s.timers, n)
    || exists u :: u in s.timers && s.timers[u].Live() && Readds(s.timers[u].script, n)
  }

  ghost predicate SilentFor(s: State, n: Native) {
    forall u :: u in s.timers && s.timers[u].Live() && HeldUnit(s.pc) != Some(u) ==> !Mentions(s.timers[u].script, n)
  }

  // No script that has begun, and no edit's undo that is armed, speaks of n.
  predicate Undone(s: State, n: Native) {
    forall u :: u in s.timers && s.timers[u].Live() && (s.timers[u].status.Running? || HeldUnit(s.pc) != Some(u)) ==>
      !Mentions(s.timers[u].script, n)
  }

  lemma WriteKeepsRunning(s: State, layer: Layer, n: Native, present: bool)
    requires RunningEffective(s) && Undone(s, n)
    ensures RunningEffective(s.(host := s.host.Set(layer, n, present)))
  {
    forall u | u in s.timers && s.timers[u].status.Running?
      ensures Effective(s.host.Set(layer, n, present), s.timers[u].script, s.timers[u].status.next)
    {
      SetElsewhere(s.host, s.timers[u].script, s.timers[u].status.next, layer, n, present);
    }
  }

  lemma WriteKeepsRecords(s: State, layer: Layer, n: Native, present: bool)
    requires Inv(s) && EditRecordsOk(s) && Undone(s, n)
    ensures EditRecordsOk(s.(host := s.host.Set(layer, n, present)))
  {
    forall m | m in s.db.pending && s.db.pending[m].op.kind.EditExternal? && s.timers[s.db.pending[m].timer].Live()
      ensures s.db.pending[m].op.dest != n
    {
      assert s.timers[s.db.pending[m].timer].script[2].rule == s.db.pending[m].op.dest;
    }
  }

  lemma WriteKeepsAll(s: State, layer: Layer, n: Native, present: bool)
    requires AllKept(s) && (!present ==> HeldOtherwise(s, n))
    ensures AllKept(s.(host := s.host.Set(layer, n, present)))
  {
    var h := s.host.Set(layer, n, present);
    forall m | m in s.db.owned ensures Kept(h, s.db, s.timers, m) {
      assert Kept(s.host, s.db, s.timers, m);
    }
  }

  ghost predicate HostPart(s: State) {
    Disjoint(s) && RunningEffective(s) && EditRecordsOk(s) && RestoredOk(s) && AllKept(s)
  }

  // The rule n is not in the hands of a record.
  predicate Unrecorded(s: State, n: Native) {
    n in s.db.owned ==> !PendingBlocks(s, n) && !InConfirmation(s.pc)
  }

  lemma WriteKeepsRestored(s: State, layer: Layer, n: Native, present: bool)
    requires Inv(s) && RestoredOk(s) && Unrecorded(s, n)
    ensures RestoredOk(s.(host := s.host.Set(layer, n, present)))
  {
  }

  lemma WriteOwn(s: State, layer: Layer, n: Native, present: bool)
    requires Inv(s) && OwnInv(s) && Undone(s, n) && Unrecorded(s, n) && (!present ==> HeldOtherwise(s, n))
    ensures HostPart(s.(host := s.host.Set(layer, n, present)))
  {
    WriteKeepsRunning(s, layer, n, present);
    WriteKeepsRecords(s, layer, n, present);
    WriteKeepsRestored(s, layer, n, present);
    WriteKeepsAll(s, layer, n, present);
  }

  // The host part does not look at the program counter.
  lemma JoinParts(s: State, host: Host, pc: Pc)
    requires HostPart(s.(host := host)) && !InConfirmation(pc)
    requires var t := s.(host := host, pc := pc); OpClear(t) && OpOwned(t) && AddingOk(t) && SavingOk(t) && ClearingKeeps(t)
    ensures OwnInv(s.(host := host, pc := pc))
  {
  }

  // Outside a confirmation the handler moves on without touching anything.
  lemma MovesOn(s: State, pc: Pc)
    requires OwnInv(s) && !InConfirmation(pc)
    requires var t := s.(pc := pc); OpClear(t) && OpOwned(t) && AddingOk(t) && SavingOk(t) && ClearingKeeps(t)
    ensures OwnInv(s.(pc := pc))
  {
    assert s.(host := s.host) == s && s.(host := s.host, pc := pc) == s.(pc := pc);
    JoinParts(s, s.host, pc);
  }

  // ----- Applying -----

  // In a tidy run the handler of an armed operation does not give up while its
  // timer is waiting.
  lemma TidyApplies(s: State, outcome: Outcome)
    requires Inv(s) && s.pc.Applying? && s.pc.timer.Some? && !Expired(s, s.pc.started) && s.pc.step < |Changes(s.pc.op)|
    requires NoOrphans(ApplyStep(s, outcome))
    ensures !HelperStep(s.host, Changes(s.pc.op)[s.pc.step], s.pc.phase, outcome).1.GaveUp?
    ensures HeldWaits(s)
  {
    var t := ApplyStep(s, outcome);
    assert s.timers[s.pc.timer.value].Live() && t.timers == s.timers && t.db == s.db;
  }

  lemma RemovalIsHeld(s: State, n: Native)
    requires Inv(s) && OwnInv(s) && s.pc.Applying? && HeldWaits(s)
    requires s.pc.op.kind.IsArmed() && s.pc.step < |Changes(s.pc.op)| && Changes(s.pc.op)[s.pc.step] == Change(false, n)
    ensures HeldOtherwise(s, n)
  {
    var op := s.pc.op;
    if !op.kind.EditExternal? {
      UndoMentions(op, op.id);
      assert s.timers[s.pc.timer.value].Live();
    }
  }

  lemma AddingIsHeld(s: State)
    requires OwnInv(s) && IsAdding(s.pc)
    ensures HeldOtherwise(s, s.pc.op.id)
  {
  }

  lemma SilentDuring(s: State, n: Native)
    requires OpClear(s) && HoldsOp(s.pc) && PastCheck(s.pc) && (n == s.pc.op.id || n == s.pc.op.dest)
    ensures SilentFor(s, n)
  {
  }

  // The edit a step makes, when it makes one.
  lemma ApplyHostPart(s: State, outcome: Outcome)
    requires Inv(s) && OwnInv(s) && s.pc.Applying? && s.pc.step < |Changes(s.pc.op)| && !Expired(s, s.pc.started)
    requires NoOrphans(ApplyStep(s, outcome))
    ensures HostPart(s.(host := ApplyStep(s, outcome).host))
  {
    var op, c := s.pc.op, Changes(s.pc.op)[s.pc.step];
    if s.pc.timer.Some? {
      TidyApplies(s, outcome);
    }
    if !s.pc.phase.Check? {
      SilentDuring(s, c.rule);
      if op.kind.IsArmed() {
        if !c.add {
          RemovalIsHeld(s, c.rule);
        }
        ArmedWrite(s, outcome);
      } else {
        AddingIsHeld(s);
        UnarmedWrite(s, outcome);
      }
    }
  }

  lemma ArmedWrite(s: State, outcome: Outcome)
    requires Inv(s) && OwnInv(s) && s.pc.Applying? && s.pc.step < |Changes(s.pc.op)| && !Expired(s, s.pc.started)
    requires s.pc.op.kind.IsArmed() && HeldWaits(s) && !s.pc.phase.Check?
    requires !HelperStep(s.host, Changes(s.pc.op)[s.pc.step], s.pc.phase, outcome).1.GaveUp?
    requires SilentFor(s, Changes(s.pc.op)[s.pc.step].rule)
    requires !Changes(s.pc.op)[s.pc.step].add ==> HeldOtherwise(s, Changes(s.pc.op)[s.pc.step].rule)
    ensures HostPart(s.(host := ApplyStep(s, outcome).host))
  {
    var c := Changes(s.pc.op)[s.pc.step];
    ArmedHost(s, outcome);
    WriteOwn(s, Runtime, c.rule, c.add);
    WriteOwn(s, Permanent, c.rule, c.add);
    assert s.(host := s.host) == s;
  }

  lemma ArmedHost(s: State, outcome: Outcome)
    requires s.pc.Applying? && s.pc.step < |Changes(s.pc.op)| && !Expired(s, s.pc.started)
    requires !HelperStep(s.host, Changes(s.pc.op)[s.pc.step], s.pc.phase, outcome).1.GaveUp?
    ensures var h, c := ApplyStep(s, outcome).host, Changes(s.pc.op)[s.pc.step];
            h == s.host || h == s.host.Set(Runtime, c.rule, c.add) || h == s.host.Set(Permanent, c.rule, c.add)
  {
  }

  lemma UnarmedHost(s: State, outcome: Outcome)
    requires s.pc.Applying? && s.pc.step < |Changes(s.pc.op)| && !Expired(s, s.pc.started)
    requires HeldOk(s) && !s.pc.op.kind.IsArmed() && !s.pc.phase.Check?
    ensures var h, n := ApplyStep(s, outcome).host, s.pc.op.id;
            h == s.host || h == s.host.Set(Runtime, n, true) || h == s.host.Set(Permanent, n, true) ||
            h == s.host.Set(Runtime, n, false)
  {
  }

  lemma UnarmedWrite(s: State, outcome: Outcome)
    requires Inv(s) && OwnInv(s) && s.pc.Applying? && s.pc.step < |Changes(s.pc.op)| && !Expired(s, s.pc.started)
    requires !s.pc.op.kind.IsArmed() && HeldWaits(s) && !s.pc.phase.Check?
    requires SilentFor(s, s.pc.op.id) && HeldOtherwise(s, s.pc.op.id)
    ensures HostPart(s.(host := ApplyStep(s, outcome).host))
  {
    var n := s.pc.op.id;
    UnarmedHost(s, outcome);
    WriteOwn(s, Runtime, n, true);
    WriteOwn(s, Permanent, n, true);
    WriteOwn(s, Runtime, n, false);
    assert s.(host := s.host) == s;
  }

  // The program counter's share of the invariant after one step.
  lemma ApplyOpOwned(s: State, outcome: Outcome)
    requires HeldOk(s) && OpOwned(s) && s.pc.Applying?
    ensures OpOwned(ApplyStep(s, outcome)) && ClearingKeeps(ApplyStep(s, outcome))
  {
  }

  lemma ApplyOpClear(s: State, outcome: Outcome)
    requires HeldOk(s) && OpClear(s) && s.pc.Applying?
    requires s.pc.op.kind.AddAllow? && PastCheck(ApplyStep(s, outcome).pc) ==> OthersSilent(s)
    ensures OpClear(ApplyStep(s, outcome))
  {
  }

  lemma ApplyAdding(s: State, outcome: Outcome)
    requires HeldOk(s) && AddingOk(s) && s.pc.Applying?
    requires s.pc.op.kind.AddAllow? && PastCheck(ApplyStep(s, outcome).pc) && s.pc.op.id in s.db.owned ==>
               s.pc.op.id in s.db.paused || HeldByRecord(s.db, s.timers, s.pc.op.id)
    ensures AddingOk(ApplyStep(s, outcome))
  {
  }

  lemma ApplyPcPart(s: State, outcome: Outcome)
    requires Inv(s) && NoOrphans(s) && OwnInv(s) && s.pc.Applying?
    ensures var t := ApplyStep(s, outcome); OpClear(t) && OpOwned(t) && AddingOk(t) && SavingOk(t) && ClearingKeeps(t)
  {
    if s.pc.op.kind.AddAllow? && !PastCheck(s.pc) && PastCheck(ApplyStep(s, outcome).pc) {
      AdditionIsSilent(s);
    }
    ApplyOpOwned(s, outcome);
    ApplyOpClear(s, outcome);
    ApplyAdding(s, outcome);
  }

  // A plain addition that its helper admits finds its rule absent and silent.
  lemma AdditionIsSilent(s: State)
    requires Inv(s) && NoOrphans(s) && OwnInv(s) && s.pc.Applying? && s.pc.op.kind.AddAllow?
    requires Admits(s.host, Change(true, s.pc.op.id))
    ensures OthersSilent(s)
    ensures s.pc.op.id in s.db.owned ==> s.pc.op.id in s.db.paused || HeldByRecord(s.db, s.timers, s.pc.op.id)
  {
    var n := s.pc.op.id;
    assert n in s.host.GoverningIn(n.zone, n.port, n.protocol) <==> !s.host.Nowhere(n);
    forall u | u in s.timers && s.timers[u].Live() && HeldUnit(s.pc) != Some(u)
      ensures !Mentions(s.timers[u].script, n)
    {
      UnblockedIsSilent(s, u, n);
    }
    if n in s.db.owned {
      AbsentIsHeld(s, n);
    }
  }

  lemma ApplyOwn(s: State, outcome: Outcome)
    requires Inv(s) && NoOrphans(s) && OwnInv(s) && s.pc.Applying? && NoOrphans(ApplyStep(s, outcome))
    ensures OwnInv(ApplyStep(s, outcome))
  {
    var t := ApplyStep(s, outcome);
    if Expired(s, s.pc.started) || s.pc.step >= |Changes(s.pc.op)| {
      LeaveOwn(s, t);
    } else {
      ApplyHostPart(s, outcome);
      ApplyPcPart(s, outcome);
      assert t == s.(host := t.host, pc := t.pc);
      JoinParts(s, t.host, t.pc);
    }
  }

  // ----- Undoing an unarmed change -----

  lemma UndoHostPart(s: State, outcome: Outcome)
    requires Inv(s) && OwnInv(s) && s.pc.Undoing?
    ensures HostPart(s.(host := UndoStep(s, outcome).host))
  {
    var n := s.pc.op.id;
    SilentDuring(s, n);
    AddingIsHeld(s);
    UndoHost(s, outcome);
    WriteOwn(s, Runtime, n, false);
    WriteOwn(s, Permanent, n, false);
    WriteOwn(s, Runtime, n, true);
    assert s.(host := s.host) == s;
  }

  lemma UndoHost(s: State, outcome: Outcome)
    requires s.pc.Undoing?
    ensures var h, n := UndoStep(s, outcome).host, s.pc.op.id;
            h == s.host || h == s.host.Set(Runtime, n, false) || h == s.host.Set(Permanent, n, false) ||
            h == s.host.Set(Runtime, n, true)
  {
  }

  lemma UndoOwn(s: State, outcome: Outcome)
    requires Inv(s) && OwnInv(s) && s.pc.Undoing?
    ensures OwnInv(UndoStep(s, outcome))
  {
    var t := UndoStep(s, outcome);
    UndoHostPart(s, outcome);
    assert t == s.(host := t.host, pc := t.pc);
    JoinParts(s, t.host, t.pc);
  }

  // ----- The other handler steps -----

  lemma VerifyOwn(s: State, outcome: Outcome)
    requires Inv(s) && OwnInv(s) && s.pc.Verifying?
    ensures OwnInv(VerifyStep(s, outcome))
  {
    var t := VerifyStep(s, outcome);
    VerifyPcPart(s, outcome);
    assert t == s.(pc := t.pc);
    MovesOn(s, t.pc);
  }

  lemma VerifyPcPart(s: State, outcome: Outcome)
    requires TimersOk(s) && HeldOk(s) && OpClear(s) && OpOwned(s) && AddingOk(s) && s.pc.Verifying?
    ensures var t := VerifyStep(s, outcome); OpClear(t) && OpOwned(t) && AddingOk(t) && SavingOk(t) && ClearingKeeps(t)
  {
  }

  // A record is stored over no other live one, and holds its own rule.
  lemma SaveOwn(s: State, outcome: Outcome)
    requires Inv(s) && OwnInv(s) && s.pc.Saving?
    ensures OwnInv(SaveStep(s, outcome))
  {
    var t := SaveStep(s, outcome);
    if t.db == s.db {
      LeaveOwn(s, s.(pc := Idle));
      LeaveSame(s, t);
    } else {
      SaveKeepsRecords(s, outcome);
      SaveKeepsAll(s, outcome);
      SaveKeepsTimers(s, outcome);
    }
  }

  lemma LeaveSame(s: State, t: State)
    requires OwnInv(s.(pc := Idle)) && t == s.(db := s.db, nextToken := t.nextToken, pc := Idle)
    ensures OwnInv(t)
  {
  }

  lemma SaveKeepsTimers(s: State, outcome: Outcome)
    requires OwnInv(s) && s.pc.Saving?
    ensures var t := SaveStep(s, outcome);
            Disjoint(t) && RunningEffective(t) && OpClear(t) && OpOwned(t) && AddingOk(t) && SavingOk(t) && ClearingKeeps(t)
  {
  }

  lemma SaveKeepsRecords(s: State, outcome: Outcome)
    requires Inv(s) && OwnInv(s) && s.pc.Saving? && SaveStep(s, outcome).db != s.db
    ensures EditRecordsOk(SaveStep(s, outcome)) && RestoredOk(SaveStep(s, outcome))
  {
  }

  lemma SaveKeepsAll(s: State, outcome: Outcome)
    requires Inv(s) && OwnInv(s) && s.pc.Saving?
    ensures AllKept(SaveStep(s, outcome))
  {
    var t, op := SaveStep(s, outcome), s.pc.op;
    forall n | n in t.db.owned ensures Kept(t.host, t.db, t.timers, n) {
      assert Kept(s.host, s.db, s.timers, n);
      if HeldByRecord(s.db, s.timers, n) && n != op.id {
        assert HeldByRecord(t.db, t.timers, n);
      }
    }
  }

  // ----- A confirmation -----

  // Settings change, the host and the timers do not.
  lemma SettingsOwn(s: State, db: Settings, pc: Pc)
    requires Inv(s) && OwnInv(s) && !HoldsOp(pc)
    requires var t := s.(db := db, pc := pc); EditRecordsOk(t) && OpOwned(t) && RestoredOk(t) && ClearingKeeps(t) && AllKept(t)
    ensures OwnInv(s.(db := db, pc := pc))
  {
  }

  // A confirmation moves on, or gives up, with the settings as they are.
  lemma MoveOnOwn(s: State, t: State)
    requires OwnInv(s) && InConfirmation(s.pc) && t == s.(pc := t.pc)
    requires t.pc.Idle? || t.pc.Cancelling? || t.pc.Unstaging? || t.pc.Reverifying?
    requires !t.pc.Idle? ==> t.pc.p == s.pc.p
    ensures OwnInv(t)
  {
  }

  lemma DbKeepsAll(s: State, db: Settings, n: Native)
    requires AllKept(s)
    requires forall m :: m != n ==> (m in db.owned ==> m in s.db.owned) && (m in s.db.paused ==> m in db.paused) &&
                                    (m in s.db.pending ==> m in db.pending && db.pending[m] == s.db.pending[m])
    requires n in db.owned ==> Kept(s.host, db, s.timers, n)
    ensures forall m :: m in db.owned ==> Kept(s.host, db, s.timers, m)
  {
    forall m | m in db.owned && m != n ensures Kept(s.host, db, s.timers, m) {
      assert Kept(s.host, s.db, s.timers, m);
    }
  }

  // A rule may become owned when no edit in progress speaks of it.
  lemma OwningKeepsRecords(s: State, n: Native, pc: Pc)
    requires Inv(s) && EditRecordsOk(s)
    requires SilentFor(s, n) && !PendingBlocks(s, n)
    requires HeldUnit(s.pc).None?
    ensures EditRecordsOk(s.(db := s.db.(owned := s.db.owned + {n}), pc := pc))
  {
    forall m | m in s.db.pending && s.db.pending[m].op.kind.EditExternal? && s.timers[s.db.pending[m].timer].Live()
      ensures s.db.pending[m].op.dest != n
    {
      assert s.timers[s.db.pending[m].timer].script[2].rule == s.db.pending[m].op.dest;
    }
  }

  lemma SettleAddedOwn(s: State)
    requires Inv(s) && OwnInv(s) && s.pc.Settling? && s.pc.op.kind.AddAllow?
    ensures OwnInv(s.(db := s.db.(owned := s.db.owned + {s.pc.op.id}), pc := Idle))
  {
    var n := s.pc.op.id;
    OwningKeepsRecords(s, n, Idle);
    DbKeepsAll(s, s.db.(owned := s.db.owned + {n}), n);
    SettingsOwn(s, s.db.(owned := s.db.owned + {n}), Idle);
  }

  lemma SettleResumedOwn(s: State)
    requires Inv(s) && OwnInv(s) && s.pc.Settling?
    ensures OwnInv(s.(db := s.db.(paused := s.db.paused - {s.pc.op.id}), pc := Idle))
  {
    var n := s.pc.op.id;
    DbKeepsAll(s, s.db.(paused := s.db.paused - {n}), n);
    SettingsOwn(s, s.db.(paused := s.db.paused - {n}), Idle);
  }

  lemma TurnToUndo(s: State)
    requires Inv(s) && OwnInv(s) && s.pc.Settling?
    ensures OwnInv(s.(pc := Undoing(s.pc.op, Check)))
  {
    UndoPcPart(s);
    MovesOn(s, Undoing(s.pc.op, Check));
  }

  lemma UndoPcPart(s: State)
    requires OpClear(s) && OpOwned(s) && AddingOk(s) && s.pc.Settling?
    ensures var t := s.(pc := Undoing(s.pc.op, Check)); OpClear(t) && OpOwned(t) && AddingOk(t) && SavingOk(t) && ClearingKeeps(t)
  {
  }

  lemma SettleOwn(s: State, outcome: Outcome)
    requires Inv(s) && OwnInv(s) && s.pc.Settling?
    ensures OwnInv(SettleStep(s, outcome))
  {
    if !outcome.Done? {
      TurnToUndo(s);
    } else if s.pc.op.kind.AddAllow? {
      SettleAddedOwn(s);
    } else {
      SettleResumedOwn(s);
    }
  }

  // Pausing adds metadata only.
  lemma StagePauseRecords(s: State, op: Op, pc: Pc)
    requires EditRecordsOk(s) && OpOwned(s) && RestoredOk(s) && s.pc.Staging? && s.pc.p.op == op
    requires (op.kind.PauseAllow? || op.kind.PauseDrop?) && pc.Cancelling? && pc.p == s.pc.p
    ensures var t := s.(db := Stage(s.db, op), pc := pc); EditRecordsOk(t) && OpOwned(t) && RestoredOk(t) && ClearingKeeps(t)
  {
  }

  lemma StagePauseOwn(s: State, op: Op, pc: Pc)
    requires Inv(s) && OwnInv(s) && s.pc.Staging? && s.pc.p.op == op && (op.kind.PauseAllow? || op.kind.PauseDrop?)
    requires pc.Cancelling? && pc.p == s.pc.p
    ensures OwnInv(s.(db := Stage(s.db, op), pc := pc))
  {
    StagePauseRecords(s, op, pc);
    PausingKeepsAll(s, op);
    SettingsOwn(s, Stage(s.db, op), pc);
  }

  lemma PausingKeepsAll(s: State, op: Op)
    requires AllKept(s) && (op.kind.PauseAllow? || op.kind.PauseDrop?)
    ensures AllKept(s.(db := Stage(s.db, op)))
  {
    DbKeepsAll(s, Stage(s.db, op), op.id);
  }

  // A block becomes owned while its record is there; no edit leads to a block.
  lemma StageDropRecords(s: State, op: Op, pc: Pc)
    requires EditRecordsOk(s) && OpOwned(s) && RestoredOk(s) && s.pc.Staging? && s.pc.p.op == op
    requires op.kind.AddDrop? && IsDrop(op.id) && pc.Cancelling? && pc.p == s.pc.p
    requires op.id in s.db.pending && s.db.pending[op.id] == s.pc.p
    ensures var t := s.(db := Stage(s.db, op), pc := pc); EditRecordsOk(t) && OpOwned(t) && RestoredOk(t) && ClearingKeeps(t)
  {
  }

  lemma StageDropOwn(s: State, op: Op, pc: Pc)
    requires Inv(s) && OwnInv(s) && s.pc.Staging? && s.pc.p.op == op && op.kind.AddDrop?
    requires pc.Cancelling? && pc.p == s.pc.p
    ensures OwnInv(s.(db := Stage(s.db, op), pc := pc))
  {
    assert RecordOk(s, op.id, s.pc.p);
    StageDropRecords(s, op, pc);
    DbKeepsAll(s, Stage(s.db, op), op.id);
    SettingsOwn(s, Stage(s.db, op), pc);
  }

  lemma StageOwn(s: State, outcome: Outcome)
    requires Inv(s) && OwnInv(s) && s.pc.Staging?
    ensures OwnInv(StageStep(s, outcome))
  {
    var t, op := StageStep(s, outcome), s.pc.p.op;
    if t.db == s.db {
      assert t == s.(pc := t.pc);
      MoveOnOwn(s, t);
    } else if op.kind.AddDrop? {
      StageDropOwn(s, op, t.pc);
    } else {
      StagePauseOwn(s, op, t.pc);
    }
  }

  lemma UnstageRecords(s: State, outcome: Outcome)
    requires EditRecordsOk(s) && OpOwned(s) && RestoredOk(s) && s.pc.Unstaging?
    ensures var t := UnstageStep(s, outcome); EditRecordsOk(t) && OpOwned(t) && RestoredOk(t) && ClearingKeeps(t)
  {
    StageKeepsRecords(s.db, s.pc.p.op);
  }

  // Without its metadata a paused rule is left to its record, or was put back.
  lemma UnstagedIsHeld(s: State)
    requires ConfirmOk(s) && RecordsOk(s) && RestoredOk(s) && AllKept(s) && s.pc.Unstaging?
    requires s.pc.p.op.id in Unstage(s.db, s.pc.p.op).owned
    ensures Kept(s.host, Unstage(s.db, s.pc.p.op), s.timers, s.pc.p.op.id)
  {
    StageKeepsRecords(s.db, s.pc.p.op);
    assert RecordOk(s, s.pc.p.op.id, s.pc.p);
    assert InHand(s, s.pc.p);
  }

  lemma UnstageOwn(s: State, outcome: Outcome)
    requires Inv(s) && OwnInv(s) && s.pc.Unstaging?
    ensures OwnInv(UnstageStep(s, outcome))
  {
    var t, n := UnstageStep(s, outcome), s.pc.p.op.id;
    UnstageRecords(s, outcome);
    StageKeepsRecords(s.db, s.pc.p.op);
    if outcome.Done? && n in t.db.owned {
      UnstagedIsHeld(s);
    }
    DbKeepsAll(s, t.db, n);
    SettingsOwn(s, t.db, t.pc);
  }

  lemma StopKeepsAll(s: State, u: nat, t: State)
    requires RecordsOk(s) && ConfirmOk(s) && AllKept(s) && s.pc.Cancelling? && s.pc.p.timer == u && u in s.timers
    requires t == s.(timers := s.timers[u := s.timers[u].(status := Stopped)], pc := t.pc)
    ensures AllKept(t)
  {
    assert RecordOk(s, s.pc.p.op.id, s.pc.p);
    forall n | n in s.db.owned ensures Kept(t.host, t.db, t.timers, n) {
      assert Kept(s.host, s.db, s.timers, n);
      UndoMentions(s.pc.p.op, n);
      if v :| v in s.timers && s.timers[v].Live() && Readds(s.timers[v].script, n) && v != u {
        assert t.timers[v] == s.timers[v];
      }
    }
  }

  lemma StopKeepsTimers(s: State, u: nat, t: State)
    requires Disjoint(s) && RunningEffective(s) && EditRecordsOk(s) && RestoredOk(s) && s.pc.Cancelling? && u in s.timers
    requires t == s.(timers := s.timers[u := s.timers[u].(status := Stopped)], pc := Reverifying(s.pc.p))
    ensures Disjoint(t) && RunningEffective(t) && EditRecordsOk(t) && RestoredOk(t)
  {
  }

  // Stopping a timer leaves its rule to the record, which is still there.
  lemma StopOwn(s: State, u: nat)
    requires Inv(s) && OwnInv(s) && s.pc.Cancelling? && s.pc.p.timer == u && s.timers[u].status.Waiting?
    ensures OwnInv(s.(timers := s.timers[u := s.timers[u].(status := Stopped)], pc := Reverifying(s.pc.p)))
  {
    var t := s.(timers := s.timers[u := s.timers[u].(status := Stopped)], pc := Reverifying(s.pc.p));
    StopKeepsTimers(s, u, t);
    StopKeepsAll(s, u, t);
  }

  lemma CancelLeavesTimers(s: State, outcome: Outcome)
    requires s.pc.Cancelling? && !(outcome.Done? && s.pc.p.timer in s.timers && s.timers[s.pc.p.timer].status.Waiting?)
    ensures var t := CancelStep(s, outcome);
            t == s.(pc := t.pc) && (t.pc.Idle? || ((t.pc.Unstaging? || t.pc.Reverifying?) && t.pc.p == s.pc.p))
  {
    var u := s.pc.p.timer;
    if u in s.timers {
      assert s.timers[u := s.timers[u]] == s.timers;
    }
  }

  lemma CancelOwn(s: State, outcome: Outcome)
    requires Inv(s) && OwnInv(s) && s.pc.Cancelling?
    ensures OwnInv(CancelStep(s, outcome))
  {
    var p := s.pc.p;
    if outcome.Done? && s.timers[p.timer].status.Waiting? {
      StopOwn(s, p.timer);
    } else {
      CancelLeavesTimers(s, outcome);
      MoveOnOwn(s, CancelStep(s, outcome));
    }
  }

  lemma FinalWritesConfined(p: Pending, db: Settings)
    ensures Confined(FinalWrites(p, db), p.op.id)
  {
  }

  lemma ReverifyOwn(s: State, outcome: Outcome)
    requires Inv(s) && OwnInv(s) && s.pc.Reverifying?
    ensures OwnInv(ReverifyStep(s, outcome))
  {
    var t := ReverifyStep(s, outcome);
    FinalWritesConfined(s.pc.p, s.db);
    SettingsOwn(s, s.db, t.pc);
    assert t == s.(db := s.db, pc := t.pc);
  }

  lemma StoreConfined(db: Settings, w: Write, n: Native, m: Native)
    requires (w.SetNote? || w.SetPurpose? || w.rule == n) && m != n
    ensures m in Store(db, w).owned <==> m in db.owned
    ensures m in Store(db, w).paused <==> m in db.paused
    ensures m in Store(db, w).pending <==> m in db.pending
    ensures m in db.pending ==> Store(db, w).pending[m] == db.pending[m]
  {
  }

  lemma StoreShrinks(s: State, w: Write, pc: Pc)
    requires EditRecordsOk(s) && RestoredOk(s) && (pc.Idle? || (InConfirmation(s.pc) && InConfirmation(pc) && pc.p == s.pc.p))
    ensures EditRecordsOk(s.(db := Store(s.db, w), pc := pc)) && RestoredOk(s.(db := Store(s.db, w), pc := pc))
  {
  }

  lemma ClearKeepsRule(s: State)
    requires s.pc.Clearing? && s.pc.todo != [] && ClearingKeeps(s) && OpOwned(s)
    requires s.pc.p.op.id in Store(s.db, s.pc.todo[0]).owned
    ensures Kept(s.host, Store(s.db, s.pc.todo[0]), s.timers, s.pc.p.op.id)
  {
  }

  lemma ClearKeepsClear(s: State)
    requires Inv(s) && OwnInv(s) && s.pc.Clearing?
    ensures ClearingKeeps(ClearStep(s, Done)) && OpOwned(ClearStep(s, Done))
  {
    assert s.pc.todo[0] in s.pc.todo;
  }

  lemma ClearOwn(s: State, outcome: Outcome)
    requires Inv(s) && OwnInv(s) && s.pc.Clearing?
    ensures OwnInv(ClearStep(s, outcome))
  {
    if !outcome.Done? {
      LeaveOwn(s, ClearStep(s, outcome));
    } else {
      var t := ClearStep(s, outcome);
      ClearKeepsAll(s);
      StoreShrinks(s, s.pc.todo[0], t.pc);
      ClearKeepsClear(s);
      ClearRest(s);
    }
  }

  // What of the invariant the settings do not touch.
  lemma ClearRest(s: State)
    requires Inv(s) && Disjoint(s) && RunningEffective(s) && s.pc.Clearing?
    ensures var t := ClearStep(s, Done); Disjoint(t) && RunningEffective(t) && OpClear(t) && AddingOk(t) && SavingOk(t)
  {
  }

  lemma ClearKeepsAll(s: State)
    requires Inv(s) && OwnInv(s) && s.pc.Clearing?
    ensures AllKept(ClearStep(s, Done))
  {
    var t, n := ClearStep(s, Done), s.pc.p.op.id;
    if n in t.db.owned {
      ClearKeepsRule(s);
    }
    StoreKeepsOthers(s, s.pc.todo, n);
    DbKeepsAll(s, t.db, n);
  }

  lemma StoreKeepsOthers(s: State, todo: seq<Write>, n: Native)
    requires todo != [] && Confined(todo, n)
    ensures forall m :: m != n ==>
              var db := Store(s.db, todo[0]);
              && (m in db.owned ==> m in s.db.owned) && (m in s.db.paused ==> m in db.paused)
              && (m in s.db.pending ==> m in db.pending && db.pending[m] == s.db.pending[m])
  {
    forall m | m != n
      ensures var db := Store(s.db, todo[0]);
              && (m in db.owned ==> m in s.db.owned) && (m in s.db.paused ==> m in db.paused)
              && (m in s.db.pending ==> m in db.pending && db.pending[m] == s.db.pending[m])
    {
      StoreConfined(s.db, todo[0], n, m);
    }
  }

  lemma UpdateOwn(s: State, outcome: Outcome)
    requires OwnInv(s) && (s.pc.UpdateCheck? || s.pc.UpdateSchedule?)
    ensures OwnInv(UpdateStep(s, outcome))
  {
    LeaveOwn(s, UpdateStep(s, outcome));
  }

  // ----- Another manager, or a left-over helper -----

  lemma NobodysHost(s: State, h: Host)
    requires Inv(s) && RunningEffective(s) && EditRecordsOk(s) && EditsNobodys(s, h)
    ensures RunningEffective(s.(host := h)) && EditRecordsOk(s.(host := h))
  {
    forall u | u in s.timers && s.timers[u].status.Running?
      ensures Effective(h, s.timers[u].script, s.timers[u].status.next)
    {
      forall i | 0 <= i < s.timers[u].status.next ensures Holds(h, s.timers[u].script[i]) {
        assert Holds(s.host, s.timers[u].script[i]) && Mentions(s.timers[u].script, s.timers[u].script[i].rule);
      }
    }
    forall m | m in s.db.pending && s.db.pending[m].op.kind.EditExternal? && s.timers[s.db.pending[m].timer].Live()
      ensures !NobodysRule(s, s.db.pending[m].op.dest)
    {
      assert s.timers[s.db.pending[m].timer].script[2].rule == s.db.pending[m].op.dest;
    }
  }

  lemma NobodysPc(s: State, h: Host)
    requires AllKept(s) && RestoredOk(s) && AddingOk(s) && SavingOk(s) && ClearingKeeps(s) && EditsNobodys(s, h)
    ensures var t := s.(host := h); AllKept(t) && RestoredOk(t) && AddingOk(t) && SavingOk(t) && ClearingKeeps(t)
  {
    forall n | n in s.db.owned ensures Kept(h, s.db, s.timers, n) {
      assert Kept(s.host, s.db, s.timers, n);
    }
  }

  lemma NobodysOwn(s: State, h: Host)
    requires Inv(s) && OwnInv(s) && EditsNobodys(s, h)
    ensures OwnInv(s.(host := h))
  {
    NobodysHost(s, h);
    NobodysPc(s, h);
  }

  lemma LeftoverOwn(s: State, i: nat, outcome: Outcome)
    requires Inv(s) && OwnInv(s) && LeftApart(s) && i < |s.left|
    ensures OwnInv(LeftStep(s, i, outcome))
  {
    var t := LeftStep(s, i, outcome);
    assert s.left[i] in s.left;
    NobodysOwn(s, t.host);
    SameOwn(s.(host := t.host), t);
  }

  // ----- Every step -----

  lemma HandlerOwn(s: State, outcome: Outcome, lag: nat)
    requires Inv(s) && OwnInv(s) && Tidy(s) && NoOrphans(HandlerStep(s, outcome, lag))
    ensures OwnInv(HandlerStep(s, outcome, lag))
  {
    match s.pc {
      case Idle =>
      case Arming(_, _) => ArmOwn(s, outcome, lag);
      case Applying(_, _, _, _, _) => ApplyOwn(s, outcome);
      case Verifying(_, _, _) => VerifyOwn(s, outcome);
      case Saving(_, _) => SaveOwn(s, outcome);
      case Settling(_) => SettleOwn(s, outcome);
      case Undoing(_, _) => UndoOwn(s, outcome);
      case Staging(_, _) => StageOwn(s, outcome);
      case Cancelling(_, _) => CancelOwn(s, outcome);
      case Unstaging(_) => UnstageOwn(s, outcome);
      case Reverifying(_) => ReverifyOwn(s, outcome);
      case Clearing(_, _) => ClearOwn(s, outcome);
      case UpdateCheck => UpdateOwn(s, outcome);
      case UpdateSchedule => UpdateOwn(s, outcome);
    }
  }

  // A step of the world or the start of a request.
  lemma EventOwn(s: State, e: Event, t: State)
    requires Inv(s) && OwnInv(s) && Tidy(s) && TidyEvent(s, e) && t == Next(s, e) && !e.Fire? && !e.Proceed?
    ensures OwnInv(t)
  {
    match e {
      case Tick(ms) => TickOwn(s, ms);
      case External(host) => NobodysOwn(s, host);
      case Begin(op, env) => if s.pc.Idle? && Accepts(s, op, env) { BeginOwn(s, op, env); }
      case Confirm(id, token, readable) => if s.pc.Idle? { ConfirmStarts(s, id, token, readable, t); ConfirmOwn(s, id, t); }
      case Leftover(i, outcome) => if i < |s.left| { LeftoverOwn(s, i, outcome); }
      case _ => OutsideOwn(s, e);
    }
  }

  lemma StepOwn(s: State, e: Event, t: State)
    requires Inv(s) && OwnInv(s) && Tidy(s) && TidyEvent(s, e) && t == Next(s, e) && Tidy(t)
    ensures OwnInv(t)
  {
    match e {
      case Fire(u, outcome) => FireOwnTo(s, u, outcome, t);
      case Proceed(outcome, lag) => HandlerOwn(s, outcome, lag);
      case _ => EventOwn(s, e, t);
    }
  }

  lemma FireOwnTo(s: State, u: nat, outcome: Outcome, t: State)
    requires Inv(s) && OwnInv(s) && Tidy(s) && t == Next(s, Fire(u, outcome)) && HeldUnbroken(t)
    ensures OwnInv(t)
  {
    if u in s.timers {
      FireOwn(s, u, outcome);
    }
  }

  // ----- The theorem -----

  // The first i events happen in tidy states and are tidy themselves.
  ghost predicate TidyRun(s0: State, events: seq<Event>, i: nat)
    requires i <= |events|
  {
    Tidy(At(s0, events, i)) && (i > 0 ==> TidyRun(s0, events, i - 1) && TidyEvent(At(s0, events, i - 1), events[i - 1]))
  }

  lemma TidyStep(s0: State, events: seq<Event>, i: nat)
    requires 0 < i <= |events| && TidyRun(s0, events, i)
    ensures TidyRun(s0, events, i - 1) && Tidy(At(s0, events, i - 1)) && Tidy(At(s0, events, i))
    ensures TidyEvent(At(s0, events, i - 1), events[i - 1])
  {
  }

  ghost predicate OwnedInPlace(s: State) {
    forall n :: n in s.db.owned ==> s.host.Everywhere(n) || n in s.db.paused
  }

  lemma InitialOwn(s: State)
    requires Initial(s) && OwnedInPlace(s)
    ensures OwnInv(s)
  {
  }

  lemma {:induction false} RunOwn(s0: State, events: seq<Event>, i: nat)
    requires Initial(s0) && OwnedInPlace(s0) && i <= |events| && TidyRun(s0, events, i)
    ensures OwnInv(At(s0, events, i))
  {
    if i == 0 {
      InitialOwn(s0);
    } else {
      TidyStep(s0, events, i);
      RunOwn(s0, events, i - 1);
      InitialHolds(s0);
      RunKeeps(s0, events, i - 1);
      StepOwn(At(s0, events, i - 1), events[i - 1], At(s0, events, i));
    }
  }

  // In every state of every tidy run, each owned rule is active in both layers,
  // or has pause metadata, or has a record whose timer is live, was stopped or
  // broke off, or an armed timer will re-add it -- or it is a block whose record
  // is there.
  lemma {:induction false} OwnedNeverLost(s0: State, events: seq<Event>, i: nat, n: Native)
    requires Initial(s0) && OwnedInPlace(s0) && i <= |events| && TidyRun(s0, events, i)
    requires n in At(s0, events, i).db.owned
    ensures Kept(At(s0, events, i).host, At(s0, events, i).db, At(s0, events, i).timers, n)
  {
    RunOwn(s0, events, i);
  }
}
