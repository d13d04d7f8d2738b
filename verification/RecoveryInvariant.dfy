/** What every step of the protocol keeps, in every run. */
module RecoveryInvariant {
  import opened Common
  import opened FirewallRules
  import opened FirewallHost
  import opened RecoveryProtocol

  // ----- The timer a handler has armed and not yet handed to a record -----

  predicate HoldsOp(pc: Pc) {
    pc.Arming? || pc.Applying? || pc.Verifying? || pc.Saving? || pc.Settling? || pc.Undoing?
  }

  function HeldUnit(pc: Pc): Option<nat> {
    match pc
    case Applying(_, timer, _, _, _) => timer
    case Verifying(_, u, _) => Some(u)
    case Saving(_, u) => Some(u)
    case _ => None
  }

  predicate InConfirmation(pc: Pc) {
    pc.Staging? || pc.Cancelling? || pc.Unstaging? || pc.Reverifying? || pc.Clearing?
  }

  // ----- The invariant, clause by clause -----

  ghost predicate TimersOk(s: State) {
    forall u :: u in s.timers ==>
      && u < s.nextUnit
      && s.timers[u].fireAt < s.timers[u].deadline
      && (s.timers[u].status.Waiting? || s.timers[u].status.Stopped? || s.timers[u].fireAt <= s.now)
      && (s.timers[u].status.Running? ==> s.timers[u].status.next < |s.timers[u].script|)
      && (s.timers[u].Live() ==> s.now < s.timers[u].deadline)
  }

  // The armed timer carries the inverse of the operation, has not been
  // stopped, and cannot start while the handler is still inside its budget.
  ghost predicate Covers(s: State, u: nat, op: Op) {
    u in s.timers && s.timers[u].script == UndoScript(op) && !s.timers[u].status.Stopped?
  }

  ghost predicate HeldOk(s: State) {
    && (HoldsOp(s.pc) ==> WellFormed(s.pc.op))
    && (s.pc.Arming? ==> s.pc.op.kind.IsArmed() && s.pc.started <= s.now)
    && (s.pc.Applying? ==> (s.pc.timer.Some? <==> s.pc.op.kind.IsArmed()))
    && (s.pc.Verifying? || s.pc.Saving? ==> s.pc.op.kind.IsArmed())
    && (s.pc.Settling? || s.pc.Undoing? ==> !s.pc.op.kind.IsArmed())
    && (HeldUnit(s.pc).Some? ==> Covers(s, HeldUnit(s.pc).value, s.pc.op))
    && (s.pc.Applying? && s.pc.timer.Some? ==>
          s.pc.started + HANDLER_BUDGET < s.timers[s.pc.timer.value].fireAt)
    && (s.pc.Verifying? ==> s.pc.started + HANDLER_BUDGET < s.timers[s.pc.unit].fireAt)
  }

  ghost predicate RecordOk(s: State, n: Native, p: Pending) {
    && p.op.id == n && WellFormed(p.op) && p.op.kind.IsArmed()
    && p.timer in s.timers
    && s.timers[p.timer].script == UndoScript(p.op)
    && s.timers[p.timer].deadline == p.deadline
    && p.token < s.nextToken
  }

  ghost predicate RecordsOk(s: State) {
    && (forall n :: n in s.db.pending ==> RecordOk(s, n, s.db.pending[n]))
    && (forall m, n :: m in s.db.pending && n in s.db.pending && m != n ==>
          s.db.pending[m].timer != s.db.pending[n].timer && s.db.pending[m].token != s.db.pending[n].token)
    && (forall n :: n in s.db.pending ==> HeldUnit(s.pc) != Some(s.db.pending[n].timer))
  }

  predicate StagedIn(db: Settings, op: Op) {
    match op.kind
    case PauseAllow | PauseDrop => op.id in db.paused && db.paused[op.id] == op.id
    case AddDrop => op.id in db.owned
    case _ => true
  }

  predicate IsStopped(s: State, u: nat) {
    u in s.timers && s.timers[u].status.Stopped?
  }

  // The timer was stopped, or its script has begun.
  predicate NotWaiting(s: State, u: nat) {
    u in s.timers && !s.timers[u].status.Waiting?
  }

  // A confirmation acts on the stored record; the record names what was seen.
  ghost predicate ConfirmOk(s: State) {
    && (InConfirmation(s.pc) && !s.pc.Clearing? ==>
          s.pc.p.op.id in s.db.pending && s.db.pending[s.pc.p.op.id] == s.pc.p)
    && (s.pc.Staging? || s.pc.Cancelling? ==> Announced(s.pc.p, s.pc.seen))
    && (s.pc.Cancelling? || s.pc.Reverifying? ==> StagedIn(s.db, s.pc.p.op))
    && (s.pc.Reverifying? || s.pc.Clearing? ==> NotWaiting(s, s.pc.p.timer))
    && (s.pc.Clearing? ==> s.pc.todo != [])
  }

  // What a left-over helper changes.
  predicate Sound(l: Left) {
    && WellFormed(l.op) && (l.op.id.OpenPort? || IsDrop(l.op.id))
    && (l.timer.Some? <==> l.op.kind.IsArmed())
    && (if l.op.kind.IsArmed() then l.change in Changes(l.op) else l.change.rule == l.op.id)
  }

  // The timer of its operation has not been stopped and never will be: no
  // record names it.
  ghost predicate LeftOk(s: State) {
    forall i :: 0 <= i < |s.left| ==>
      var l := s.left[i];
      && Sound(l)
      && (l.timer.Some? ==> Covers(s, l.timer.value, l.op) && HeldUnit(s.pc) != l.timer)
      && forall n :: n in s.db.pending ==> l.timer != Some(s.db.pending[n].timer)
  }

  ghost predicate Inv(s: State) {
    TimersOk(s) && HeldOk(s) && RecordsOk(s) && ConfirmOk(s) && LeftOk(s)
  }

  // ----- Environment steps -----

  lemma FireMovesStatus(s: State, u: nat, outcome: Outcome)
    requires TimersOk(s) && u in s.timers
    ensures TimersOk(FireStep(s, u, outcome))
    ensures StatusMoves(s, FireStep(s, u, outcome))
    ensures FireStep(s, u, outcome).db == s.db && FireStep(s, u, outcome).pc == s.pc
    ensures FireStep(s, u, outcome).nextToken == s.nextToken && FireStep(s, u, outcome).left == s.left
  {
  }

  // The same timers with the same scripts; being stopped neither begins nor ends.
  ghost predicate StatusMoves(s: State, t: State) {
    && t.timers.Keys == s.timers.Keys
    && forall u :: u in s.timers ==>
         && t.timers[u] == s.timers[u].(status := t.timers[u].status)
         && (t.timers[u].status.Stopped? <==> s.timers[u].status.Stopped?)
         && (t.timers[u].status.Waiting? ==> s.timers[u].status.Waiting?)
  }

  lemma StatusMovesKeeps(s: State, t: State)
    requires Inv(s) && TimersOk(t) && StatusMoves(s, t) && t.db == s.db && t.pc == s.pc && t.left == s.left
    requires t.nextToken == s.nextToken && t.now == s.now
    ensures Inv(t)
  {
  }

  lemma FireKeeps(s: State, u: nat, outcome: Outcome)
    requires Inv(s) && u in s.timers
    ensures Inv(FireStep(s, u, outcome))
  {
    FireMovesStatus(s, u, outcome);
    StatusMovesKeeps(s, FireStep(s, u, outcome));
  }

  lemma TickKeeps(s: State, ms: nat)
    requires Inv(s)
    ensures Inv(Next(s, Tick(ms)))
  {
  }

  lemma OutsideKeeps(s: State, e: Event)
    requires Inv(s) && (e.External? || e.StageUpdate? || e.LockForUpdate? || e.RestoreBinary?)
    ensures Inv(Next(s, e))
  {
    OutsideTouches(s, e);
    SameKeeps(s, Next(s, e));
  }

  lemma OutsideTouches(s: State, e: Event)
    requires e.External? || e.StageUpdate? || e.LockForUpdate? || e.RestoreBinary?
    ensures var t := Next(s, e);
            && t.timers == s.timers && t.nextUnit == s.nextUnit && t.nextToken == s.nextToken
            && t.db == s.db && t.now == s.now && t.left == s.left
            && (t.pc == s.pc || (s.pc.Idle? && t.pc == UpdateCheck))
  {
  }

  // Nothing the invariant speaks of has changed.
  lemma SameKeeps(s: State, t: State)
    requires Inv(s) && t.timers == s.timers && t.nextUnit == s.nextUnit && t.nextToken == s.nextToken
    requires t.db == s.db && t.now == s.now && t.left == s.left
    requires t.pc == s.pc || (s.pc.Idle? && t.pc == UpdateCheck)
    ensures Inv(t)
  {
    SameTimers(s, t);
    SameRecords(s, t);
  }

  lemma SameTimers(s: State, t: State)
    requires TimersOk(s) && HeldOk(s) && ConfirmOk(s)
    requires t.timers == s.timers && t.nextUnit == s.nextUnit && t.db == s.db && t.now == s.now
    requires t.pc == s.pc || (s.pc.Idle? && t.pc == UpdateCheck)
    ensures TimersOk(t) && HeldOk(t) && ConfirmOk(t)
  {
  }

  lemma SameRecords(s: State, t: State)
    requires RecordsOk(s) && LeftOk(s)
    requires t.timers == s.timers && t.nextToken == s.nextToken && t.db == s.db && t.left == s.left
    requires t.pc == s.pc || (s.pc.Idle? && t.pc == UpdateCheck)
    ensures RecordsOk(t) && LeftOk(t)
  {
  }

  // ----- Helpers that are left over -----

  // At most one helper is left over, that of the handler.
  lemma DetachedIsSound(s: State)
    requires HeldOk(s)
    ensures Detached(s) == s.left ||
            ((s.pc.Undoing? || (s.pc.Applying? && s.pc.step < |Changes(s.pc.op)|)) &&
             var l := Left(s.pc.op, HeldUnit(s.pc), if s.pc.Applying? then Changes(s.pc.op)[s.pc.step] else Change(false, s.pc.op.id),
                           Some(s.pc.phase));
             Detached(s) == s.left + [l] && Sound(l))
  {
  }

  lemma LeavingKeepsLeft(s: State)
    requires HeldOk(s) && RecordsOk(s) && LeftOk(s)
    ensures LeftOk(LeaveHelper(s))
  {
    DetachedIsSound(s);
  }

  lemma LeavingKeeps(s: State)
    requires Inv(s)
    ensures Inv(LeaveHelper(s))
  {
    LeavingKeepsLeft(s);
    IdleKeepsRest(s, Detached(s));
  }

  lemma IdleKeepsRest(s: State, left: seq<Left>)
    requires TimersOk(s) && RecordsOk(s)
    ensures var t := s.(pc := Idle, left := left); TimersOk(t) && HeldOk(t) && RecordsOk(t) && ConfirmOk(t)
  {
  }

  lemma LeftoverKeeps(s: State, i: nat, outcome: Outcome)
    requires Inv(s) && i < |s.left|
    ensures Inv(LeftStep(s, i, outcome))
  {
  }

  // An operation begins, or a confirmation with the stored record.
  ghost predicate Starts(s: State, pc: Pc) {
    || (pc.Arming? && WellFormed(pc.op) && pc.op.kind.IsArmed() && pc.started <= s.now)
    || (pc.Applying? && WellFormed(pc.op) && !pc.op.kind.IsArmed() && pc.timer.None?)
    || (pc.Staging? && pc.p.op.id in s.db.pending && s.db.pending[pc.p.op.id] == pc.p && Announced(pc.p, pc.seen))
  }

  lemma RequestStarts(s: State, e: Event)
    requires e.Begin? || e.Confirm?
    ensures var t := Next(s, e); t == s || (t == s.(pc := t.pc) && s.pc.Idle? && Starts(s, t.pc))
  {
  }

  lemma StartKeeps(s: State, pc: Pc)
    requires Inv(s) && s.pc.Idle? && Starts(s, pc)
    ensures Inv(s.(pc := pc))
  {
  }

  lemma RequestKeeps(s: State, e: Event)
    requires Inv(s) && (e.Begin? || e.Confirm?)
    ensures Inv(Next(s, e))
  {
    var t := Next(s, e);
    RequestStarts(s, e);
    if t != s {
      StartKeeps(s, t.pc);
    }
  }

  // ----- Handler steps -----

  lemma ArmKeepsRecords(s: State, timer: Timer, pc: Pc)
    requires TimersOk(s) && RecordsOk(s) && (HeldUnit(pc).None? || HeldUnit(pc) == Some(s.nextUnit))
    ensures RecordsOk(s.(timers := s.timers[s.nextUnit := timer], nextUnit := s.nextUnit + 1, pc := pc))
  {
  }

  lemma ArmKeeps(s: State, outcome: Outcome, lag: nat)
    requires Inv(s) && s.pc.Arming?
    ensures Inv(ArmStep(s, outcome, lag))
  {
    var t := ArmStep(s, outcome, lag);
    ArmKeepsTimers(s, outcome, lag);
    ArmKeepsLeft(s, outcome, lag);
    if s.nextUnit in t.timers {
      ArmKeepsRecords(s, t.timers[s.nextUnit], t.pc);
    }
  }

  lemma ArmKeepsTimers(s: State, outcome: Outcome, lag: nat)
    requires TimersOk(s) && HeldOk(s) && s.pc.Arming?
    ensures TimersOk(ArmStep(s, outcome, lag)) && HeldOk(ArmStep(s, outcome, lag))
  {
  }

  lemma ArmKeepsLeft(s: State, outcome: Outcome, lag: nat)
    requires TimersOk(s) && LeftOk(s) && s.pc.Arming?
    ensures LeftOk(ArmStep(s, outcome, lag))
  {
  }

  // A step that edits the host and moves on within the same operation.
  lemma MoveOnKeeps(s: State, host: Host, pc: Pc)
    requires Inv(s) && HeldOk(s.(host := host, pc := pc))
    requires !InConfirmation(pc) && (HeldUnit(pc).None? || HeldUnit(pc) == HeldUnit(s.pc))
    ensures Inv(s.(host := host, pc := pc))
  {
  }

  lemma ApplyKeeps(s: State, outcome: Outcome)
    requires Inv(s) && s.pc.Applying?
    ensures Inv(ApplyStep(s, outcome))
  {
    var t := ApplyStep(s, outcome);
    if Expired(s, s.pc.started) || s.pc.step >= |Changes(s.pc.op)| {
      LeavingKeeps(s);
    } else {
      assert t == s.(host := t.host, pc := t.pc);
      MoveOnKeeps(s, t.host, t.pc);
    }
  }

  lemma VerifyKeeps(s: State, outcome: Outcome)
    requires Inv(s) && s.pc.Verifying?
    ensures Inv(VerifyStep(s, outcome))
  {
    var t := VerifyStep(s, outcome);
    VerifyKeepsHeld(s, outcome);
    assert t == s.(host := s.host, pc := t.pc);
    MoveOnKeeps(s, s.host, t.pc);
  }

  lemma VerifyKeepsHeld(s: State, outcome: Outcome)
    requires HeldOk(s) && s.pc.Verifying?
    ensures var t := VerifyStep(s, outcome); HeldOk(t) && !InConfirmation(t.pc)
    ensures var t := VerifyStep(s, outcome); HeldUnit(t.pc).None? || HeldUnit(t.pc) == HeldUnit(s.pc)
  {
  }

  lemma SaveKeeps(s: State, outcome: Outcome)
    requires Inv(s) && s.pc.Saving?
    ensures Inv(SaveStep(s, outcome))
  {
    SaveKeepsRecords(s, outcome);
    SaveKeepsLeft(s, outcome);
  }

  lemma SaveKeepsRecords(s: State, outcome: Outcome)
    requires TimersOk(s) && HeldOk(s) && RecordsOk(s) && s.pc.Saving?
    ensures TimersOk(SaveStep(s, outcome)) && RecordsOk(SaveStep(s, outcome))
  {
  }

  // No left-over helper has the timer the handler holds.
  lemma SaveKeepsLeft(s: State, outcome: Outcome)
    requires LeftOk(s) && s.pc.Saving?
    ensures LeftOk(SaveStep(s, outcome))
  {
  }

  lemma SettleKeeps(s: State, outcome: Outcome)
    requires Inv(s) && s.pc.Settling?
    ensures Inv(SettleStep(s, outcome))
  {
    var t := SettleStep(s, outcome);
    SettleKeepsHeld(s, outcome);
    SettleKeepsRecords(s, t);
  }

  lemma SettleKeepsHeld(s: State, outcome: Outcome)
    requires TimersOk(s) && HeldOk(s) && s.pc.Settling?
    ensures var t := SettleStep(s, outcome);
            && TimersOk(t) && HeldOk(t) && ConfirmOk(t) && HeldUnit(t.pc).None?
            && t.timers == s.timers && t.nextToken == s.nextToken && t.db.pending == s.db.pending && t.left == s.left
  {
  }

  lemma SettleKeepsRecords(s: State, t: State)
    requires RecordsOk(s) && LeftOk(s) && HeldUnit(s.pc).None? && HeldUnit(t.pc).None?
    requires t.timers == s.timers && t.nextToken == s.nextToken && t.db.pending == s.db.pending && t.left == s.left
    ensures RecordsOk(t) && LeftOk(t)
  {
  }

  lemma UndoKeeps(s: State, outcome: Outcome)
    requires Inv(s) && s.pc.Undoing?
    ensures Inv(UndoStep(s, outcome))
  {
    var t := UndoStep(s, outcome);
    assert t == s.(host := t.host, pc := t.pc);
    MoveOnKeeps(s, t.host, t.pc);
  }

  // Staging and unstaging leave the pending records alone.
  lemma StageKeepsRecords(db: Settings, op: Op)
    ensures Stage(db, op).pending == db.pending && StagedIn(Stage(db, op), op)
    ensures Unstage(db, op).pending == db.pending
  {
  }

  lemma SettingsKeep(s: State, db: Settings, pc: Pc)
    requires Inv(s) && db.pending == s.db.pending && HeldUnit(pc).None? && !HoldsOp(pc)
    requires ConfirmOk(s.(db := db, pc := pc))
    ensures Inv(s.(db := db, pc := pc))
  {
  }

  lemma StageKeeps(s: State, outcome: Outcome)
    requires Inv(s) && s.pc.Staging?
    ensures Inv(StageStep(s, outcome))
  {
    var t := StageStep(s, outcome);
    StageKeepsRecords(s.db, s.pc.p.op);
    StageConfirms(s, outcome);
    assert t == s.(db := t.db, pc := t.pc);
    SettingsKeep(s, t.db, t.pc);
  }

  lemma StageConfirms(s: State, outcome: Outcome)
    requires ConfirmOk(s) && s.pc.Staging?
    ensures ConfirmOk(StageStep(s, outcome))
  {
    StageKeepsRecords(s.db, s.pc.p.op);
  }

  lemma UnstageKeeps(s: State, outcome: Outcome)
    requires Inv(s) && s.pc.Unstaging?
    ensures Inv(UnstageStep(s, outcome))
  {
    var t := UnstageStep(s, outcome);
    StageKeepsRecords(s.db, s.pc.p.op);
    SettingsKeep(s, t.db, t.pc);
  }

  lemma StopKeepsRecords(s: State, u: nat)
    requires Inv(s) && u in s.timers && s.timers[u].status.Waiting? && HeldUnit(s.pc).None?
    ensures var t := s.(timers := s.timers[u := s.timers[u].(status := Stopped)]);
            TimersOk(t) && RecordsOk(t)
  {
  }

  lemma StopKeepsLeft(s: State, u: nat, n: Native)
    requires Inv(s) && n in s.db.pending && s.db.pending[n].timer == u && HeldUnit(s.pc).None?
    ensures LeftOk(s.(timers := s.timers[u := Stop(s.timers[u])]))
  {
  }

  lemma StopKeeps(s: State)
    requires Inv(s) && s.pc.Cancelling? && s.timers[s.pc.p.timer].status.Waiting?
    ensures Inv(CancelStep(s, Done))
  {
    StopKeepsRecords(s, s.pc.p.timer);
    StopKeepsLeft(s, s.pc.p.timer, s.pc.p.op.id);
  }

  lemma CancelMovesOn(s: State, outcome: Outcome)
    requires s.pc.Cancelling? && s.pc.p.timer in s.timers
    requires !(outcome.Done? && s.timers[s.pc.p.timer].status.Waiting?)
    ensures var t := CancelStep(s, outcome);
            && t == s.(db := s.db, pc := t.pc)
            && (t.pc.Idle? || t.pc == Unstaging(s.pc.p) || (t.pc == Reverifying(s.pc.p) && NotWaiting(s, s.pc.p.timer)))
  {
    assert s.timers[s.pc.p.timer := s.timers[s.pc.p.timer]] == s.timers;
  }

  lemma CancelKeeps(s: State, outcome: Outcome)
    requires Inv(s) && s.pc.Cancelling?
    ensures Inv(CancelStep(s, outcome))
  {
    assert RecordOk(s, s.pc.p.op.id, s.pc.p);
    if outcome.Done? && s.timers[s.pc.p.timer].status.Waiting? {
      StopKeeps(s);
    } else {
      CancelMovesOn(s, outcome);
      SettingsKeep(s, s.db, CancelStep(s, outcome).pc);
    }
  }

  lemma ReverifyKeeps(s: State, outcome: Outcome)
    requires Inv(s) && s.pc.Reverifying?
    ensures Inv(ReverifyStep(s, outcome))
  {
  }

  // Records are at most dropped.
  lemma StoreKeepsRecords(s: State, w: Write, pc: Pc)
    requires RecordsOk(s) && HeldUnit(pc).None?
    ensures RecordsOk(s.(db := Store(s.db, w), pc := pc))
  {
  }

  lemma StoreKeepsLeft(s: State, w: Write, pc: Pc)
    requires LeftOk(s) && HeldUnit(pc).None?
    ensures LeftOk(s.(db := Store(s.db, w), pc := pc))
  {
  }

  lemma StoreKeeps(s: State, w: Write, pc: Pc)
    requires Inv(s) && (pc.Idle? || pc.Clearing?) && ConfirmOk(s.(db := Store(s.db, w), pc := pc))
    ensures Inv(s.(db := Store(s.db, w), pc := pc))
  {
    StoreKeepsRecords(s, w, pc);
    StoreKeepsLeft(s, w, pc);
  }

  lemma ClearKeeps(s: State, outcome: Outcome)
    requires Inv(s) && s.pc.Clearing?
    ensures Inv(ClearStep(s, outcome))
  {
    if outcome.Done? {
      StoreKeeps(s, s.pc.todo[0], ClearStep(s, outcome).pc);
    } else {
      SettingsKeep(s, s.db, Idle);
    }
  }

  lemma UpdateKeeps(s: State, outcome: Outcome)
    requires Inv(s) && (s.pc.UpdateCheck? || s.pc.UpdateSchedule?)
    ensures Inv(UpdateStep(s, outcome))
  {
  }

  lemma HandlerKeeps(s: State, outcome: Outcome, lag: nat)
    requires Inv(s)
    ensures Inv(HandlerStep(s, outcome, lag))
  {
    match s.pc {
      case Idle =>
      case Arming(_, _) => ArmKeeps(s, outcome, lag);
      case Applying(_, _, _, _, _) => ApplyKeeps(s, outcome);
      case Verifying(_, _, _) => VerifyKeeps(s, outcome);
      case Saving(_, _) => SaveKeeps(s, outcome);
      case Settling(_) => SettleKeeps(s, outcome);
      case Undoing(_, _) => UndoKeeps(s, outcome);
      case Staging(_, _) => StageKeeps(s, outcome);
      case Cancelling(_, _) => CancelKeeps(s, outcome);
      case Unstaging(_) => UnstageKeeps(s, outcome);
      case Reverifying(_) => ReverifyKeeps(s, outcome);
      case Clearing(_, _) => ClearKeeps(s, outcome);
      case UpdateCheck => UpdateKeeps(s, outcome);
      case UpdateSchedule => UpdateKeeps(s, outcome);
    }
  }

  lemma StepKeeps(s: State, e: Event)
    requires Inv(s)
    ensures Inv(Next(s, e))
  {
    match e {
      case Tick(ms) => TickKeeps(s, ms);
      case Fire(u, outcome) => if u in s.timers { FireKeeps(s, u, outcome); }
      case External(_) => OutsideKeeps(s, e);
      case Crash => LeavingKeeps(s);
      case Abandon => LeavingKeeps(s);
      case Leftover(i, outcome) => if i < |s.left| { LeftoverKeeps(s, i, outcome); }
      case Begin(_, _) => RequestKeeps(s, e);
      case Confirm(_, _, _) => RequestKeeps(s, e);
      case Proceed(outcome, lag) => HandlerKeeps(s, outcome, lag);
      case StageUpdate => OutsideKeeps(s, e);
      case LockForUpdate => OutsideKeeps(s, e);
      case RestoreBinary(_) => OutsideKeeps(s, e);
    }
  }

  lemma {:induction false} RunKeeps(s: State, events: seq<Event>, i: nat)
    requires Inv(s) && i <= |events|
    ensures Inv(At(s, events, i))
  {
    if i > 0 {
      RunKeeps(s, events, i - 1);
      StepKeeps(At(s, events, i - 1), events[i - 1]);
    }
  }

  lemma InitialHolds(s: State)
    requires Initial(s)
    ensures Inv(s)
  {
  }
}
