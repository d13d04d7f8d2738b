/**
 An owned rule is never lost.

 The runs considered have no operation that dies between arming and saving: no
 live timer without a record, and no script that breaks off while its handler
 has yet to store the record.  Nor have they an external edit of a rule that a
 live timer is about to change, a confirmation of a block whose undoing has
 begun, or another manager or left-over helper at work on a rule that the panel
 owns, that a live timer is about to change or that the request in progress is
 about.  Commands of recovery scripts may fail like everything else.
 */
module RecoveryOwned {
  import opened Common
  import opened FirewallRules
  import opened FirewallHost
  import opened RecoveryProtocol
  import opened RecoveryInvariant
  import opened RecoveryRestore

  // ----- What a script speaks of -----

  predicate Mentions(script: seq<Cmd>, n: Native) {
    exists i :: 0 <= i < |script| && script[i].rule == n
  }

  predicate Readds(script: seq<Cmd>, n: Native) {
    exists i :: 0 <= i < |script| && script[i].rule == n && script[i].present
  }

  lemma UndoMentions(op: Op, n: Native)
    requires WellFormed(op)
    ensures Mentions(UndoScript(op), n) ==> n == op.id || n == op.dest
    ensures Readds(UndoScript(op), n) ==> n == op.id && !op.kind.AddDrop?
    ensures op.kind.IsArmed() && n == op.id ==> Mentions(UndoScript(op), n)
    ensures op.kind.IsArmed() && !op.kind.AddDrop? && n == op.id ==> Readds(UndoScript(op), n)
  {
    var script := UndoScript(op);
    if op.kind.IsArmed() && n == op.id {
      assert script[0].rule == n && (op.kind.AddDrop? || script[0].present);
    }
  }

  lemma ReaddsMentions(script: seq<Cmd>, n: Native)
    requires Readds(script, n)
    ensures Mentions(script, n)
  {
  }

  // ----- The goal -----

  // The record of the rule is that of a block whose ownership was staged, or
  // its timer has not run to its end: it is still to undo the change; or it was
  // stopped by a confirmation, which is at work or has died and left the rule as
  // it was (RecoveryHeld); or its script broke off (RecoveryBroken).
  predicate HeldByRecord(db: Settings, timers: map<nat, Timer>, n: Native) {
    n in db.pending &&
    var u := db.pending[n].timer;
    db.pending[n].op.kind.AddDrop? || (u in timers && !timers[u].status.Finished?)
  }

  ghost predicate Kept(h: Host, db: Settings, timers: map<nat, Timer>, n: Native) {
    || h.Everywhere(n)
    || n in db.paused
    || HeldByRecord(db, timers, n)
    || exists u :: u in timers && timers[u].Live() && Readds(timers[u].script, n)
  }

  ghost predicate AllKept(s: State) {
    forall n :: n in s.db.owned ==> Kept(s.host, s.db, s.timers, n)
  }

  // ----- The hypotheses -----

  ghost predicate NoOrphans(s: State) {
    forall u :: u in s.timers && s.timers[u].Live() ==>
      HeldUnit(s.pc) == Some(u) || exists n :: n in s.db.pending && s.db.pending[n].timer == u
  }

  // The script of the timer that a handler still holds has not broken off.
  predicate HeldUnbroken(s: State) {
    forall u :: u in s.timers && HeldUnit(s.pc) == Some(u) ==> !s.timers[u].status.Broken?
  }

  predicate Untouched(s: State, n: Native) {
    forall u :: u in s.timers && s.timers[u].Live() ==> !Mentions(s.timers[u].script, n)
  }

  // The panel does not own the rule n, and no live timer and no request in
  // progress speaks of it.
  predicate NobodysRule(s: State, n: Native) {
    && n !in s.db.owned && Untouched(s, n)
    && (HoldsOp(s.pc) ==> n != s.pc.op.id && n != s.pc.op.dest)
    && (InConfirmation(s.pc) ==> n != s.pc.p.op.id)
  }

  ghost predicate EditsNobodys(s: State, h: Host) {
    && h.zones == s.host.zones
    && forall n :: !NobodysRule(s, n) ==>
         (n in h.runtime <==> n in s.host.runtime) && (n in h.permanent <==> n in s.host.permanent)
  }

  ghost predicate TidyEvent(s: State, e: Event) {
    && (e.External? ==> EditsNobodys(s, e.host))
    && (e.Begin? && e.op.kind.EditExternal? ==> Untouched(s, e.op.id))
  }

  predicate LeftApart(s: State) {
    forall l :: l in s.left && l.phase.Some? ==> NobodysRule(s, l.change.rule)
  }

  // A block is confirmed with its timer stopped before the script began.
  predicate BlockStopped(s: State) {
    (s.pc.Reverifying? || s.pc.Clearing?) && s.pc.p.op.kind.AddDrop? ==> IsStopped(s, s.pc.p.timer)
  }

  ghost predicate Tidy(s: State) {
    NoOrphans(s) && HeldUnbroken(s) && LeftApart(s) && BlockStopped(s)
  }

  // ----- The supporting invariant -----

  predicate Disjoint(s: State) {
    forall u, v :: u in s.timers && v in s.timers && u != v && s.timers[u].Live() && s.timers[v].Live() ==>
      forall i :: 0 <= i < |s.timers[u].script| ==> !Mentions(s.timers[v].script, s.timers[u].script[i].rule)
  }

  predicate RunningEffective(s: State) {
    forall u :: u in s.timers && s.timers[u].status.Running? ==>
      s.timers[u].status.next <= |s.timers[u].script| &&
      Effective(s.host, s.timers[u].script, s.timers[u].status.next)
  }

  predicate PastCheck(pc: Pc) {
    pc.Settling? || pc.Undoing? || (pc.Applying? && !pc.phase.Check?)
  }

  // No live timer but the handler's own speaks of the rules it works on.
  predicate OthersSilent(s: State)
    requires HoldsOp(s.pc)
  {
    forall u :: u in s.timers && s.timers[u].Live() && HeldUnit(s.pc) != Some(u) ==>
      !Mentions(s.timers[u].script, s.pc.op.id) && !Mentions(s.timers[u].script, s.pc.op.dest)
  }

  predicate OpClear(s: State) {
    HoldsOp(s.pc) ==>
      && !PendingBlocks(s, s.pc.op.id)
      && (!s.pc.op.kind.AddAllow? || PastCheck(s.pc) ==> OthersSilent(s))
  }

  // The destination of an edit that may yet be undone is in place and not owned.
  predicate EditRecordsOk(s: State) {
    forall n :: n in s.db.pending && s.db.pending[n].op.kind.EditExternal? ==>
      var p := s.db.pending[n];
      && (s.now < p.deadline ==> n !in s.db.owned)
      && (p.timer in s.timers && s.timers[p.timer].Live() ==>
            p.op.dest !in s.db.owned && p.op.dest in s.host.permanent && p.op.dest.OpenPort? && p.op.dest.zone in s.host.zones)
  }

  predicate OpOwned(s: State) {
    && (HoldsOp(s.pc) ==>
          match s.pc.op.kind
          case AddAllow | AddDrop => true
          case EditExternal => s.pc.op.id !in s.db.owned && s.pc.op.dest !in s.db.owned &&
                               s.pc.op.dest.OpenPort? && s.pc.op.dest.zone in s.host.zones
          case _ => s.pc.op.id in s.db.owned)
    && (InConfirmation(s.pc) && s.pc.p.op.kind.EditExternal? ==> s.pc.p.op.id !in s.db.owned)
  }

  predicate IsAdding(pc: Pc) {
    HoldsOp(pc) &&
    (pc.op.kind.AddDrop? || pc.op.kind.ResumeAllow? || pc.op.kind.ResumeDrop? || (pc.op.kind.AddAllow? && PastCheck(pc)))
  }

  // A rule being added that is owned already is held by its metadata.
  predicate AddingOk(s: State) {
    && (IsAdding(s.pc) && s.pc.op.id in s.db.owned ==>
          s.pc.op.id in s.db.paused || HeldByRecord(s.db, s.timers, s.pc.op.id))
    && (s.pc.Settling? ==> s.host.Everywhere(s.pc.op.id))
    && (s.pc.Applying? && !s.pc.op.kind.IsArmed() && s.pc.phase.PermanentStep? ==> s.pc.op.id in s.host.runtime)
    && (s.pc.Saving? && s.pc.op.kind.EditExternal? && s.pc.unit in s.timers && s.timers[s.pc.unit].Live() ==>
          s.pc.op.dest in s.host.permanent)
  }

  // A removal whose timer has run to its end before its record is stored.
  predicate SavingOk(s: State) {
    s.pc.Saving? && s.pc.unit in s.timers && s.timers[s.pc.unit].status.Finished? ==>
      s.pc.op.kind.AddDrop? || s.host.Everywhere(s.pc.op.id)
  }

  // While a record blocks its rule, or is being confirmed, a timer that has run
  // to its end leaves an owned rule in place.
  predicate RestoredOk(s: State) {
    forall n :: n in s.db.pending && n in s.db.owned ==>
      var p := s.db.pending[n];
      !p.op.kind.AddDrop? && InHand(s, p) && p.timer in s.timers && s.timers[p.timer].status.Finished? ==> s.host.Everywhere(n)
  }

  predicate InHand(s: State, p: Pending) {
    s.now < p.deadline || (InConfirmation(s.pc) && s.pc.p == p)
  }

  // The settings about recovery that are left to write concern only n.
  predicate Confined(todo: seq<Write>, n: Native) {
    forall w :: w in todo ==> w.SetNote? || w.SetPurpose? || w.rule == n
  }

  predicate ClearingKeeps(s: State) {
    s.pc.Clearing? ==>
      var n, todo := s.pc.p.op.id, s.pc.todo;
      Confined(todo, n) &&
      match s.pc.p.op.kind
      case RemoveAllow | RemoveDrop => n !in s.db.owned || (|todo| == 5 && todo[0] == Disown(n))
      case PauseAllow | PauseDrop => todo == [DropPending(n)] && n in s.db.paused
      case AddDrop => todo == [DropPending(n)] && s.host.Everywhere(n) && n in s.db.pending && s.db.pending[n] == s.pc.p
      case EditExternal => true
      case _ => false
  }

  ghost predicate OwnInv(s: State) {
    && Disjoint(s) && RunningEffective(s) && OpClear(s) && EditRecordsOk(s)
    && OpOwned(s) && AddingOk(s) && SavingOk(s) && RestoredOk(s) && ClearingKeeps(s) && AllKept(s)
  }

  // ----- Which timers can speak of a rule -----

  // A live timer that no handler holds belongs to the record of the rule it
  // re-adds, or to an edit whose destination the rule is.
  lemma LiveIsRecorded(s: State, u: nat, n: Native)
    requires Inv(s) && NoOrphans(s) && u in s.timers && s.timers[u].Live() && HeldUnit(s.pc) != Some(u)
    requires Mentions(s.timers[u].script, n)
    ensures (n in s.db.pending && s.db.pending[n].timer == u) ||
            exists m :: m in s.db.pending && s.db.pending[m].timer == u && s.db.pending[m].op.kind.EditExternal? &&
                        s.db.pending[m].op.dest == n
  {
    var m :| m in s.db.pending && s.db.pending[m].timer == u;
    UndoMentions(s.db.pending[m].op, n);
  }

  // Before its deadline a record blocks its rule; an edit's destination is
  // neither owned nor absent.
  lemma UnblockedIsSilent(s: State, u: nat, n: Native)
    requires Inv(s) && NoOrphans(s) && EditRecordsOk(s)
    requires u in s.timers && s.timers[u].Live() && HeldUnit(s.pc) != Some(u)
    requires !PendingBlocks(s, n)
    requires n in s.db.owned || !n.OpenPort? || (s.host.Nowhere(n) && n.zone in s.host.zones)
    ensures !Mentions(s.timers[u].script, n)
  {
    if Mentions(s.timers[u].script, n) {
      LiveIsRecorded(s, u, n);
    }
  }
}
