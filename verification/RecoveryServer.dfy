/**
 The firewall handlers as they run: fields change one step at a time, and
 between any two steps the world may move on or the panel may crash.

 Each handler is shown to follow a run of the protocol, so everything proved
 about runs holds for it, and its reply is tied to the state it leaves.
 */
module RecoveryServer {
  import opened Common
  import opened FirewallRules
  import opened FirewallText
  import opened FirewallHost
  import opened RecoveryProtocol
  import opened RecoveryInvariant
  import opened RecoverySafety
  import opened RecoveryGuards
  import opened RecoveryProgress
  import opened RecoveryRuns

  /** One turn of a handler: what the world does first, whether the panel dies
      there or stops waiting for its helper, and how the step itself ends. */
  datatype Turn = Turn(before: seq<Event>, crashes: bool, abandons: bool, outcome: Outcome, lag: nat)

  datatype Reply = Refused | Failed | Accepted | Awaiting(token: nat, deadline: int) | Crashed

  // Nothing happens before the step, and the handler takes it.
  predicate Quiet(t: Turn) {
    t.before == [] && !t.crashes && !t.abandons
  }

  predicate Smooth(t: Turn) {
    Quiet(t) && t.outcome.Done?
  }

  // Nothing happens between the steps, and every step succeeds.
  ghost predicate AllSmooth(turns: nat -> Turn) {
    forall k: nat :: Smooth(turns(k))
  }

  // ... with the exception of one step, which fails.
  ghost predicate AllSmoothBut(turns: nat -> Turn, failing: nat) {
    forall k: nat :: Quiet(turns(k)) && (turns(k).outcome.Done? <==> k != failing)
  }

  // A helper meets no obstacle in its three phases.
  predicate HelperSmooth(turns: nat -> Turn, at: nat) {
    Smooth(turns(at)) && Smooth(turns(at + 1)) && Smooth(turns(at + 2))
  }

  // ----- Runs grow at the end -----

  lemma {:induction false} AtPrefix(s: State, events: seq<Event>, more: seq<Event>, i: nat)
    requires i <= |events|
    ensures At(s, events + more, i) == At(s, events, i)
  {
    if i > 0 {
      AtPrefix(s, events, more, i - 1);
    }
  }

  lemma {:induction false} AtGrows(s: State, events: seq<Event>, e: Event)
    ensures At(s, events + [e], |events| + 1) == Next(At(s, events, |events|), e)
  {
    AtPrefix(s, events, [e], |events|);
  }

  class Panel {
    // The host and its clock.
    var host: Host
    var timers: map<nat, Timer>
    var nextUnit: nat
    var now: int
    // The panel's settings.
    var db: Settings
    var nextToken: nat
    // Helpers that outlive their handler.
    var left: seq<Left>
    // A panel update.
    var update: Update
    var restarts: seq<int>
    // The run so far, and where the handler stands in it.
    ghost const start: State
    ghost var history: seq<Event>
    ghost var pc: Pc

    constructor (host: Host, db: Settings, now: int)
      requires db.pending == map[]
      ensures Valid() && pc.Idle? && history == [] && this.host == host && this.db == db
    {
      this.host, this.db, this.now := host, db, now;
      timers, nextUnit, nextToken, left, update, restarts := map[], 0, 0, [], NoUpdate, [];
      history, pc := [], Idle;
      start := State(host, db, map[], 0, 0, now, Idle, [], NoUpdate, []);
    }

    ghost function View(): State
      reads this
    {
      State(host, db, timers, nextUnit, nextToken, now, pc, left, update, restarts)
    }

    // The run so far leads to the state s.
    ghost predicate LeadsTo(s: State)
      reads this`history
    {
      Initial(start) && forall k :: k == |history| ==> At(start, history, k) == s
    }

    ghost predicate Valid()
      reads this
    {
      LeadsTo(View())
    }

    lemma ViewKeeps()
      requires Valid()
      ensures Inv(View())
    {
      assert At(start, history, |history|) == View();
      InitialHolds(start);
      RunKeeps(start, history, |history|);
    }

    // Notes that the fields have just taken the step e.
    ghost method Note(e: Event, before: State)
      requires LeadsTo(before) && View() == Next(before, e)
      modifies this`history
      ensures Valid() && history == old(history) + [e]
    {
      assert At(start, history, |history|) == before;
      AtGrows(start, history, e);
      history := history + [e];
    }

    // ----- The world -----

    method Advance(ms: nat)
      requires Valid()
      modifies this`now, this`history
      ensures Valid() && old(history) <= history
    {
      ghost var before := View();
      if forall u :: u in timers && timers[u].Live() ==> now + ms < timers[u].deadline {
        now := now + ms;
      }
      Note(Tick(ms), before);
    }

    method FireTimer(u: nat, outcome: Outcome)
      requires Valid()
      modifies this`host, this`timers, this`history
      ensures Valid() && old(history) <= history
      ensures timers.Keys == old(timers).Keys
    {
      ghost var before := View();
      if u in timers {
        var t := timers[u];
        match t.status {
          case Waiting =>
            if now >= t.fireAt {
              timers := timers[u := t.(status := if t.script == [] then Finished else Running(0))];
            }
          case Running(k) =>
            if k < |t.script| {
              if !outcome.FailedClean? {
                host := Run(host, t.script[k]);
              }
              var ended := if k + 1 == |t.script| then Finished else Running(k + 1);
              timers := timers[u := t.(status := if outcome.Done? then ended else Broken)];
            }
          case _ =>
        }
      }
      Note(Fire(u, outcome), before);
    }

    // A left-over helper goes on, and nobody learns how it ends.
    method GoOnAlone(i: nat, outcome: Outcome)
      requires Valid()
      modifies this`host, this`left, this`history
      ensures Valid() && old(history) <= history
    {
      ghost var before := View();
      ViewKeeps();
      if i < |left| {
        var l := left[i];
        match l.phase {
          case Some(phase) =>
            var h := HelperPhase(l.change, phase, outcome);
            left := left[i := l.(phase := if h.Continue? then Some(h.phase) else None)];
          case None =>
        }
      }
      Note(Leftover(i, outcome), before);
    }

    method Interfere(events: seq<Event>)
      requires Valid()
      modifies this`host, this`timers, this`now, this`left, this`history
      ensures Valid() && old(history) <= history
      ensures events == [] ==> host == old(host) && timers == old(timers) && now == old(now) && left == old(left)
    {
      for i := 0 to |events|
        invariant Valid() && old(history) <= history
        invariant i == 0 ==> host == old(host) && timers == old(timers) && now == old(now) && left == old(left)
      {
        match events[i] {
          case Tick(ms) => Advance(ms);
          case Fire(u, outcome) => FireTimer(u, outcome);
          case Leftover(k, outcome) => GoOnAlone(k, outcome);
          case External(h) =>
            ghost var before := View();
            host := h;
            Note(External(h), before);
          case _ =>
        }
      }
    }

    // The world moves on; then the handler may be gone, and the helper it was
    // waiting for goes on without it.
    method TakeTurn(t: Turn, work: Option<Left>) returns (alive: bool)
      requires Valid() && work == Attached(pc)
      modifies this`host, this`timers, this`now, this`left, this`history, this`pc
      ensures Valid() && old(history) <= history
      ensures alive <==> !t.crashes && !(t.abandons && work.Some?)
      ensures t.before == [] ==> host == old(host) && timers == old(timers) && now == old(now)
      ensures t.before == [] && alive ==> left == old(left)
      ensures pc == if alive then old(pc) else Idle
    {
      Interfere(t.before);
      alive := !t.crashes && !(t.abandons && work.Some?);
      if !alive {
        ghost var before := View();
        left, pc := left + (if work.Some? then [work.value] else []), Idle;
        Note(if t.crashes then Crash else Abandon, before);
      }
    }

    // ----- The steps of an armed change -----

    // The scheduling call: the timer is armed even when its answer is lost.
    method ArmTimer(op: Op, outcome: Outcome, lag: nat) returns (unit: Option<nat>)
      requires !outcome.FailedClean?
      modifies this`timers, this`nextUnit
      ensures nextUnit == old(nextUnit) + 1 && unit == if outcome.Done? then Some(old(nextUnit)) else None
      ensures var deadline := now + RESTORE_AFTER;
              var timer := Timer(UndoScript(op), deadline - CallTime(lag), deadline, Waiting);
              timers == old(timers)[old(nextUnit) := timer]
    {
      var deadline := now + RESTORE_AFTER;
      timers := timers[nextUnit := Timer(UndoScript(op), deadline - CallTime(lag), deadline, Waiting)];
      unit := if outcome.Done? then Some(nextUnit) else None;
      nextUnit := nextUnit + 1;
    }

    /** Schedules the inverse before anything is touched. */
    method ScheduleUndo(op: Op, started: int, outcome: Outcome, lag: nat) returns (unit: Option<nat>)
      requires Valid() && pc == Arming(op, started)
      modifies this`timers, this`nextUnit, this`pc, this`history
      ensures Valid() && old(history) <= history
      ensures pc == if unit.Some? then Applying(op, unit, started, 0, Check) else Idle
      ensures unit.Some? ==> unit.value in timers && timers[unit.value].script == UndoScript(op)
      ensures unit.Some? <==> outcome.Done? && now <= started + HANDLER_BUDGET
    {
      ghost var before := View();
      unit := None;
      if now <= started + HANDLER_BUDGET && !outcome.FailedClean? {
        unit := ArmTimer(op, outcome, lag);
      }
      pc := if unit.Some? then Applying(op, unit, started, 0, Check) else Idle;
      Note(Proceed(outcome, lag), before);
    }

    method ScheduleTurn(op: Op, started: int, t: Turn) returns (unit: Option<nat>, crashed: bool)
      requires Valid() && pc == Arming(op, started)
      modifies this`host, this`timers, this`nextUnit, this`now, this`left, this`history, this`pc
      ensures Valid() && old(history) <= history
      ensures pc == if unit.Some? then Applying(op, unit, started, 0, Check) else Idle
      ensures unit.Some? ==> unit.value in timers && timers[unit.value].script == UndoScript(op)
      ensures Smooth(t) && old(now) <= started + HANDLER_BUDGET ==> unit.Some? && host == old(host) && now == old(now)
    {
      var alive := TakeTurn(t, None);
      if !alive {
        return None, true;
      }
      unit := ScheduleUndo(op, started, t.outcome, t.lag);
      crashed := false;
    }

    // One command of the helper; a failed one may have taken effect.
    method EditLayer(layer: Layer, n: Native, present: bool, outcome: Outcome)
      modifies this`host
      ensures host == if outcome.FailedClean? then old(host) else old(host).Set(layer, n, present)
    {
      if !outcome.FailedClean? {
        host := host.Set(layer, n, present);
      }
    }

    // One phase of the helper's work on one change.
    method HelperPhase(c: Change, phase: Phase, outcome: Outcome) returns (h: Helper)
      requires FirewallText.Valid(c.rule) && (c.rule.OpenPort? || IsDrop(c.rule))
      modifies this`host
      ensures (host, h) == HelperStep(old(host), c, phase, outcome)
    {
      match phase {
        case Check =>
          var admitted := CheckAdmitted(host, c);
          return if outcome.Done? && admitted then Continue(RuntimeStep) else GaveUp;
        case RuntimeStep =>
          EditLayer(Runtime, c.rule, c.add, outcome);
          return if outcome.Done? then Continue(PermanentStep) else GaveUp;
        case PermanentStep =>
          EditLayer(Permanent, c.rule, c.add, outcome);
          return if outcome.Done? then Succeeded else Continue(Compensate);
        case Compensate =>
          EditLayer(Runtime, c.rule, !c.add, outcome);
          return GaveUp;
      }
    }

    ghost predicate AtPhase(op: Op, timer: Option<nat>, started: int, step: nat, phase: Phase)
      reads this
    {
      pc == Applying(op, timer, started, step, phase)
    }

    // Where the handler stands after one phase of its helper.
    static function AfterPhase(op: Op, timer: Option<nat>, started: int, step: nat, h: Helper): Pc {
      match h
      case Continue(next) => Applying(op, timer, started, step, next)
      case GaveUp => Idle
      case Succeeded => if step + 1 < |Changes(op)| then Applying(op, timer, started, step + 1, Check)
                        else AfterChanges(Applying(op, timer, started, step, Check))
    }

    lemma HelperMovesOn(h: Host, c: Change, phase: Phase, outcome: Outcome)
      ensures var next := HelperStep(h, c, phase, outcome).1; next.Continue? ==> Later(phase, next.phase)
    {
    }

    // The step of the protocol, in terms of what the helper did.
    lemma ApplyStepIs(s: State, op: Op, timer: Option<nat>, started: int, step: nat, phase: Phase, outcome: Outcome)
      requires s.pc == Applying(op, timer, started, step, phase) && step < |Changes(op)|
      ensures ApplyStep(s, outcome) ==
              if Expired(s, started) then LeaveHelper(s)
              else var (after, h) := HelperStep(s.host, Changes(op)[step], phase, outcome);
                   s.(host := after, pc := AfterPhase(op, timer, started, step, h))
    {
    }

    ghost method NoteApply(before: State, outcome: Outcome, lag: nat)
      requires LeadsTo(before)
      requires before.pc.Applying? && View() == ApplyStep(before, outcome)
      modifies this`history
      ensures Valid() && old(history) <= history
    {
      Note(Proceed(outcome, lag), before);
    }

    method ApplyPhase(op: Op, timer: Option<nat>, started: int, step: nat, phase: Phase, outcome: Outcome, lag: nat)
      returns (h: Helper)
      requires Valid() && AtPhase(op, timer, started, step, phase) && WellFormed(op) && step < |Changes(op)|
      modifies this`host, this`left, this`pc, this`history
      ensures Valid() && old(history) <= history
      ensures pc == AfterPhase(op, timer, started, step, h)
      ensures h.Continue? ==> Later(phase, h.phase)
      ensures now <= started + HANDLER_BUDGET ==>
                (host, h) == HelperStep(old(host), Changes(op)[step], phase, outcome) && left == old(left)
    {
      ghost var before := View();
      var c := Changes(op)[step];
      if now > started + HANDLER_BUDGET {
        h := GaveUp;
        left := left + [Left(op, timer, c, Some(phase))];
      } else {
        HelperMovesOn(host, c, phase, outcome);
        h := HelperPhase(c, phase, outcome);
      }
      pc := AfterPhase(op, timer, started, step, h);
      ApplyStepIs(before, op, timer, started, step, phase, outcome);
      NoteApply(before, outcome, lag);
    }

    static function Rank(phase: Phase): nat {
      match phase
      case Check => 3
      case RuntimeStep => 2
      case PermanentStep => 1
      case Compensate => 0
    }

    static function PhasesLeft(h: Helper): nat {
      if h.Continue? then Rank(h.phase) + 1 else 0
    }

    static predicate Later(phase: Phase, next: Phase) {
      Rank(next) < Rank(phase)
    }

    // How far a helper that meets no obstacle has got when it enters a phase.
    static ghost predicate Partway(before: Host, now: Host, c: Change, phase: Phase) {
      match phase
      case Check | RuntimeStep => now == before
      case PermanentStep => now == before.Set(Runtime, c.rule, c.add)
      case Compensate => false
    }

    // One phase further on, or at the end of the change.
    static ghost predicate GoneOn(before: Host, now: Host, c: Change, phase: Phase, h: Helper) {
      match h
      case Continue(next) => Partway(before, now, c, next) && Rank(phase) == Rank(next) + 1
      case Succeeded => now == Applied(before, c) && Rank(phase) == 1
      case GaveUp => false
    }

    lemma PartwayGoesOn(before: Host, reached: Host, c: Change, phase: Phase)
      requires Partway(before, reached, c, phase) && Admits(before, c)
      ensures var (after, h) := HelperStep(reached, c, phase, Done); GoneOn(before, after, c, phase, h)
    {
    }

    static ghost predicate OnCourse(c: Change, phase: Phase, t: Turn, found: Host, now: Host) {
      Smooth(t) && Admits(found, c) && Partway(found, now, c, phase)
    }

    // Where an undisturbed helper is after its first turns.
    static ghost predicate Underway(c: Change, h: Helper, turns: nat -> Turn, at: nat, used: nat, found: Host, now: Host) {
      match h
      case Continue(phase) => OnCourse(c, phase, turns(used), found, now) && used + Rank(phase) == at + 3
      case Succeeded => now == Applied(found, c) && used == at + 3
      case GaveUp => false
    }

    static lemma StaysUnderway(c: Change, before: Helper, h: Helper, turns: nat -> Turn, at: nat, used: nat,
                               found: Host, now: Host)
      requires HelperSmooth(turns, at) && Admits(found, c)
      requires before.Continue? && used + Rank(before.phase) == at + 4 && GoneOn(found, now, c, before.phase, h)
      ensures Underway(c, h, turns, at, used, found, now)
    {
    }

    // The turn of a helper that has got so far from the host it found.
    method PhaseTurn(op: Op, timer: Option<nat>, started: int, step: nat, phase: Phase, t: Turn, ghost found: Host)
      returns (h: Helper, crashed: bool)
      requires Valid() && AtPhase(op, timer, started, step, phase) && WellFormed(op) && step < |Changes(op)|
      modifies this`host, this`timers, this`now, this`left, this`history, this`pc
      ensures Valid() && old(history) <= history
      ensures pc == AfterPhase(op, timer, started, step, h)
      ensures h.Continue? ==> Later(phase, h.phase)
      ensures OnCourse(Changes(op)[step], phase, t, found, old(host)) && old(now) <= started + HANDLER_BUDGET ==>
                && GoneOn(found, host, Changes(op)[step], phase, h)
                && now == old(now) && timers == old(timers) && left == old(left)
    {
      var c := Changes(op)[step];
      var alive := TakeTurn(t, Some(Left(op, timer, c, Some(phase))));
      if !alive {
        return GaveUp, t.crashes;
      }
      if OnCourse(c, phase, t, found, host) {
        PartwayGoesOn(found, host, c, phase);
      }
      h := ApplyPhase(op, timer, started, step, phase, t.outcome, t.lag);
      crashed := false;
    }

    /** Runs the helper for one change, phase by phase. */
    method RunHelper(op: Op, timer: Option<nat>, started: int, step: nat, turns: nat -> Turn, at: nat)
      returns (ok: bool, crashed: bool, used: nat)
      requires Valid() && AtPhase(op, timer, started, step, Check) && WellFormed(op) && step < |Changes(op)|
      modifies this`host, this`timers, this`now, this`left, this`history, this`pc
      ensures Valid() && old(history) <= history
      ensures pc == AfterPhase(op, timer, started, step, if ok then Succeeded else GaveUp)
      ensures HelperSmooth(turns, at) && old(now) <= started + HANDLER_BUDGET && Admits(old(host), Changes(op)[step]) ==>
                && ok && host == Applied(old(host), Changes(op)[step]) && used == at + 3
                && now == old(now) && timers == old(timers) && left == old(left)
    {
      var h := Continue(Check);
      used, crashed := at, false;
      ghost var c, found := Changes(op)[step], host;
      ghost var smooth := HelperSmooth(turns, at) && now <= started + HANDLER_BUDGET && Admits(host, c);
      while h.Continue?
        invariant Valid() && old(history) <= history
        invariant pc == AfterPhase(op, timer, started, step, h)
        invariant smooth ==> Underway(c, h, turns, at, used, found, host)
        invariant smooth ==> now == old(now) && timers == old(timers) && left == old(left)
        decreases PhasesLeft(h)
      {
        ghost var before := h;
        h, crashed := PhaseTurn(op, timer, started, step, h.phase, turns(used), found);
        used := used + 1;
        if smooth {
          StaysUnderway(c, before, h, turns, at, used, found, host);
        }
      }
      ok := h.Succeeded?;
    }

    /** Stores the record of an applied change under its source rule. */
    method SavePending(op: Op, unit: nat, outcome: Outcome, lag: nat) returns (reply: Reply)
      requires Valid() && pc == Saving(op, unit)
      modifies this`db, this`nextToken, this`pc, this`history
      ensures Valid() && old(history) <= history && pc.Idle?
      ensures reply.Awaiting? ==> op.id in db.pending && db.pending[op.id] == Pending(op, reply.token, unit, reply.deadline)
      ensures reply.Awaiting? || reply.Failed?
      ensures reply.Awaiting? <==> outcome.Done? && unit in timers
    {
      ghost var before := View();
      if outcome.Done? && unit in timers {
        reply := Awaiting(nextToken, timers[unit].deadline);
        db := db.(pending := db.pending[op.id := Pending(op, nextToken, unit, timers[unit].deadline)]);
        nextToken := nextToken + 1;
      } else {
        reply := Failed;
      }
      pc := Idle;
      Note(Proceed(outcome, lag), before);
    }

    /** Inspects the result of an edit before it is recorded. */
    method VerifyEdit(op: Op, unit: nat, started: int, outcome: Outcome, lag: nat) returns (ok: bool)
      requires Valid() && pc == Verifying(op, unit, started) && WellFormed(op) && op.kind.EditExternal?
      modifies this`pc, this`history
      ensures Valid() && old(history) <= history
      ensures pc == if ok then Saving(op, unit) else Idle
      ensures ok <==> outcome.Done? && now <= started + HANDLER_BUDGET && EditLanded(host, op)
    {
      ghost var before := View();
      var landed := CheckLanded(host, op);
      ok := outcome.Done? && now <= started + HANDLER_BUDGET && landed;
      pc := if ok then Saving(op, unit) else Idle;
      Note(Proceed(outcome, lag), before);
    }

    method VerifyTurn(op: Op, unit: nat, started: int, t: Turn) returns (ok: bool, crashed: bool)
      requires Valid() && pc == Verifying(op, unit, started) && WellFormed(op) && op.kind.EditExternal?
      modifies this`host, this`timers, this`now, this`left, this`history, this`pc
      ensures Valid() && old(history) <= history
      ensures pc == if ok then Saving(op, unit) else Idle
      ensures Smooth(t) && old(now) <= started + HANDLER_BUDGET && EditLanded(old(host), op) ==>
                ok && host == old(host) && timers == old(timers)
    {
      var alive := TakeTurn(t, None);
      if !alive {
        return false, true;
      }
      ok := VerifyEdit(op, unit, started, t.outcome, t.lag);
      crashed := false;
    }

    // A record, if the reply announces one, was stored by this request.
    ghost predicate Recorded(op: Op, reply: Reply)
      reads this
    {
      reply.Awaiting? ==> op.id in db.pending && db.pending[op.id].op == op &&
                          db.pending[op.id].token == reply.token && db.pending[op.id].deadline == reply.deadline
    }

    method FinishArmed(op: Op, unit: nat, started: int, turns: nat -> Turn, at: nat) returns (reply: Reply)
      requires Valid() && WellFormed(op) && pc == AfterChanges(Applying(op, Some(unit), started, 0, Check))
      modifies this
      ensures Valid() && old(history) <= history && pc.Idle?
      ensures Recorded(op, reply) && !reply.Refused? && !reply.Accepted?
      ensures (AllSmooth(turns) && old(now) <= started + HANDLER_BUDGET && unit in old(timers) &&
               (op.kind.EditExternal? ==> EditLanded(old(host), op))) ==> reply.Awaiting? && host == old(host)
    {
      var used := at;
      if op.kind.EditExternal? {
        var ok, crashed := VerifyTurn(op, unit, started, turns(used));
        if !ok {
          return if crashed then Crashed else Failed;
        }
        used := used + 1;
      }
      var t := turns(used);
      var alive := TakeTurn(t, None);
      if !alive {
        return Crashed;
      }
      reply := SavePending(op, unit, t.outcome, t.lag);
    }

    /** Arms the inverse, applies each change, and stores the record. */
    method RunArmed(op: Op, started: int, turns: nat -> Turn) returns (reply: Reply)
      requires Valid() && WellFormed(op) && pc == Arming(op, started)
      modifies this
      ensures Valid() && old(history) <= history && pc.Idle?
      ensures Recorded(op, reply) && !reply.Refused? && !reply.Accepted?
      ensures AllSmooth(turns) && old(now) <= started + HANDLER_BUDGET && Goes(old(host), op) ==>
                reply.Awaiting? && host == AppliedAll(old(host), op)
    {
      var unit, crashed := ScheduleTurn(op, started, turns(0));
      if unit.None? {
        return if crashed then Crashed else Failed;
      }
      var ok, at;
      ok, crashed, at := ApplyChanges(op, unit, started, turns);
      if !ok {
        return if crashed then Crashed else Failed;
      }
      reply := FinishArmed(op, unit.value, started, turns, at);
    }

    /** Runs the helper for each change of the operation in turn. */
    method ApplyChanges(op: Op, unit: Option<nat>, started: int, turns: nat -> Turn) returns (ok: bool, crashed: bool, at: nat)
      requires Valid() && WellFormed(op) && unit.Some? && pc == Applying(op, unit, started, 0, Check)
      modifies this`host, this`timers, this`now, this`left, this`history, this`pc
      ensures Valid() && old(history) <= history
      ensures pc == if ok then AfterChanges(Applying(op, unit, started, 0, Check)) else Idle
      ensures AllSmooth(turns) && old(now) <= started + HANDLER_BUDGET && Goes(old(host), op) ==>
                ok && host == AppliedAll(old(host), op) && now == old(now) && timers == old(timers)
    {
      ghost var found := host;
      ghost var smooth := AllSmooth(turns) && now <= started + HANDLER_BUDGET && Goes(host, op);
      var step := 0;
      ok, crashed, at := true, false, 1;
      while ok && step < |Changes(op)|
        invariant Valid() && old(history) <= history && step <= |Changes(op)|
        invariant pc == if ok then AfterSome(op, unit, started, step) else Idle
        invariant smooth ==> ok && host == AppliedFirst(found, op, step) && now == old(now) && timers == old(timers)
        decreases |Changes(op)| - step
      {
        HelperTakesNext(op, unit, started, step);
        if smooth {
          NextIsAdmitted(found, op, step);
        }
        ok, crashed, at := RunHelper(op, unit, started, step, turns, at);
        step := step + 1;
      }
    }

    static lemma HelperTakesNext(op: Op, unit: Option<nat>, started: int, step: nat)
      requires unit.Some? && step < |Changes(op)|
      ensures AfterPhase(op, unit, started, step, Succeeded) == AfterSome(op, unit, started, step + 1)
      ensures AfterPhase(op, unit, started, step, GaveUp) == Idle
    {
    }

    static lemma NextIsAdmitted(h: Host, op: Op, step: nat)
      requires Goes(h, op) && step < |Changes(op)|
      ensures Admits(AppliedFirst(h, op, step), Changes(op)[step])
      ensures AppliedFirst(h, op, step + 1) == Applied(AppliedFirst(h, op, step), Changes(op)[step])
    {
    }

    // Where the handler stands after the first changes of its operation.
    static function AfterSome(op: Op, unit: Option<nat>, started: int, step: nat): Pc {
      if step < |Changes(op)| then Applying(op, unit, started, step, Check)
      else AfterChanges(Applying(op, unit, started, 0, Check))
    }

    // ----- The steps of a change that arms nothing -----

    method Settle(op: Op, outcome: Outcome, lag: nat) returns (ok: bool)
      requires Valid() && pc == Settling(op)
      modifies this`db, this`pc, this`history
      ensures Valid() && old(history) <= history
      ensures pc == if ok then Idle else Undoing(op, Check)
      ensures ok ==> if op.kind.AddAllow? then op.id in db.owned else op.id !in db.paused
      ensures !ok ==> db == old(db)
      ensures ok <==> outcome.Done?
    {
      ghost var before := View();
      ok := outcome.Done?;
      if !ok {
        pc := Undoing(op, Check);
      } else if op.kind.AddAllow? {
        db, pc := db.(owned := db.owned + {op.id}), Idle;
      } else {
        db, pc := db.(paused := db.paused - {op.id}), Idle;
      }
      Note(Proceed(outcome, lag), before);
    }

    method SettleTurn(op: Op, t: Turn) returns (ok: bool, crashed: bool)
      requires Valid() && pc == Settling(op)
      modifies this`host, this`timers, this`now, this`left, this`db, this`history, this`pc
      ensures Valid() && old(history) <= history
      ensures pc == if ok || crashed then Idle else Undoing(op, Check)
      ensures ok ==> if op.kind.AddAllow? then op.id in db.owned else op.id !in db.paused
      ensures !ok ==> db == old(db)
      ensures Quiet(t) ==> !crashed && (ok <==> t.outcome.Done?) && host == old(host)
    {
      var alive := TakeTurn(t, None);
      if !alive {
        return false, true;
      }
      ok := Settle(op, t.outcome, t.lag);
      crashed := false;
    }

    method UndoPhase(op: Op, phase: Phase, outcome: Outcome, lag: nat) returns (h: Helper)
      requires Valid() && pc == Undoing(op, phase) && WellFormed(op) && (op.id.OpenPort? || IsDrop(op.id))
      modifies this`host, this`pc, this`history
      ensures Valid() && old(history) <= history
      ensures if h.Continue? then pc == Undoing(op, h.phase) && Later(phase, h.phase) else pc.Idle?
      ensures (host, h) == HelperStep(old(host), Change(false, op.id), phase, outcome)
    {
      ghost var before := View();
      HelperMovesOn(host, Change(false, op.id), phase, outcome);
      h := HelperPhase(Change(false, op.id), phase, outcome);
      pc := if h.Continue? then Undoing(op, h.phase) else Idle;
      Note(Proceed(outcome, lag), before);
    }

    method UndoTurn(op: Op, phase: Phase, t: Turn, ghost found: Host) returns (h: Helper, crashed: bool)
      requires Valid() && pc == Undoing(op, phase) && WellFormed(op) && (op.id.OpenPort? || IsDrop(op.id))
      modifies this`host, this`timers, this`now, this`left, this`history, this`pc
      ensures Valid() && old(history) <= history
      ensures if h.Continue? then pc == Undoing(op, h.phase) && Later(phase, h.phase) else pc.Idle?
      ensures crashed ==> t.crashes
      ensures OnCourse(Change(false, op.id), phase, t, found, old(host)) ==> GoneOn(found, host, Change(false, op.id), phase, h)
    {
      var c := Change(false, op.id);
      var alive := TakeTurn(t, Some(Left(op, None, c, Some(phase))));
      if !alive {
        return GaveUp, t.crashes;
      }
      if OnCourse(c, phase, t, found, host) {
        PartwayGoesOn(found, host, c, phase);
      }
      h := UndoPhase(op, phase, t.outcome, t.lag);
      crashed := false;
    }

    /** Takes an addition back whose metadata could not be stored. */
    method UndoAddition(op: Op, turns: nat -> Turn, at: nat) returns (crashed: bool)
      requires Valid() && pc == Undoing(op, Check) && WellFormed(op) && (op.id.OpenPort? || IsDrop(op.id))
      modifies this`host, this`timers, this`now, this`left, this`history, this`pc
      ensures Valid() && old(history) <= history && pc.Idle?
      ensures HelperSmooth(turns, at) && Admits(old(host), Change(false, op.id)) ==>
                !crashed && host == Applied(old(host), Change(false, op.id))
    {
      var h, used := Continue(Check), at;
      crashed := false;
      ghost var c, found := Change(false, op.id), host;
      ghost var smooth := HelperSmooth(turns, at) && Admits(host, c);
      while h.Continue?
        invariant Valid() && old(history) <= history
        invariant if h.Continue? then pc == Undoing(op, h.phase) else pc.Idle?
        invariant smooth ==> Underway(c, h, turns, at, used, found, host) && !crashed
        decreases PhasesLeft(h)
      {
        ghost var before := h;
        h, crashed := UndoTurn(op, h.phase, turns(used), found);
        used := used + 1;
        if smooth {
          StaysUnderway(c, before, h, turns, at, used, found, host);
        }
      }
    }

    // A change that arms nothing is one addition, which can be taken back.
    static lemma UnarmedGoes(h: Host, op: Op)
      requires WellFormed(op) && !op.kind.IsArmed() && Goes(h, op)
      ensures Changes(op)[0] == Change(true, op.id) && Admits(h, Changes(op)[0])
      ensures AppliedAll(h, op) == Applied(h, Changes(op)[0])
      ensures Admits(AppliedAll(h, op), Change(false, op.id)) && Applied(AppliedAll(h, op), Change(false, op.id)) == h
    {
      assert AppliedFirst(h, op, 0) == h && AppliedFirst(h, op, 1) == Applied(h, Changes(op)[0]);
      AdditionCanBeTakenBack(h, op.id);
    }

    method AddRule(op: Op, started: int, turns: nat -> Turn) returns (ok: bool, crashed: bool, used: nat)
      requires Valid() && WellFormed(op) && !op.kind.IsArmed() && pc == Applying(op, None, started, 0, Check)
      modifies this`host, this`timers, this`now, this`left, this`history, this`pc
      ensures Valid() && old(history) <= history
      ensures pc == if ok then Settling(op) else Idle
      ensures HelperSmooth(turns, 0) && old(now) <= started + HANDLER_BUDGET && Goes(old(host), op) ==>
                ok && host == AppliedAll(old(host), op) && used == 3
    {
      if Goes(host, op) {
        UnarmedGoes(host, op);
      }
      ok, crashed, used := RunHelper(op, None, started, 0, turns, 0);
    }

    /** Adds the rule and stores its metadata; where that fails, takes the rule
        back. */
    method RunUnarmed(op: Op, started: int, turns: nat -> Turn) returns (reply: Reply)
      requires Valid() && WellFormed(op) && !op.kind.IsArmed() && pc == Applying(op, None, started, 0, Check)
      modifies this`host, this`timers, this`now, this`left, this`db, this`history, this`pc
      ensures Valid() && old(history) <= history && pc.Idle?
      ensures reply.Accepted? ==> if op.kind.AddAllow? then op.id in db.owned else op.id !in db.paused
      ensures !reply.Refused? && !reply.Awaiting?
      ensures !reply.Accepted? ==> db == old(db)
      ensures AllSmooth(turns) && old(now) <= started + HANDLER_BUDGET && Goes(old(host), op) ==>
                reply.Accepted? && host == AppliedAll(old(host), op)
      ensures AllSmoothBut(turns, 3) && old(now) <= started + HANDLER_BUDGET && Goes(old(host), op) ==>
                reply.Failed? && host == old(host)
    {
      ghost var found := host;
      var ok, crashed, used := AddRule(op, started, turns);
      reply := if crashed then Crashed else Failed;
      if ok {
        reply := FinishUnarmed(op, turns, used, found);
      }
    }

    method FinishUnarmed(op: Op, turns: nat -> Turn, at: nat, ghost found: Host) returns (reply: Reply)
      requires Valid() && WellFormed(op) && !op.kind.IsArmed() && pc == Settling(op)
      modifies this`host, this`timers, this`now, this`left, this`db, this`history, this`pc
      ensures Valid() && old(history) <= history && pc.Idle?
      ensures reply.Accepted? ==> if op.kind.AddAllow? then op.id in db.owned else op.id !in db.paused
      ensures !reply.Refused? && !reply.Awaiting?
      ensures !reply.Accepted? ==> db == old(db)
      ensures Smooth(turns(at)) ==> reply.Accepted? && host == old(host)
      ensures (Quiet(turns(at)) && !turns(at).outcome.Done? && HelperSmooth(turns, at + 1) &&
               Goes(found, op) && old(host) == AppliedAll(found, op)) ==> reply.Failed? && host == found
    {
      if Goes(found, op) {
        UnarmedGoes(found, op);
      }
      var ok, crashed := SettleTurn(op, turns(at));
      if ok {
        return Accepted;
      }
      if !crashed {
        crashed := UndoAddition(op, turns, at + 1);
      }
      return if crashed then Crashed else Failed;
    }

    // ----- The three handlers that change rules -----

    method Enter(op: Op, env: Env)
      requires Valid() && pc.Idle? && Accepts(View(), op, env)
      modifies this`pc, this`history
      ensures Valid() && old(history) <= history
      ensures pc == if op.kind.IsArmed() then Arming(op, now) else Applying(op, None, now, 0, Check)
    {
      ghost var before := View();
      pc := if op.kind.IsArmed() then Arming(op, now) else Applying(op, None, now, 0, Check);
      Note(Begin(op, env), before);
    }

    predicate Blocked(n: Native)
      reads this
    {
      n in db.pending && now < db.pending[n].deadline
    }

    /** Adds or removes one plain port. */
    method RuleChange(op: Op, env: Env, turns: nat -> Turn) returns (reply: Reply)
      requires Valid() && pc.Idle? && WellFormed(op) && (op.kind.AddAllow? || op.kind.RemoveAllow?)
      modifies this
      ensures Valid() && old(history) <= history && pc.Idle?
      ensures reply.Refused? <==> !Accepts(old(View()), op, env)
      ensures reply.Refused? ==> View() == old(View())
      ensures reply.Accepted? ==> op.kind.AddAllow? && op.id in db.owned
      ensures Recorded(op, reply) && (reply.Awaiting? ==> op.kind.RemoveAllow?)
      ensures AllSmooth(turns) && !reply.Refused? && Goes(old(host), op) ==>
                (if op.kind.RemoveAllow? then reply.Awaiting? else reply.Accepted?) && host == AppliedAll(old(host), op)
      ensures AllSmoothBut(turns, 3) && !reply.Refused? && op.kind.AddAllow? && Goes(old(host), op) ==>
                reply.Failed? && host == old(host) && db == old(db)
    {
      if !env.readable || !env.writable || Blocked(op.id) {
        return Refused;
      }
      if op.kind.RemoveAllow? {
        if op.id !in db.owned || Protected(env, op.id.port) || Listening(env, op.id.port) {
          return Refused;
        }
      }
      var started := now;
      Enter(op, env);
      if op.kind.RemoveAllow? {
        reply := RunArmed(op, started, turns);
      } else {
        reply := RunUnarmed(op, started, turns);
      }
    }

    // What the kind of request asks of the host and of the metadata.
    predicate Suits(op: Op, f: Found)
      requires WellFormed(op) && !op.id.UfwPort? && !op.id.OpenRange?
      reads this
    {
      match op.kind
      case AddDrop => f.Nobody? && AllowId(op.id) !in db.paused && DropId(op.id) !in db.paused
      case RemoveDrop => f == Alone(true, true)
      case PauseDrop | PauseAllow => f == Alone(true, true) && op.id !in db.paused
      case ResumeAllow | ResumeDrop => f.Nobody? && op.id in db.paused && db.paused[op.id] == op.id
      case _ => false
    }

    lemma SuitsExactly(op: Op, f: Found)
      requires WellFormed(op) && !op.id.UfwPort? && !op.id.OpenRange? && Finds(host, op.id, f) && Unmixed(host, op.id) && !f.Mixed?
      ensures var matching := host.Governing(op.id.port, op.id.protocol);
              Suits(op, f) <==>
              |matching| <= 1 &&
              match op.kind
              case AddDrop => matching == {} && AllowId(op.id) !in db.paused && DropId(op.id) !in db.paused
              case RemoveDrop => matching == {op.id} && host.Everywhere(op.id)
              case PauseDrop | PauseAllow => matching == {op.id} && host.Everywhere(op.id) && op.id !in db.paused
              case ResumeAllow | ResumeDrop => matching == {} && op.id in db.paused && db.paused[op.id] == op.id
              case _ => false
    {
      var matching := host.Governing(op.id.port, op.id.protocol);
      assert |{op.id}| == 1;
      assert matching == {} <==> |matching| == 0;
    }

    // The checks that do not look at the rules.
    predicate Permitted(op: Op, env: Env)
      requires WellFormed(op) && !op.id.UfwPort? && !op.id.OpenRange?
      reads this
    {
      var n := op.id;
      && env.readable && env.writable
      && n.zone !in host.opaqueZones && n.zone in host.zones
      && !Blocked(AllowId(n)) && !Blocked(DropId(n))
      && !Protected(env, n.port)
      && (op.kind.AddDrop? || n in db.owned)
      && (op.kind.AddDrop? || op.kind.ResumeDrop? ==> !Listening(env, n.port))
      && (op.kind.PauseAllow? ==> env.listenersKnown && (n.port in env.listeners ==> env.xrayOwned))
    }

    lemma AcceptsControlParts(op: Op, env: Env, f: Found)
      requires WellFormed(op) && !op.id.UfwPort? && !op.id.OpenRange?
      requires Finds(host, op.id, f) && (f.Mixed? <==> !Unmixed(host, op.id))
      ensures AcceptsControl(View(), op, env) <==> Permitted(op, env) && !f.Mixed? && Suits(op, f)
    {
      if !f.Mixed? {
        SuitsExactly(op, f);
      }
    }

    /** Adds, removes, pauses or resumes a policy. */
    method Control(op: Op, env: Env, turns: nat -> Turn) returns (reply: Reply)
      requires Valid() && pc.Idle? && WellFormed(op)
      requires !op.kind.AddAllow? && !op.kind.RemoveAllow? && !op.kind.EditExternal?
      modifies this
      ensures Valid() && old(history) <= history && pc.Idle?
      ensures reply.Refused? <==> !Accepts(old(View()), op, env)
      ensures reply.Refused? ==> View() == old(View())
      ensures reply.Accepted? ==> !op.kind.IsArmed() && op.id !in db.paused
      ensures Recorded(op, reply) && (reply.Awaiting? ==> op.kind.IsArmed())
      ensures AllSmooth(turns) && !reply.Refused? ==>
                (if op.kind.IsArmed() then reply.Awaiting? else reply.Accepted?) && host == AppliedAll(old(host), op)
      ensures AllSmoothBut(turns, 3) && !reply.Refused? && !op.kind.IsArmed() ==>
                reply.Failed? && host == old(host) && db == old(db)
    {
      var f := FindGoverning(host, op.id);
      AcceptsControlParts(op, env, f);
      if !Permitted(op, env) || f.Mixed? || !Suits(op, f) {
        return Refused;
      }
      AcceptedGoes(View(), op, env);
      var started := now;
      Enter(op, env);
      if op.kind.IsArmed() {
        reply := RunArmed(op, started, turns);
      } else {
        reply := RunUnarmed(op, started, turns);
      }
    }

    /** Moves a plain port of another manager to a new port or protocol. */
    method ExternalEdit(op: Op, env: Env, turns: nat -> Turn) returns (reply: Reply)
      requires Valid() && pc.Idle? && WellFormed(op) && op.kind.EditExternal?
      modifies this
      ensures Valid() && old(history) <= history && pc.Idle?
      ensures reply.Refused? <==> !Accepts(old(View()), op, env)
      ensures reply.Refused? ==> View() == old(View())
      ensures Recorded(op, reply) && !reply.Accepted?
      ensures AllSmooth(turns) && !reply.Refused? ==> reply.Awaiting? && host == AppliedAll(old(host), op)
    {
      var n, d := op.id, op.dest;
      var editable := CheckEditable(host, n, d);
      if !env.readable || !env.writable || !env.revisionCurrent || !editable || n.zone in host.opaqueZones {
        return Refused;
      }
      if Protected(env, n.port) || Protected(env, d.port) || n in db.owned || d in db.owned {
        return Refused;
      }
      if Blocked(n) || Blocked(d) || Annotation(db.note, d) != "" || Annotation(db.purpose, d) != "" || d in db.paused {
        return Refused;
      }
      if Listening(env, n.port) || Listening(env, d.port) {
        return Refused;
      }
      AcceptedGoes(View(), op, env);
      var started := now;
      Enter(op, env);
      reply := RunArmed(op, started, turns);
    }

    // ----- The confirmation -----

    method StageMetadata(p: Pending, seen: Host, outcome: Outcome, lag: nat) returns (ok: bool)
      requires Valid() && pc == Staging(p, seen)
      modifies this`db, this`pc, this`history
      ensures Valid() && old(history) <= history
      ensures pc == if ok then Cancelling(p, seen) else Idle
      ensures db == if ok then Stage(old(db), p.op) else old(db)
      ensures ok <==> outcome.Done? || !IsStaged(p.op.kind)
    {
      ghost var before := View();
      ok := !IsStaged(p.op.kind) || outcome.Done?;
      if ok && IsStaged(p.op.kind) {
        db := Stage(db, p.op);
      }
      pc := if ok then Cancelling(p, seen) else Idle;
      Note(Proceed(outcome, lag), before);
    }

    method StageTurn(p: Pending, seen: Host, t: Turn) returns (ok: bool, crashed: bool)
      requires Valid() && pc == Staging(p, seen)
      modifies this`host, this`timers, this`now, this`left, this`db, this`history, this`pc
      ensures Valid() && old(history) <= history
      ensures pc == if ok then Cancelling(p, seen) else Idle
      ensures Smooth(t) ==> ok && Still(old(host), old(now), old(left)) && timers == old(timers) && db == Stage(old(db), p.op)
    {
      var alive := TakeTurn(t, None);
      if !alive {
        return false, true;
      }
      ok := StageMetadata(p, seen, t.outcome, t.lag);
      crashed := false;
    }

    // The world is as it was.
    predicate Still(h: Host, at: int, helpers: seq<Left>)
      reads this
    {
      host == h && now == at && left == helpers
    }

    /** Stops the timer; one whose script has begun is past stopping, but the
        request succeeds while its unit is there. */
    method CancelTimer(p: Pending, seen: Host, outcome: Outcome, lag: nat) returns (ok: bool)
      requires Valid() && pc == Cancelling(p, seen)
      modifies this`timers, this`pc, this`history
      ensures Valid() && old(history) <= history
      ensures pc == if ok then Reverifying(p) else if IsStaged(p.op.kind) then Unstaging(p) else Idle
      ensures ok <==> outcome.Done? && IsLive(old(View()), p.timer)
      ensures timers == if ok then old(timers)[p.timer := Stop(old(timers)[p.timer])] else old(timers)
      ensures ok ==> (IsStopped(View(), p.timer) <==> IsWaiting(old(timers), p.timer))
    {
      ghost var before := View();
      ok := outcome.Done? && p.timer in timers && timers[p.timer].Live();
      if ok {
        timers := timers[p.timer := Stop(timers[p.timer])];
        pc := Reverifying(p);
      } else {
        pc := if IsStaged(p.op.kind) then Unstaging(p) else Idle;
      }
      Note(Proceed(outcome, lag), before);
    }

    method CancelTurn(p: Pending, seen: Host, t: Turn) returns (ok: bool, crashed: bool)
      requires Valid() && pc == Cancelling(p, seen)
      modifies this`host, this`timers, this`now, this`left, this`history, this`pc
      ensures Valid() && old(history) <= history
      ensures pc == if ok then Reverifying(p) else if IsStaged(p.op.kind) && !crashed then Unstaging(p) else Idle
      ensures Smooth(t) ==> !crashed && (ok <==> IsLive(old(View()), p.timer)) && Still(old(host), old(now), old(left))
      ensures Smooth(t) ==> timers == if ok then old(timers)[p.timer := Stop(old(timers)[p.timer])] else old(timers)
    {
      var alive := TakeTurn(t, None);
      if !alive {
        return false, true;
      }
      ok := CancelTimer(p, seen, t.outcome, t.lag);
      crashed := false;
    }

    method Withdraw(p: Pending, outcome: Outcome, lag: nat)
      requires Valid() && pc == Unstaging(p)
      modifies this`db, this`pc, this`history
      ensures Valid() && old(history) <= history && pc.Idle?
      ensures db == if outcome.Done? then Unstage(old(db), p.op) else old(db)
    {
      ghost var before := View();
      if outcome.Done? {
        db := Unstage(db, p.op);
      }
      pc := Idle;
      Note(Proceed(outcome, lag), before);
    }

    method Recheck(p: Pending, outcome: Outcome, lag: nat) returns (ok: bool)
      requires Valid() && pc == Reverifying(p) && WellFormed(p.op)
      modifies this`pc, this`history
      ensures Valid() && old(history) <= history
      ensures pc == if ok then Clearing(p, FinalWrites(p, db)) else Idle
      ensures ok <==> outcome.Done? && Announced(p, host)
    {
      ghost var before := View();
      var announced := CheckAnnounced(p, host);
      ok := outcome.Done? && announced;
      pc := if ok then Clearing(p, FinalWrites(p, db)) else Idle;
      Note(Proceed(outcome, lag), before);
    }

    method RecheckTurn(p: Pending, t: Turn) returns (ok: bool, crashed: bool)
      requires Valid() && pc == Reverifying(p) && WellFormed(p.op)
      modifies this`host, this`timers, this`now, this`left, this`history, this`pc
      ensures Valid() && old(history) <= history
      ensures pc == if ok then Clearing(p, FinalWrites(p, db)) else Idle
      ensures Smooth(t) ==> (ok <==> Announced(p, old(host))) && Still(old(host), old(now), old(left)) && timers == old(timers)
    {
      var alive := TakeTurn(t, None);
      if !alive {
        return false, true;
      }
      ok := Recheck(p, t.outcome, t.lag);
      crashed := false;
    }

    method WriteSetting(p: Pending, todo: seq<Write>, outcome: Outcome, lag: nat) returns (ok: bool)
      requires Valid() && pc == Clearing(p, todo) && todo != []
      modifies this`db, this`pc, this`history
      ensures Valid() && old(history) <= history
      ensures ok ==> db == Store(old(db), todo[0])
      ensures pc == if ok && |todo| > 1 then Clearing(p, todo[1..]) else Idle
      ensures ok <==> outcome.Done?
    {
      ghost var before := View();
      ok := outcome.Done?;
      if ok {
        db := Store(db, todo[0]);
      }
      pc := if ok && |todo| > 1 then Clearing(p, todo[1..]) else Idle;
      Note(Proceed(outcome, lag), before);
    }

    method WriteTurn(p: Pending, todo: seq<Write>, t: Turn) returns (ok: bool, crashed: bool)
      requires Valid() && pc == Clearing(p, todo) && todo != []
      modifies this`host, this`timers, this`now, this`left, this`db, this`history, this`pc
      ensures Valid() && old(history) <= history
      ensures ok ==> db == Store(old(db), todo[0])
      ensures pc == if ok && |todo| > 1 then Clearing(p, todo[1..]) else Idle
      ensures Quiet(t) ==> host == old(host) && timers == old(timers) && now == old(now) && left == old(left)
      ensures ok <==> !t.crashes && t.outcome.Done?
    {
      var alive := TakeTurn(t, None);
      if !alive {
        return false, true;
      }
      ok := WriteSetting(p, todo, t.outcome, t.lag);
      crashed := false;
    }

    /** Writes the final settings one by one; the first failure ends it. */
    method WriteSettings(p: Pending, ws: seq<Write>, turns: nat -> Turn, at: nat) returns (reply: Reply)
      requires Valid() && ws != [] && pc == Clearing(p, ws)
      modifies this`host, this`timers, this`now, this`left, this`db, this`history, this`pc
      ensures Valid() && old(history) <= history && pc.Idle?
      ensures reply.Accepted? ==> db == StoreAll(old(db), ws)
      ensures reply.Accepted? || reply.Failed? || reply.Crashed?
      ensures AllSmooth(turns) ==>
                reply.Accepted? && host == old(host) && timers == old(timers) && now == old(now) && left == old(left)
    {
      var todo, used := ws, at;
      while todo != []
        invariant Valid() && old(history) <= history
        invariant AllSmooth(turns) ==> host == old(host) && timers == old(timers) && now == old(now) && left == old(left)
        invariant pc == if todo == [] then Idle else Clearing(p, todo)
        invariant StoreAll(db, todo) == StoreAll(old(db), ws)
        decreases |todo|
      {
        var t := turns(used);
        used := used + 1;
        var ok, crashed := WriteTurn(p, todo, t);
        if !ok {
          return if crashed then Crashed else Failed;
        }
        todo := todo[1..];
      }
      return Accepted;
    }

    // What a confirmed change leaves in the settings.
    static predicate SettledIn(db: Settings, p: Pending) {
      && p.op.id !in db.pending
      && match p.op.kind
         case RemoveAllow | RemoveDrop =>
           p.op.id !in db.owned && p.op.id !in db.paused &&
           Annotation(db.note, p.op.id) == "" && Annotation(db.purpose, p.op.id) == ""
         case PauseAllow | PauseDrop => p.op.id in db.paused && db.paused[p.op.id] == p.op.id
         case AddDrop => p.op.id in db.owned
         case _ => true
    }

    ghost predicate Settled(p: Pending)
      reads this
    {
      SettledIn(db, p)
    }

    static predicate IsWaiting(timers: map<nat, Timer>, u: nat) {
      u in timers && timers[u].status.Waiting?
    }

    // Checks the token and the time, then inspects the host.
    method AdmitConfirmation(id: Native, token: nat, readable: bool) returns (ok: bool)
      requires Valid()
      ensures ok <==> ConfirmAccepted(View(), id, token, readable)
      ensures ok ==> WellFormed(db.pending[id].op)
    {
      ViewKeeps();
      if id !in db.pending {
        return false;
      }
      var p := db.pending[id];
      if p.op.id != id || p.token != token || now >= p.deadline || !readable {
        return false;
      }
      ok := CheckAnnounced(p, host);
    }

    /** Confirms a pending change with its token. */
    method ConfirmChange(id: Native, token: nat, readable: bool, turns: nat -> Turn) returns (reply: Reply)
      requires Valid() && pc.Idle?
      modifies this`host, this`timers, this`now, this`left, this`db, this`history, this`pc
      ensures Valid() && old(history) <= history && pc.Idle?
      ensures reply.Refused? <==> !ConfirmAccepted(old(View()), id, token, readable)
      ensures reply.Refused? ==> View() == old(View())
      ensures reply.Accepted? ==> Settled(old(db).pending[id]) && NotWaiting(View(), old(db).pending[id].timer)
      ensures !reply.Awaiting?
      ensures AllSmooth(turns) && !reply.Refused? ==>
                && View() == Confirmed(old(View()), old(db).pending[id])
                && (if IsLive(old(View()), old(db).pending[id].timer) then reply.Accepted? else reply.Failed?)
    {
      var admitted := AdmitConfirmation(id, token, readable);
      if !admitted {
        return Refused;
      }
      var p := db.pending[id];
      ghost var before := View();
      var seen := host;
      pc := Staging(p, seen);
      Note(Confirm(id, token, readable), before);
      reply := RunConfirmation(p, seen, turns);
    }

    method RunConfirmation(p: Pending, seen: Host, turns: nat -> Turn) returns (reply: Reply)
      requires Valid() && pc == Staging(p, seen) && WellFormed(p.op)
      modifies this`host, this`timers, this`now, this`left, this`db, this`history, this`pc
      ensures Valid() && old(history) <= history && pc.Idle?
      ensures reply.Accepted? ==> Settled(p) && NotWaiting(View(), p.timer)
      ensures !reply.Refused? && !reply.Awaiting?
      ensures AllSmooth(turns) && Announced(p, old(host)) ==>
                && Still(old(host), old(now), old(left))
                && db == Confirmed(old(View()), p).db && timers == Confirmed(old(View()), p).timers
                && (if IsLive(old(View()), p.timer) then reply.Accepted? else reply.Failed?)
    {
      var ok, crashed := StageTurn(p, seen, turns(0));
      if !ok {
        return if crashed then Crashed else Failed;
      }
      reply := StopAndFinish(p, seen, turns);
    }

    method StopAndFinish(p: Pending, seen: Host, turns: nat -> Turn) returns (reply: Reply)
      requires Valid() && pc == Cancelling(p, seen) && WellFormed(p.op)
      modifies this`host, this`timers, this`now, this`left, this`db, this`history, this`pc
      ensures Valid() && old(history) <= history && pc.Idle?
      ensures reply.Accepted? ==> Settled(p) && NotWaiting(View(), p.timer)
      ensures !reply.Refused? && !reply.Awaiting?
      ensures AllSmooth(turns) && Announced(p, old(host)) ==>
                && Still(old(host), old(now), old(left))
                && (if IsLive(old(View()), p.timer) then
                      reply.Accepted? && db == StoreAll(old(db), FinalWrites(p, old(db))) &&
                      timers == old(timers)[p.timer := Stop(old(timers)[p.timer])]
                    else reply.Failed? && db == Unstage(old(db), p.op) && timers == old(timers))
    {
      var ok, crashed := CancelTurn(p, seen, turns(1));
      if ok {
        reply := FinishConfirmation(p, turns);
      } else if crashed {
        reply := Crashed;
      } else {
        reply := GiveUp(p, turns);
      }
    }

    method GiveUp(p: Pending, turns: nat -> Turn) returns (reply: Reply)
      requires Valid() && pc == if IsStaged(p.op.kind) then Unstaging(p) else Idle
      modifies this`host, this`timers, this`now, this`left, this`db, this`history, this`pc
      ensures Valid() && old(history) <= history && pc.Idle?
      ensures reply.Failed? || reply.Crashed?
      ensures db == old(db) || db == Unstage(old(db), p.op)
      ensures AllSmooth(turns) ==>
                reply.Failed? && Still(old(host), old(now), old(left)) && db == Unstage(old(db), p.op) && timers == old(timers)
    {
      if IsStaged(p.op.kind) {
        var t := turns(2);
        var alive := TakeTurn(t, None);
        if !alive {
          return Crashed;
        }
        Withdraw(p, t.outcome, t.lag);
      }
      return Failed;
    }

    method FinishConfirmation(p: Pending, turns: nat -> Turn) returns (reply: Reply)
      requires Valid() && pc == Reverifying(p) && WellFormed(p.op)
      modifies this`host, this`timers, this`now, this`left, this`db, this`history, this`pc
      ensures Valid() && old(history) <= history && pc.Idle?
      ensures reply.Accepted? ==> Settled(p) && NotWaiting(View(), p.timer)
      ensures !reply.Refused? && !reply.Awaiting?
      ensures AllSmooth(turns) && Announced(p, old(host)) ==>
                && reply.Accepted? && Still(old(host), old(now), old(left))
                && db == StoreAll(old(db), FinalWrites(p, old(db))) && timers == old(timers)
    {
      StagedByNow(p);
      var ok, crashed := RecheckTurn(p, turns(2));
      if !ok {
        return if crashed then Crashed else Failed;
      }
      reply := WriteFinal(p, turns);
    }

    lemma StagedByNow(p: Pending)
      requires Valid() && pc == Reverifying(p)
      ensures StagedIn(db, p.op)
    {
      ViewKeeps();
    }

    method WriteFinal(p: Pending, turns: nat -> Turn) returns (reply: Reply)
      requires Valid() && pc == Clearing(p, FinalWrites(p, db)) && WellFormed(p.op) && StagedIn(db, p.op)
      modifies this`host, this`timers, this`now, this`left, this`db, this`history, this`pc
      ensures Valid() && old(history) <= history && pc.Idle?
      ensures reply.Accepted? ==> Settled(p) && NotWaiting(View(), p.timer)
      ensures !reply.Refused? && !reply.Awaiting?
      ensures AllSmooth(turns) ==>
                && reply.Accepted? && Still(old(host), old(now), old(left))
                && db == StoreAll(old(db), FinalWrites(p, old(db))) && timers == old(timers)
    {
      reply := WriteSettings(p, FinalWrites(p, db), turns, 3);
      if reply.Accepted? {
        FinalSettings(old(db), p);
        StillNotWaiting(old(history), old(View()), p);
      }
    }

    lemma StillNotWaiting(before: seq<Event>, reached: State, p: Pending)
      requires Valid() && before <= history
      requires reached == At(start, before, |before|) && reached.pc.Clearing? && reached.pc.p == p
      ensures NotWaiting(View(), p.timer)
      ensures IsStopped(View(), p.timer) <==> IsStopped(reached, p.timer)
    {
      AtPrefix(start, before, history[|before|..], |before|);
      assert before + history[|before|..] == history;
      InitialHolds(start);
      RunKeeps(start, history, |before|);
      ClearingIsFinal(start, history, |before|, |history|);
      if IsStopped(reached, p.timer) {
        StoppedStays(start, history, |before|, |history|, p.timer);
      } else {
        BegunStays(start, history, |before|, |history|, p.timer);
      }
    }

    static lemma FinalSettings(was: Settings, p: Pending)
      requires WellFormed(p.op) && StagedIn(was, p.op)
      ensures SettledIn(StoreAll(was, FinalWrites(p, was)), p)
    {
      match p.op.kind {
        case EditExternal => EditMovesAnnotations(p, was);
        case RemoveAllow => RemovalSettings(was, p.op.id);
        case RemoveDrop => RemovalSettings(was, p.op.id);
        case _ => DroppedSettings(was, p);
      }
    }

    static lemma DroppedSettings(was: Settings, p: Pending)
      requires StagedIn(was, p.op) && !p.op.kind.EditExternal? && !p.op.kind.RemoveAllow? && !p.op.kind.RemoveDrop?
      ensures SettledIn(StoreAll(was, [DropPending(p.op.id)]), p)
    {
      StoreOne(was, DropPending(p.op.id));
    }

    static lemma RemovalSettings(was: Settings, n: Native)
      ensures var after := StoreAll(was, [Disown(n), SetNote(n, ""), SetPurpose(n, ""), DropPending(n), DropPaused(n)]);
              n !in after.owned && n !in after.pending && n !in after.paused &&
              Annotation(after.note, n) == "" && Annotation(after.purpose, n) == ""
    {
      var ws := [Disown(n), SetNote(n, ""), SetPurpose(n, ""), DropPending(n), DropPaused(n)];
      StoreAllConcat(was, [Disown(n), SetNote(n, ""), SetPurpose(n, "")], [DropPending(n), DropPaused(n)]);
      assert [Disown(n), SetNote(n, ""), SetPurpose(n, "")] + [DropPending(n), DropPaused(n)] == ws;
      StoreAllConcat(was, [Disown(n)], [SetNote(n, ""), SetPurpose(n, "")]);
      assert [Disown(n)] + [SetNote(n, ""), SetPurpose(n, "")] == [Disown(n), SetNote(n, ""), SetPurpose(n, "")];
      StoreOne(was, Disown(n));
      var mid := Store(was, Disown(n));
      StoreTwo(mid, SetNote(n, ""), SetPurpose(n, ""));
      StoreTwo(Store(Store(mid, SetNote(n, "")), SetPurpose(n, "")), DropPending(n), DropPaused(n));
    }

    // ----- The panel update -----

    predicate AnyPending()
      reads this
    {
      exists n :: n in db.pending && now < db.pending[n].deadline + UPDATE_GRACE
    }

    method StageBinary()
      requires Valid() && !UpdateBlocked(View())
      modifies this`update, this`history
      ensures Valid() && old(history) <= history && update.Staged?
    {
      ghost var before := View();
      update := Staged;
      Note(StageUpdate, before);
    }

    method LockForRestart()
      requires Valid() && pc.Idle? && update.Staged?
      modifies this`pc, this`history
      ensures Valid() && old(history) <= history && pc == UpdateCheck
    {
      ghost var before := View();
      pc := UpdateCheck;
      Note(LockForUpdate, before);
    }

    method CheckAgain(outcome: Outcome, lag: nat) returns (ok: bool)
      requires Valid() && pc.UpdateCheck? && update.Staged?
      modifies this`pc, this`update, this`history
      ensures Valid() && old(history) <= history
      ensures if ok then pc == UpdateSchedule && update.Staged? else pc == Idle && update.Deferred?
      ensures ok <==> outcome.Done? && !AnyPending()
    {
      ghost var before := View();
      ok := outcome.Done? && !AnyPending();
      pc, update := if ok then UpdateSchedule else Idle, if ok then Staged else Deferred;
      Note(Proceed(outcome, lag), before);
    }

    // Puts the old binary back in place of the one that will not be started.
    method PutBack(works: bool)
      requires Valid() && update.Deferred?
      modifies this`update, this`history
      ensures Valid() && old(history) <= history
      ensures update == if works then NoUpdate else Deferred
    {
      ghost var before := View();
      if works {
        update := NoUpdate;
      }
      Note(RestoreBinary(works), before);
    }

    /** Stages a new binary, checks again under the lock, and schedules the restart. */
    method UpdatePanel(turns: nat -> Turn, restoreWorks: bool) returns (reply: Reply)
      requires Valid() && pc.Idle?
      modifies this
      ensures Valid() && old(history) <= history && pc.Idle?
      ensures reply.Refused? ==> View() == old(View())
      ensures reply.Refused? <==> UpdateBlocked(old(View()))
      ensures reply.Failed? ==> update == (if restoreWorks then NoUpdate else Deferred) && restarts == old(restarts)
      ensures reply.Accepted? ==> update.NoUpdate? && restarts == old(restarts) + [now]
      ensures !reply.Awaiting?
      ensures AllSmooth(turns) && !reply.Refused? ==> reply.Accepted?
    {
      if AnyPending() {
        return Refused;
      }
      StageBinary();
      var t := turns(0);
      var alive := TakeTurn(t, None);
      if !alive {
        return Crashed;
      }
      reply := RestartUnderLock(turns);
      if reply.Failed? {
        PutBack(restoreWorks);
      }
    }

    method RestartUnderLock(turns: nat -> Turn) returns (reply: Reply)
      requires Valid() && pc.Idle? && update.Staged?
      modifies this
      ensures Valid() && old(history) <= history && pc.Idle?
      ensures reply.Failed? ==> update.Deferred? && restarts == old(restarts)
      ensures reply.Accepted? ==> update.NoUpdate? && restarts == old(restarts) + [now]
      ensures reply.Accepted? || reply.Failed? || reply.Crashed?
      ensures AllSmooth(turns) && !UpdateBlocked(old(View())) ==> reply.Accepted?
    {
      LockForRestart();
      var t := turns(1);
      var alive := TakeTurn(t, None);
      if !alive {
        return Crashed;
      }
      var ok := CheckAgain(t.outcome, t.lag);
      if !ok {
        return Failed;
      }
      reply := ScheduleRestart(turns);
    }

    method ScheduleRestart(turns: nat -> Turn) returns (reply: Reply)
      requires Valid() && pc.UpdateSchedule?
      modifies this
      ensures Valid() && old(history) <= history && pc.Idle?
      ensures reply.Failed? ==> update.Deferred? && restarts == old(restarts)
      ensures reply.Accepted? ==> update.NoUpdate? && restarts == old(restarts) + [now]
      ensures reply.Accepted? || reply.Failed? || reply.Crashed?
      ensures AllSmooth(turns) ==> reply.Accepted?
    {
      var t := turns(2);
      var alive := TakeTurn(t, None);
      if !alive {
        return Crashed;
      }
      var ok := CommitRestart(t.outcome, t.lag);
      return if ok then Accepted else Failed;
    }

    method CommitRestart(outcome: Outcome, lag: nat) returns (ok: bool)
      requires Valid() && pc.UpdateSchedule?
      modifies this`restarts, this`pc, this`update, this`history
      ensures Valid() && old(history) <= history && pc.Idle?
      ensures if ok then update.NoUpdate? && restarts == old(restarts) + [now] else update.Deferred? && restarts == old(restarts)
      ensures ok <==> outcome.Done?
    {
      ghost var before := View();
      ok := outcome.Done?;
      if ok {
        restarts := restarts + [now];
      }
      pc, update := Idle, if ok then NoUpdate else Deferred;
      Note(Proceed(outcome, lag), before);
    }
  }
}
