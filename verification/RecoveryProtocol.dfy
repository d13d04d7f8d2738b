/**
 The armed-undo protocol as a state machine.

 A risky change arms a native timer that holds its inverse, edits the runtime
 layer, edits the permanent layer and stores a pending record; a later
 confirmation re-checks the rules, stages metadata, stops the timer, re-checks
 and clears the record.  Between any two steps the clock may advance, a timer
 may run one of its commands, another manager may edit the host, and the panel
 may crash.  The panel's firewall mutex is the program counter being not idle.

 A helper that edits the host is a unit of its own.  When its handler crashes or
 stops waiting for it, it is left over: it goes on, step by step, and nobody
 learns how it ends.

 Every event is defined in every state; one that is not enabled changes nothing.
 */
module RecoveryProtocol {
  import opened Common
  import opened FirewallRules
  import opened FirewallText
  import opened FirewallHost

  // Milliseconds.
  const HANDLER_BUDGET := 100_000
  const SCHEDULER_BUDGET := 12_000
  const RESTORE_AFTER := 120_000
  const UPDATE_GRACE := 60_000

  // ----- Operations -----

  datatype Kind =
    | RemoveAllow | PauseAllow | AddDrop | RemoveDrop | PauseDrop | EditExternal  // armed
    | AddAllow | ResumeAllow | ResumeDrop                                          // not armed
  {
    predicate IsArmed() {
      !AddAllow? && !ResumeAllow? && !ResumeDrop?
    }

    predicate OnDrop() {
      AddDrop? || RemoveDrop? || PauseDrop? || ResumeDrop?
    }
  }

  /** A request on the rule id; only an external edit has a destination of its own. */
  datatype Op = Op(kind: Kind, id: Native, dest: Native)

  predicate WellFormed(op: Op) {
    && Valid(op.id) && Valid(op.dest)
    && (if op.kind.OnDrop() then IsDrop(op.id) else op.id.OpenPort?)
    && (if op.kind.EditExternal? then op.dest.OpenPort? && op.dest.zone == op.id.zone && op.dest != op.id
        else op.dest == op.id)
  }

  // One helper call.
  datatype Change = Change(add: bool, rule: Native)

  function Changes(op: Op): (cs: seq<Change>)
    ensures |cs| >= 1
  {
    match op.kind
    case RemoveAllow | PauseAllow | RemoveDrop | PauseDrop => [Change(false, op.id)]
    case AddDrop | AddAllow | ResumeAllow | ResumeDrop => [Change(true, op.id)]
    case EditExternal => [Change(true, op.dest), Change(false, op.id)]
  }

  ghost predicate Admits(h: Host, c: Change) {
    || (c.rule.OpenPort? && AdmitsAllow(h, c.add, c.rule))
    || (IsDrop(c.rule) && AdmitsDrop(h, c.add, c.rule))
  }

  // ----- Timers -----

  datatype Cmd = Cmd(layer: Layer, rule: Native, present: bool)

  function Run(h: Host, c: Cmd): Host {
    h.Set(c.layer, c.rule, c.present)
  }

  function RestoreScript(n: Native): seq<Cmd> {
    [Cmd(Runtime, n, true), Cmd(Permanent, n, true)]
  }

  function DropUndoScript(add: bool, n: Native): seq<Cmd> {
    [Cmd(Runtime, n, add), Cmd(Permanent, n, add)]
  }

  function EditUndoScript(original: Native, replacement: Native): seq<Cmd> {
    [Cmd(Runtime, original, true), Cmd(Permanent, original, true),
     Cmd(Runtime, replacement, false), Cmd(Permanent, replacement, false)]
  }

  // The script each handler schedules before it touches anything.
  function UndoScript(op: Op): seq<Cmd> {
    match op.kind
    case RemoveAllow | PauseAllow => RestoreScript(op.id)
    case AddDrop => DropUndoScript(false, op.id)
    case RemoveDrop | PauseDrop => DropUndoScript(true, op.id)
    case EditExternal => EditUndoScript(op.id, op.dest)
    case AddAllow | ResumeAllow | ResumeDrop => []
  }

  /** Broken: a command of the script failed, which ends the script. */
  datatype Status = Waiting | Running(next: nat) | Finished | Broken | Stopped

  datatype Timer = Timer(script: seq<Cmd>, fireAt: int, deadline: int, status: Status)
  {
    predicate Live() {
      status.Waiting? || status.Running?
    }
  }

  // ----- Settings -----

  datatype Pending = Pending(op: Op, token: nat, timer: nat, deadline: int)

  datatype Settings = Settings(
    owned: set<Native>,
    paused: map<Native, Native>,
    pending: map<Native, Pending>,
    note: map<Native, string>,
    purpose: map<Native, string>)

  datatype Write =
    | Disown(rule: Native)
    | SetNote(rule: Native, text: string)
    | SetPurpose(rule: Native, text: string)
    | DropPending(rule: Native)
    | DropPaused(rule: Native)

  function Annotation(m: map<Native, string>, n: Native): string {
    if n in m then m[n] else ""
  }

  function Store(db: Settings, w: Write): Settings {
    match w
    case Disown(n) => db.(owned := db.owned - {n})
    case SetNote(n, text) => db.(note := db.note[n := text])
    case SetPurpose(n, text) => db.(purpose := db.purpose[n := text])
    case DropPending(n) => db.(pending := db.pending - {n})
    case DropPaused(n) => db.(paused := db.paused - {n})
  }

  // What a successful confirmation writes once the timer is stopped.
  function FinalWrites(p: Pending, db: Settings): (ws: seq<Write>)
    ensures |ws| >= 1
  {
    var n := p.op.id;
    match p.op.kind
    case EditExternal =>
      (if Annotation(db.note, n) == "" then [] else [SetNote(p.op.dest, Annotation(db.note, n)), SetNote(n, "")]) +
      (if Annotation(db.purpose, n) == "" then [] else [SetPurpose(p.op.dest, Annotation(db.purpose, n)), SetPurpose(n, "")]) +
      [DropPending(n)]
    case RemoveAllow | RemoveDrop => [Disown(n), SetNote(n, ""), SetPurpose(n, ""), DropPending(n), DropPaused(n)]
    case _ => [DropPending(n)]
  }

  predicate IsStaged(kind: Kind) {
    kind.PauseAllow? || kind.PauseDrop? || kind.AddDrop?
  }

  function Stage(db: Settings, op: Op): Settings {
    match op.kind
    case PauseAllow | PauseDrop => db.(paused := db.paused[op.id := op.id])
    case AddDrop => db.(owned := db.owned + {op.id})
    case _ => db
  }

  function Unstage(db: Settings, op: Op): Settings {
    match op.kind
    case PauseAllow | PauseDrop => db.(paused := db.paused - {op.id})
    case AddDrop => db.(owned := db.owned - {op.id})
    case _ => db
  }

  // ----- State -----

  datatype Phase = Check | RuntimeStep | PermanentStep | Compensate

  datatype Pc =
    | Idle
    | Arming(op: Op, started: int)
    | Applying(op: Op, timer: Option<nat>, started: int, step: nat, phase: Phase)
    | Verifying(op: Op, unit: nat, started: int)
    | Saving(op: Op, unit: nat)
    | Settling(op: Op)
    | Undoing(op: Op, phase: Phase)
    | Staging(p: Pending, seen: Host)
    | Cancelling(p: Pending, seen: Host)
    | Unstaging(p: Pending)
    | Reverifying(p: Pending)
    | Clearing(p: Pending, todo: seq<Write>)
    | UpdateCheck
    | UpdateSchedule

  /** A helper whose handler is gone: what it changes, for which operation, and
      its next phase, none once it has ended. */
  datatype Left = Left(op: Op, timer: Option<nat>, change: Change, phase: Option<Phase>)

  /** A panel binary that is staged, or that was and will not be started: its
      update was refused, and the old binary is yet to be put back. */
  datatype Update = NoUpdate | Staged | Deferred

  datatype State = State(
    host: Host,
    db: Settings,
    timers: map<nat, Timer>,
    nextUnit: nat,
    nextToken: nat,
    now: int,
    pc: Pc,
    left: seq<Left>,
    update: Update,
    restarts: seq<int>)     // the moments at which a restart was scheduled

  /** What a request learns from outside the modelled state. */
  datatype Env = Env(
    readable: bool, writable: bool,
    listenersKnown: bool, listeners: set<nat>,
    criticalKnown: bool, critical: set<nat>,
    panelPort: nat,
    xrayOwned: bool,
    revisionCurrent: bool)

  datatype Outcome = Done | FailedClean | FailedApplied

  datatype Event =
    | Tick(ms: nat)
    | Fire(unit: nat, outcome: Outcome)
    | External(host: Host)
    | Crash
    | Abandon
    | Leftover(index: nat, outcome: Outcome)
    | Begin(op: Op, env: Env)
    | Confirm(id: Native, token: nat, readable: bool)
    | Proceed(outcome: Outcome, lag: nat)
    | StageUpdate
    | LockForUpdate
    | RestoreBinary(works: bool)

  // ----- Guards of the requests -----

  function AllowId(n: Native): Native
    requires !n.UfwPort?
  {
    OpenPort(n.zone, n.FirstPort(), n.protocol)
  }

  function DropId(n: Native): Native
    requires !n.UfwPort?
  {
    RichPort(n.zone, n.FirstPort(), n.protocol, Deny, Both)
  }

  predicate PendingBlocks(s: State, n: Native) {
    n in s.db.pending && s.now < s.db.pending[n].deadline
  }

  predicate Protected(env: Env, port: nat) {
    port == 22 || port == env.panelPort || !env.criticalKnown || port in env.critical
  }

  predicate Listening(env: Env, port: nat) {
    !env.listenersKnown || port in env.listeners
  }

  predicate AcceptsRuleChange(s: State, op: Op, env: Env)
    requires WellFormed(op) && op.id.OpenPort?
  {
    && env.readable && env.writable
    && !PendingBlocks(s, op.id)
    && (op.kind.RemoveAllow? ==> op.id in s.db.owned && !Protected(env, op.id.port) && !Listening(env, op.id.port))
  }

  ghost predicate AcceptsControl(s: State, op: Op, env: Env)
    requires WellFormed(op) && !op.id.UfwPort? && !op.id.OpenRange?
  {
    var n := op.id;
    var matching := s.host.Governing(n.port, n.protocol);
    && env.readable && env.writable
    && n.zone !in s.host.opaqueZones && n.zone in s.host.zones
    && !PendingBlocks(s, AllowId(n)) && !PendingBlocks(s, DropId(n))
    && (forall m :: m in matching ==> m.Zone() == n.zone && !s.host.Conflicting(m))
    && |matching| <= 1
    && !Protected(env, n.port)
    && (op.kind.AddDrop? || n in s.db.owned)
    && (op.kind.AddDrop? || op.kind.ResumeDrop? ==> !Listening(env, n.port))
    && (op.kind.PauseAllow? ==> env.listenersKnown && (n.port in env.listeners ==> env.xrayOwned))
    && match op.kind
       case AddDrop => matching == {} && AllowId(n) !in s.db.paused && DropId(n) !in s.db.paused
       case RemoveDrop => matching == {n} && s.host.Everywhere(n)
       case PauseDrop | PauseAllow => matching == {n} && s.host.Everywhere(n) && n !in s.db.paused
       case ResumeAllow | ResumeDrop => matching == {} && n in s.db.paused && s.db.paused[n] == n
       case _ => false
  }

  ghost predicate AcceptsEdit(s: State, op: Op, env: Env)
    requires WellFormed(op) && op.id.OpenPort? && op.dest.OpenPort?
  {
    var n, d := op.id, op.dest;
    && env.readable && env.writable && env.revisionCurrent
    && n in s.host.Visible() && s.host.Everywhere(n) && !s.host.Conflicting(n)
    && n.zone !in s.host.opaqueZones
    && !Protected(env, n.port) && !Protected(env, d.port)
    && n !in s.db.owned && d !in s.db.owned
    && !PendingBlocks(s, n) && !PendingBlocks(s, d)
    && Annotation(s.db.note, d) == "" && Annotation(s.db.purpose, d) == "" && d !in s.db.paused
    && (forall m :: m in s.host.Visible() && m != n ==> !SameSocket(m, n) && !(m.ContainsPort(d.port) && m.protocol == d.protocol))
    && !Listening(env, n.port) && !Listening(env, d.port)
  }

  ghost predicate Accepts(s: State, op: Op, env: Env) {
    WellFormed(op) &&
    match op.kind
    case RemoveAllow | AddAllow => AcceptsRuleChange(s, op, env)
    case EditExternal => AcceptsEdit(s, op, env)
    case _ => AcceptsControl(s, op, env)
  }

  // ----- Guards of a confirmation -----

  predicate SameSocket(m: Native, n: Native) {
    m.Zone() == n.Zone() && m.Port() == n.Port() && m.protocol == n.protocol
  }

  // The rules are in the state the change announced.
  ghost predicate Announced(p: Pending, h: Host) {
    var n, d := p.op.id, p.op.dest;
    if p.op.kind.EditExternal? then
      && n.OpenPort? && d.OpenPort? && n.zone == d.zone && n != d
      && n !in h.Visible()
      && d in h.Visible() && h.Everywhere(d) && !h.Conflicting(d)
      && forall m :: m in h.Visible() && m != d ==> !SameSocket(m, n) && !SameSocket(m, d)
    else
      // A plain removal records no rule to compare its socket with.
      && (!p.op.kind.RemoveAllow? ==> forall m :: m in h.Visible() && m != n ==> !SameSocket(m, n))
      && (n in h.Visible() <==> p.op.kind.AddDrop?)
      && (p.op.kind.AddDrop? ==> h.Everywhere(n) && !h.Conflicting(n))
  }

  ghost predicate ConfirmAccepted(s: State, id: Native, token: nat, readable: bool) {
    && id in s.db.pending
    && s.db.pending[id].op.id == id
    && s.db.pending[id].token == token
    && s.now < s.db.pending[id].deadline
    && readable
    && Announced(s.db.pending[id], s.host)
  }

  // ----- Steps -----

  // Assumption: a timer has run to its end once its announced deadline passes.
  predicate MayAdvance(s: State, ms: nat) {
    forall u :: u in s.timers && s.timers[u].Live() ==> s.now + ms < s.timers[u].deadline
  }

  function FireStep(s: State, u: nat, outcome: Outcome): State
    requires u in s.timers
  {
    var t := s.timers[u];
    match t.status
    case Waiting =>
      if s.now < t.fireAt then s
      else s.(timers := s.timers[u := t.(status := if t.script == [] then Finished else Running(0))])
    case Running(k) =>
      if k >= |t.script| then s
      else
        var host := if outcome.FailedClean? then s.host else Run(s.host, t.script[k]);
        var status := if !outcome.Done? then Broken else if k + 1 == |t.script| then Finished else Running(k + 1);
        s.(host := host, timers := s.timers[u := t.(status := status)])
    case _ => s
  }

  datatype Helper = Continue(phase: Phase) | Succeeded | GaveUp

  // One step of a helper that performs a change: inspect, edit the runtime
  // layer, edit the permanent layer, and undo the first edit if that fails.
  ghost function HelperStep(h: Host, c: Change, phase: Phase, outcome: Outcome): (Host, Helper) {
    var effective := !outcome.FailedClean?;
    match phase
    case Check => (h, if outcome.Done? && Admits(h, c) then Continue(RuntimeStep) else GaveUp)
    case RuntimeStep =>
      (if effective then h.Set(Runtime, c.rule, c.add) else h, if outcome.Done? then Continue(PermanentStep) else GaveUp)
    case PermanentStep =>
      (if effective then h.Set(Permanent, c.rule, c.add) else h, if outcome.Done? then Succeeded else Continue(Compensate))
    case Compensate =>
      (if effective then h.Set(Runtime, c.rule, !c.add) else h, GaveUp)
  }

  // The helper a handler is waiting for.
  function Attached(pc: Pc): Option<Left> {
    if pc.Applying? && pc.step < |Changes(pc.op)| then Some(Left(pc.op, pc.timer, Changes(pc.op)[pc.step], Some(pc.phase)))
    else if pc.Undoing? then Some(Left(pc.op, None, Change(false, pc.op.id), Some(pc.phase)))
    else None
  }

  // The helpers that go on when the handler does not.
  function Detached(s: State): seq<Left> {
    match Attached(s.pc)
    case None => s.left
    case Some(l) => s.left + [l]
  }

  function LeaveHelper(s: State): State {
    s.(pc := Idle, left := Detached(s))
  }

  ghost function LeftStep(s: State, i: nat, outcome: Outcome): State
    requires i < |s.left|
  {
    var l := s.left[i];
    match l.phase
    case None => s
    case Some(phase) =>
      var (host, helper) := HelperStep(s.host, l.change, phase, outcome);
      s.(host := host, left := s.left[i := l.(phase := if helper.Continue? then Some(helper.phase) else None)])
  }

  predicate Expired(s: State, started: int) {
    s.now > started + HANDLER_BUDGET
  }

  // What the scheduling call takes, which is never nothing.
  function CallTime(lag: nat): nat {
    if lag < 1 then 1 else if lag < SCHEDULER_BUDGET then lag else SCHEDULER_BUDGET
  }

  function ArmStep(s: State, outcome: Outcome, lag: nat): State
    requires s.pc.Arming?
  {
    var op, started := s.pc.op, s.pc.started;
    if Expired(s, started) || outcome.FailedClean? then s.(pc := Idle)
    else
      var deadline := s.now + RESTORE_AFTER;
      var timer := Timer(UndoScript(op), deadline - CallTime(lag), deadline, Waiting);
      s.(timers := s.timers[s.nextUnit := timer],
         nextUnit := s.nextUnit + 1,
         pc := if outcome.Done? then Applying(op, Some(s.nextUnit), started, 0, Check) else Idle)
  }

  function AfterChanges(pc: Pc): Pc
    requires pc.Applying?
  {
    match pc.timer
    case None => Settling(pc.op)
    case Some(u) => if pc.op.kind.EditExternal? then Verifying(pc.op, u, pc.started) else Saving(pc.op, u)
  }

  ghost function ApplyStep(s: State, outcome: Outcome): State
    requires s.pc.Applying?
  {
    var pc := s.pc;
    if Expired(s, pc.started) || pc.step >= |Changes(pc.op)| then LeaveHelper(s)
    else
      var (host, helper) := HelperStep(s.host, Changes(pc.op)[pc.step], pc.phase, outcome);
      s.(host := host,
         pc := match helper
               case Continue(phase) => Applying(pc.op, pc.timer, pc.started, pc.step, phase)
               case GaveUp => Idle
               case Succeeded => if pc.step + 1 < |Changes(pc.op)| then Applying(pc.op, pc.timer, pc.started, pc.step + 1, Check)
                                 else AfterChanges(pc))
  }

  ghost predicate EditLanded(h: Host, op: Op) {
    op.id !in h.Visible() && op.dest in h.Visible() && h.Everywhere(op.dest) && !h.Conflicting(op.dest)
  }

  ghost function VerifyStep(s: State, outcome: Outcome): State
    requires s.pc.Verifying?
  {
    var ok := outcome.Done? && !Expired(s, s.pc.started) && EditLanded(s.host, s.pc.op);
    s.(pc := if ok then Saving(s.pc.op, s.pc.unit) else Idle)
  }

  function SaveStep(s: State, outcome: Outcome): State
    requires s.pc.Saving?
  {
    var op, u := s.pc.op, s.pc.unit;
    if outcome.Done? && u in s.timers then
      var record := Pending(op, s.nextToken, u, s.timers[u].deadline);
      s.(db := s.db.(pending := s.db.pending[op.id := record]), nextToken := s.nextToken + 1, pc := Idle)
    else s.(pc := Idle)
  }

  function SettleStep(s: State, outcome: Outcome): State
    requires s.pc.Settling?
  {
    var op := s.pc.op;
    if !outcome.Done? then s.(pc := Undoing(op, Check))
    else if op.kind.AddAllow? then s.(db := s.db.(owned := s.db.owned + {op.id}), pc := Idle)
    else s.(db := s.db.(paused := s.db.paused - {op.id}), pc := Idle)
  }

  ghost function UndoStep(s: State, outcome: Outcome): State
    requires s.pc.Undoing?
  {
    var (host, helper) := HelperStep(s.host, Change(false, s.pc.op.id), s.pc.phase, outcome);
    s.(host := host, pc := if helper.Continue? then Undoing(s.pc.op, helper.phase) else Idle)
  }

  function StageStep(s: State, outcome: Outcome): State
    requires s.pc.Staging?
  {
    var p := s.pc.p;
    if !IsStaged(p.op.kind) then s.(pc := Cancelling(p, s.pc.seen))
    else if outcome.Done? then s.(db := Stage(s.db, p.op), pc := Cancelling(p, s.pc.seen))
    else s.(pc := Idle)
  }

  // A timer is stopped before it starts; once its script runs, stopping the
  // timer succeeds and the script goes on.
  function Stop(t: Timer): Timer {
    if t.status.Waiting? then t.(status := Stopped) else t
  }

  // Assumption: a failed cancellation did not stop the timer.
  function CancelStep(s: State, outcome: Outcome): State
    requires s.pc.Cancelling?
  {
    var p := s.pc.p;
    if outcome.Done? && p.timer in s.timers && s.timers[p.timer].Live() then
      s.(timers := s.timers[p.timer := Stop(s.timers[p.timer])], pc := Reverifying(p))
    else s.(pc := if IsStaged(p.op.kind) then Unstaging(p) else Idle)
  }

  function UnstageStep(s: State, outcome: Outcome): State
    requires s.pc.Unstaging?
  {
    s.(db := if outcome.Done? then Unstage(s.db, s.pc.p.op) else s.db, pc := Idle)
  }

  ghost function ReverifyStep(s: State, outcome: Outcome): State
    requires s.pc.Reverifying?
  {
    var p := s.pc.p;
    s.(pc := if outcome.Done? && Announced(p, s.host) then Clearing(p, FinalWrites(p, s.db)) else Idle)
  }

  function ClearStep(s: State, outcome: Outcome): State
    requires s.pc.Clearing?
  {
    var todo := s.pc.todo;
    if !outcome.Done? || todo == [] then s.(pc := Idle)
    else s.(db := Store(s.db, todo[0]), pc := if |todo| == 1 then Idle else s.pc.(todo := todo[1..]))
  }

  // Some pending change is inside its deadline plus grace.
  predicate UpdateBlocked(s: State) {
    exists n :: n in s.db.pending && s.now < s.db.pending[n].deadline + UPDATE_GRACE
  }

  // A refused update leaves its binary staged until it is restored.
  function UpdateStep(s: State, outcome: Outcome): State
    requires s.pc.UpdateCheck? || s.pc.UpdateSchedule?
  {
    if s.pc.UpdateCheck? then
      if outcome.Done? && !UpdateBlocked(s) then s.(pc := UpdateSchedule)
      else s.(pc := Idle, update := Deferred)
    else if outcome.Done? then s.(pc := Idle, update := NoUpdate, restarts := s.restarts + [s.now])
    else s.(pc := Idle, update := Deferred)
  }

  ghost function HandlerStep(s: State, outcome: Outcome, lag: nat): State {
    match s.pc
    case Idle => s
    case Arming(_, _) => ArmStep(s, outcome, lag)
    case Applying(_, _, _, _, _) => ApplyStep(s, outcome)
    case Verifying(_, _, _) => VerifyStep(s, outcome)
    case Saving(_, _) => SaveStep(s, outcome)
    case Settling(_) => SettleStep(s, outcome)
    case Undoing(_, _) => UndoStep(s, outcome)
    case Staging(_, _) => StageStep(s, outcome)
    case Cancelling(_, _) => CancelStep(s, outcome)
    case Unstaging(_) => UnstageStep(s, outcome)
    case Reverifying(_) => ReverifyStep(s, outcome)
    case Clearing(_, _) => ClearStep(s, outcome)
    case UpdateCheck => UpdateStep(s, outcome)
    case UpdateSchedule => UpdateStep(s, outcome)
  }

  function Dispatch(s: State, op: Op): State {
    s.(pc := if op.kind.IsArmed() then Arming(op, s.now) else Applying(op, None, s.now, 0, Check))
  }

  ghost function Next(s: State, e: Event): State {
    match e
    case Tick(ms) => if MayAdvance(s, ms) then s.(now := s.now + ms) else s
    case Fire(u, outcome) => if u in s.timers then FireStep(s, u, outcome) else s
    case External(host) => s.(host := host)
    case Crash => LeaveHelper(s)
    case Abandon => if s.pc.Applying? || s.pc.Undoing? then LeaveHelper(s) else s
    case Leftover(i, outcome) => if i < |s.left| then LeftStep(s, i, outcome) else s
    case Begin(op, env) => if s.pc.Idle? && Accepts(s, op, env) then Dispatch(s, op) else s
    case Confirm(id, token, readable) =>
      if s.pc.Idle? && ConfirmAccepted(s, id, token, readable) then s.(pc := Staging(s.db.pending[id], s.host)) else s
    case Proceed(outcome, lag) => HandlerStep(s, outcome, lag)
    case StageUpdate => if UpdateBlocked(s) then s else s.(update := Staged)
    case LockForUpdate => if s.pc.Idle? && s.update.Staged? then s.(pc := UpdateCheck) else s
    case RestoreBinary(works) => if s.update.Deferred? && works then s.(update := NoUpdate) else s
  }

  // ----- Runs -----

  // The state after the first i events.
  ghost function At(s: State, events: seq<Event>, i: nat): State
    requires i <= |events|
  {
    if i == 0 then s else Next(At(s, events, i - 1), events[i - 1])
  }

  ghost predicate Initial(s: State) {
    s.timers == map[] && s.db.pending == map[] && s.pc.Idle? && s.left == [] && s.nextUnit == 0 && s.nextToken == 0 && s.restarts == []
  }
}
