/**
 One account through a run: traffic ticks that may fail after the traffic was
 recorded, resets, switches and edits, in any order.
 */
module AccountRuns {
  import opened Common
  import opened Accounts

  /** What reaches one account.  A tick whose traffic was not recorded does
      nothing; one that was not persisted leaves the recorded traffic only. */
  datatype Act =
    | Tick(up: nat, down: nat, recorded: bool, persisted: bool, now: int, month: nat)
    | Reset(now: int, persisted: bool)
    | Switch(on: bool, now: int, persisted: bool)
    | Edit(name: string, on: bool, port: int, tag: string, body: Body, quota: int, expiry: int, monthly: bool,
           now: int, month: nat, persisted: bool)

  function Recorded(a: Account, up: nat, down: nat, now: int): Account {
    if up == 0 && down == 0 then a
    else a.(up := a.up + up, down := a.down + down, allTime := a.allTime + up + down, updated := now)
  }

  function ResetByHand(a: Account, now: int): Account {
    Returned(a.(up := 0, down := 0, updated := now), now)
  }

  predicate MaySwitchOn(a: Account, now: int) {
    !Expired(a, now) && !OverQuota(a)
  }

  function Switched(a: Account, on: bool, now: int): Account {
    if a.enabled == on || (on && !MaySwitchOn(a, now)) then a
    else a.(enabled := on, reason := if on then Unset else Manual, updated := now)
  }

  function CycleStarted(a: Account, newly: bool, month: nat): Account {
    if a.monthly && (newly || a.lastReset.None?) then a.(lastReset := Some(month)) else a
  }

  // An edit that leaves a suspended account off keeps why it was off.
  function Edited(a: Account, e: Act): Account
    requires e.Edit?
  {
    var b := a.(name := e.name, enabled := e.on, port := e.port, tag := e.tag, body := e.body,
                quota := e.quota, expiry := e.expiry, monthly := e.monthly, updated := e.now,
                reason := if e.on then Unset else if a.enabled then ReasonAfterEdit(a.reason) else a.reason);
    CycleStarted(b, !a.monthly, e.month)
  }

  function ReasonAfterEdit(r: Reason): Reason {
    if r.Unset? || r.Quota? || r.Expiry? then Manual else r
  }

  function Step(a: Account, act: Act): Account {
    match act
    case Tick(up, down, recorded, persisted, now, month) =>
      if !recorded then a
      else if !persisted then Recorded(a, up, down, now)
      else Ticked(Recorded(a, up, down, now), now, month)
    case Reset(now, persisted) => if persisted then ResetByHand(a, now) else a
    case Switch(on, now, persisted) => if persisted then Switched(a, on, now) else a
    case Edit(_, _, _, _, _, _, _, _, _, _, persisted) => if persisted then Edited(a, act) else a
  }

  function Play(a: Account, acts: seq<Act>): Account
    decreases |acts|
  {
    if acts == [] then a else Step(Play(a, acts[..|acts| - 1]), acts[|acts| - 1])
  }

  // ----- Lifetime traffic is conserved -----

  function Accepted(acts: seq<Act>): nat
    decreases |acts|
  {
    if acts == [] then 0
    else
      var act := acts[|acts| - 1];
      Accepted(acts[..|acts| - 1]) + if act.Tick? && act.recorded then act.up + act.down else 0
  }

  lemma StepAdds(a: Account, act: Act)
    ensures Step(a, act).allTime == a.allTime + if act.Tick? && act.recorded then act.up + act.down else 0
  {
  }

  // Lifetime bytes are the start value plus everything Xray reported and the
  // store accepted, whatever else happened and whichever ticks then failed.
  lemma {:induction false} LifetimeConserved(a: Account, acts: seq<Act>)
    ensures Play(a, acts).allTime == a.allTime + Accepted(acts)
    decreases |acts|
  {
    if acts != [] {
      LifetimeConserved(a, acts[..|acts| - 1]);
      StepAdds(Play(a, acts[..|acts| - 1]), acts[|acts| - 1]);
    }
  }

  // ----- Monthly resets -----

  predicate Persists(act: Act) {
    act.Tick? && act.recorded && act.persisted
  }

  predicate IsDated(act: Act) {
    act.Tick? || act.Edit?
  }

  // Time, and with it the month, never goes back, and starts at the month the
  // account has accounted.
  predicate Ordered(acts: seq<Act>, since: Option<nat>) {
    && (forall i :: 0 <= i < |acts| && IsDated(acts[i]) && since.Some? ==> since.value <= acts[i].month)
    && forall i, j :: 0 <= i < j < |acts| && IsDated(acts[i]) && IsDated(acts[j]) ==> acts[i].month <= acts[j].month
  }

  // The monthly policy acts in this step: a tick moves the accounted month.
  predicate Resets(a: Account, act: Act) {
    act.Tick? && Step(a, act).lastReset != a.lastReset
  }

  function ResetsOf(a: Account, acts: seq<Act>): nat
    decreases |acts|
  {
    if acts == [] then 0
    else ResetsOf(a, acts[..|acts| - 1]) + if Resets(Play(a, acts[..|acts| - 1]), acts[|acts| - 1]) then 1 else 0
  }

  // In such a step both counters read zero.
  lemma ResetZeroes(a: Account, act: Act)
    requires Resets(a, act)
    ensures Persists(act) && NewMonth(a, act.month)
    ensures Step(a, act).up == 0 && Step(a, act).down == 0 && Step(a, act).lastReset == Some(act.month)
  {
  }

  // The act settles the traffic of its month: a tick under the policy, or an
  // edit with which a cycle starts.
  predicate Settles(a: Account, act: Act) {
    || (Persists(act) && a.monthly && a.lastReset.Some?)
    || (act.Edit? && act.persisted && act.monthly && (!a.monthly || a.lastReset.None?))
  }

  // The accounted month moves with nothing else.
  lemma SettlingMoves(a: Account, act: Act)
    ensures Step(a, act).lastReset == if Settles(a, act) then Some(act.month) else a.lastReset
  {
  }

  function Settled(a: Account, acts: seq<Act>): set<nat>
    decreases |acts|
  {
    if acts == [] then if a.lastReset.Some? then {a.lastReset.value} else {}
    else
      var act := acts[|acts| - 1];
      Settled(a, acts[..|acts| - 1]) + if Settles(Play(a, acts[..|acts| - 1]), act) then {act.month} else {}
  }

  // The months that a tick was the first to settle.
  function FirstByTick(a: Account, acts: seq<Act>): set<nat>
    decreases |acts|
  {
    if acts == [] then {}
    else
      var rest, act := acts[..|acts| - 1], acts[|acts| - 1];
      FirstByTick(a, rest) +
      if act.Tick? && Settles(Play(a, rest), act) && act.month !in Settled(a, rest) then {act.month} else {}
  }

  lemma OrderedPrefix(acts: seq<Act>, since: Option<nat>)
    requires acts != [] && Ordered(acts, since)
    ensures Ordered(acts[..|acts| - 1], since)
  {
  }

  // The accounted month is the newest settled one, and no later act is older.
  lemma {:induction false} AccountedIsNewest(a: Account, acts: seq<Act>, bound: nat)
    requires Ordered(acts, a.lastReset)
    requires forall i :: 0 <= i < |acts| && IsDated(acts[i]) ==> acts[i].month <= bound
    requires a.lastReset.Some? ==> a.lastReset.value <= bound
    ensures var b := Play(a, acts);
            if b.lastReset.None? then Settled(a, acts) == {}
            else b.lastReset.value in Settled(a, acts) && b.lastReset.value <= bound
    ensures var b := Play(a, acts); b.lastReset.Some? ==> forall m :: m in Settled(a, acts) ==> m <= b.lastReset.value
    decreases |acts|
  {
    if acts != [] {
      var rest, act := acts[..|acts| - 1], acts[|acts| - 1];
      OrderedPrefix(acts, a.lastReset);
      AccountedIsNewest(a, rest, if IsDated(act) then act.month else bound);
      SettlingMoves(Play(a, rest), act);
    }
  }

  // A tick resets exactly when it is the first to settle its month.
  lemma ResetIsFirstTick(a: Account, rest: seq<Act>, act: Act)
    requires Ordered(rest + [act], a.lastReset)
    ensures Resets(Play(a, rest), act) <==>
            act.Tick? && Settles(Play(a, rest), act) && act.month !in Settled(a, rest)
  {
    var acts := rest + [act];
    assert acts[..|acts| - 1] == rest && acts[|acts| - 1] == act;
    assert forall i :: 0 <= i < |rest| ==> rest[i] == acts[i];
    OrderedPrefix(acts, a.lastReset);
    if act.Tick? {
      AccountedIsNewest(a, rest, act.month);
      if Resets(Play(a, rest), act) {
        ResetZeroes(Play(a, rest), act);
      }
    }
  }

  lemma {:induction false} FirstIsSettled(a: Account, acts: seq<Act>)
    ensures FirstByTick(a, acts) <= Settled(a, acts)
    decreases |acts|
  {
    if acts != [] {
      FirstIsSettled(a, acts[..|acts| - 1]);
    }
  }

  // However the policy is switched off and on, it zeroes the counters exactly
  // once for every month that a tick was the first to settle.
  lemma {:induction false} OneResetPerSettledMonth(a: Account, acts: seq<Act>)
    requires Ordered(acts, a.lastReset)
    ensures ResetsOf(a, acts) == |FirstByTick(a, acts)|
    decreases |acts|
  {
    if acts != [] {
      var rest, act := acts[..|acts| - 1], acts[|acts| - 1];
      assert rest + [act] == acts;
      OrderedPrefix(acts, a.lastReset);
      OneResetPerSettledMonth(a, rest);
      ResetIsFirstTick(a, rest, act);
      FirstIsSettled(a, rest);
      OneMore(FirstByTick(a, rest), if act.Tick? then act.month else 0);
    }
  }

  lemma OneMore(s: set<nat>, m: nat)
    ensures |s + {m}| == |s| + if m in s then 0 else 1
    ensures s + {} == s
  {
    if m in s {
      assert s + {m} == s;
    }
  }

  // ----- A policy that stays on -----

  function MonthsSeen(acts: seq<Act>): set<nat>
    decreases |acts|
  {
    if acts == [] then {}
    else
      var act := acts[|acts| - 1];
      MonthsSeen(acts[..|acts| - 1]) + if Persists(act) then {act.month} else {}
  }

  predicate StaysMonthly(acts: seq<Act>) {
    forall i :: 0 <= i < |acts| && acts[i].Edit? && acts[i].persisted ==> acts[i].monthly
  }

  lemma {:induction false} PolicyStaysOn(a: Account, acts: seq<Act>)
    requires a.monthly && a.lastReset.Some? && StaysMonthly(acts)
    ensures Play(a, acts).monthly && Play(a, acts).lastReset.Some?
    decreases |acts|
  {
    if acts != [] {
      PolicyStaysOn(a, acts[..|acts| - 1]);
    }
  }

  lemma {:induction false} SettledAreSeen(a: Account, acts: seq<Act>)
    requires a.monthly && a.lastReset.Some? && StaysMonthly(acts)
    ensures Settled(a, acts) == MonthsSeen(acts) + {a.lastReset.value}
    ensures FirstByTick(a, acts) == MonthsSeen(acts) - {a.lastReset.value}
    decreases |acts|
  {
    if acts != [] {
      SettledAreSeen(a, acts[..|acts| - 1]);
      PolicyStaysOn(a, acts[..|acts| - 1]);
    }
  }

  // The current-period counters are zeroed by the monthly policy exactly once
  // for every month first seen by a tick that was persisted.
  lemma OneResetPerMonth(a: Account, acts: seq<Act>)
    requires a.monthly && a.lastReset.Some? && StaysMonthly(acts) && Ordered(acts, a.lastReset)
    ensures ResetsOf(a, acts) == |MonthsSeen(acts) - {a.lastReset.value}|
  {
    OneResetPerSettledMonth(a, acts);
    SettledAreSeen(a, acts);
  }

  // ----- Reasons -----

  lemma {:induction false} EnabledIsClean(a: Account, acts: seq<Act>)
    requires Clean(a)
    ensures Clean(Play(a, acts))
    decreases |acts|
  {
    if acts != [] {
      var b, act := Play(a, acts[..|acts| - 1]), acts[|acts| - 1];
      EnabledIsClean(a, acts[..|acts| - 1]);
      if Persists(act) {
        TickKeepsClean(Recorded(b, act.up, act.down, act.now), act.now, act.month);
      }
    }
  }

  // The acts turn nothing on by hand, and every tick finds the account below
  // its quota and not expired.
  ghost predicate BelowLimits(a: Account, acts: seq<Act>)
    decreases |acts|
  {
    acts == [] ||
    (BelowLimits(a, acts[..|acts| - 1]) &&
     var b, act := Play(a, acts[..|acts| - 1]), acts[|acts| - 1];
     && ((act.Switch? || act.Edit?) && act.persisted ==> !act.on)
     && (Persists(act) ==>
           var r := Recorded(b, act.up, act.down, act.now);
           !Expired(r, act.now) && (!OverQuota(r) || NewMonth(r, act.month))))
  }

  // An account that was switched off by hand then stays so.
  lemma {:induction false} ManualStaysOff(a: Account, acts: seq<Act>)
    requires SwitchedOffByHand(a) && BelowLimits(a, acts)
    ensures SwitchedOffByHand(Play(a, acts))
    decreases |acts|
  {
    if acts != [] {
      ManualStaysOff(a, acts[..|acts| - 1]);
    }
  }
}
