/** Accounts, and the policy a traffic tick enforces on each of them. */
module Accounts {
  import opened Common
  import opened XrayConfig

  datatype Reason = Unset | Manual | Quota | Expiry | Other(text: string)

  /** The part of an account that Xray is given, without its port and tag; a
      JSON column is none when its text does not parse. */
  datatype Body = Body(listen: string, protocol: string, settings: Option<Json>, stream: Option<Json>, sniffing: Option<Json>)

  /** Times are in milliseconds; lastReset is the accounted month, none if never set. */
  datatype Account = Account(
    id: int, name: string, enabled: bool, reason: Reason,
    port: int, tag: string, body: Body,
    up: int, down: int, allTime: int,
    quota: int, expiry: int, monthly: bool, lastReset: Option<nat>,
    created: int, updated: int)

  function AsInbound(a: Account): Inbound {
    Inbound(a.enabled, a.body.listen, a.port, a.body.protocol, a.tag, a.body.settings, a.body.stream, a.body.sniffing)
  }

  function AsInbounds(rows: seq<Account>): (list: seq<Inbound>)
    ensures |list| == |rows|
    ensures forall i :: 0 <= i < |rows| ==> list[i] == AsInbound(rows[i])
  {
    seq(|rows|, i requires 0 <= i < |rows| => AsInbound(rows[i]))
  }

  // ----- The policy -----

  predicate Expired(a: Account, now: int) {
    a.expiry > 0 && now >= a.expiry
  }

  predicate OverQuota(a: Account) {
    a.quota > 0 && a.up + a.down >= a.quota
  }

  predicate MayReturn(a: Account, now: int) {
    !a.enabled && a.reason.Quota? && (a.expiry == 0 || now < a.expiry)
  }

  predicate NewMonth(a: Account, month: nat) {
    a.monthly && a.lastReset.Some? && a.lastReset.value != month
  }

  function Returned(a: Account, now: int): Account {
    if MayReturn(a, now) then a.(enabled := true, reason := Unset) else a
  }

  function AfterReset(a: Account, now: int, month: nat): Account {
    if NewMonth(a, month) then Returned(a.(up := 0, down := 0, lastReset := Some(month)), now) else a
  }

  function AfterPolicy(a: Account, now: int): Account {
    if Expired(a, now) then a.(enabled := false, reason := Expiry)
    else if OverQuota(a) then a.(enabled := false, reason := Quota)
    else a
  }

  // One account after a tick; its time stamp moves only if something changed.
  function Ticked(a: Account, now: int, month: nat): Account {
    var b := AfterPolicy(AfterReset(a, now, month), now);
    if b == a then a else b.(updated := now)
  }

  function TickedAll(rows: seq<Account>, now: int, month: nat): (next: seq<Account>)
    ensures |next| == |rows|
  {
    if rows == [] then [] else [Ticked(rows[0], now, month)] + TickedAll(rows[1..], now, month)
  }

  lemma {:induction false} TickedAllAt(rows: seq<Account>, now: int, month: nat, i: nat)
    requires i < |rows|
    ensures TickedAll(rows, now, month)[i] == Ticked(rows[i], now, month)
  {
    if i > 0 {
      TickedAllAt(rows[1..], now, month, i - 1);
    }
  }

  predicate Flips(before: seq<Account>, after: seq<Account>)
    requires |before| == |after|
  {
    exists i :: 0 <= i < |before| && before[i].enabled != after[i].enabled
  }

  /** The loop over the accounts, editing each in place and raising two flags. */
  method TickInPlace(next: array<Account>, now: int, month: nat) returns (dbChanged: bool, configChanged: bool)
    modifies next
    ensures next[..] == TickedAll(old(next[..]), now, month)
    ensures configChanged <==> Flips(old(next[..]), next[..])
    ensures dbChanged || configChanged <==> next[..] != old(next[..])
  {
    dbChanged, configChanged := false, false;
    ghost var was := next[..];
    ghost var done := TickedAll(was, now, month);
    for i := 0 to next.Length
      invariant forall k :: 0 <= k < i ==> next[k] == done[k]
      invariant forall k :: i <= k < next.Length ==> next[k] == was[k]
      invariant configChanged <==> FlipsBelow(was, done, i)
      invariant dbChanged || configChanged <==> DiffersBelow(was, done, i)
    {
      var a, changed, flipped := TickOne(next[i], now, month);
      TickedAllAt(was, now, month, i);
      next[i] := a;
      dbChanged, configChanged := dbChanged || changed, configChanged || flipped;
    }
    assert next[..] == done;
    BelowIsSomewhere(was, done, next.Length);
  }

  predicate FlipsBelow(before: seq<Account>, after: seq<Account>, n: nat)
    requires n <= |before| == |after|
  {
    n > 0 && (FlipsBelow(before, after, n - 1) || before[n - 1].enabled != after[n - 1].enabled)
  }

  predicate DiffersBelow(before: seq<Account>, after: seq<Account>, n: nat)
    requires n <= |before| == |after|
  {
    n > 0 && (DiffersBelow(before, after, n - 1) || before[n - 1] != after[n - 1])
  }

  lemma {:induction false} BelowIsSomewhere(before: seq<Account>, after: seq<Account>, n: nat)
    requires n <= |before| == |after|
    ensures FlipsBelow(before, after, n) <==> Flips(before[..n], after[..n])
    ensures DiffersBelow(before, after, n) <==> before[..n] != after[..n]
    ensures n == |before| ==> before[..n] == before && after[..n] == after
  {
    if n > 0 {
      BelowIsSomewhere(before, after, n - 1);
      assert before[..n] == before[..n - 1] + [before[n - 1]];
      assert after[..n] == after[..n - 1] + [after[n - 1]];
      assert before[n - 1].enabled != after[n - 1].enabled ==> before[..n][n - 1].enabled != after[..n][n - 1].enabled;
      forall i | 0 <= i < n - 1 ensures before[..n][i] == before[..n - 1][i] && after[..n][i] == after[..n - 1][i] {
      }
    }
  }

  /** The body of the loop: fields change one by one, flags where they do. */
  method TickOne(before: Account, now: int, month: nat) returns (a: Account, changed: bool, flipped: bool)
    ensures a == Ticked(before, now, month)
    ensures changed <==> a != before
    ensures flipped <==> a.enabled != before.enabled
  {
    a, changed, flipped := before, false, false;
    if a.monthly && a.lastReset != None && a.lastReset != Some(month) {
      a := a.(up := 0, down := 0);
      a := a.(lastReset := Some(month));
      changed := true;
      if !a.enabled && a.reason == Quota && (a.expiry == 0 || now < a.expiry) {
        a := a.(enabled := true, reason := Unset);
        flipped := true;
      }
    }
    if a.expiry > 0 && now >= a.expiry {
      if a.enabled {
        a, flipped, changed := a.(enabled := false), true, true;
      }
      if a.reason != Expiry {
        a, changed := a.(reason := Expiry), true;
      }
    } else if a.quota > 0 && a.up + a.down >= a.quota {
      if a.enabled {
        a, flipped, changed := a.(enabled := false), true, true;
      }
      if a.reason != Quota {
        a, changed := a.(reason := Quota), true;
      }
    }
    if changed {
      a := a.(updated := now);
    }
  }

  // ----- What one tick means -----

  // No account is left running that is expired or has used up its quota.
  lemma TickEnforces(a: Account, now: int, month: nat)
    ensures Ticked(a, now, month).enabled ==> !Expired(Ticked(a, now, month), now) && !OverQuota(Ticked(a, now, month))
  {
  }

  // A tick switches an account on exactly when a new month begins for one that
  // was suspended for its quota and has not expired.
  lemma TickSwitchesOn(a: Account, now: int, month: nat)
    ensures !a.enabled && Ticked(a, now, month).enabled <==>
            NewMonth(a, month) && !a.enabled && a.reason.Quota? && (a.expiry == 0 || now < a.expiry)
  {
  }

  // It switches one off exactly when it has expired, or is over its quota and
  // no new month has begun.
  lemma TickSwitchesOff(a: Account, now: int, month: nat)
    ensures a.enabled && !Ticked(a, now, month).enabled <==>
            a.enabled && (Expired(a, now) || (OverQuota(a) && !NewMonth(a, month)))
  {
  }

  // Repeating the tick at the same moment changes nothing.
  lemma TickSettles(a: Account, now: int, month: nat)
    ensures Ticked(Ticked(a, now, month), now, month) == Ticked(a, now, month)
  {
  }

  predicate SwitchedOffByHand(a: Account) {
    !a.enabled && a.reason.Manual?
  }

  // An account switched off by hand keeps that mark exactly when the tick finds
  // it neither expired nor over its quota.
  lemma ManualMarkSurvives(a: Account, now: int, month: nat)
    requires SwitchedOffByHand(a)
    ensures SwitchedOffByHand(Ticked(a, now, month)) <==>
            !Expired(a, now) && (!OverQuota(a) || NewMonth(a, month))
    ensures !Ticked(a, now, month).enabled
  {
  }

  // A relabelled one is switched on again at the next month.
  lemma RelabelledReturns(a: Account, now: int, month: nat, later: int, next: nat)
    requires SwitchedOffByHand(a) && OverQuota(a) && a.expiry == 0
    requires a.monthly && a.lastReset == Some(month) && next != month
    ensures Ticked(Ticked(a, now, month), later, next).enabled
  {
  }

  // ----- Rows of a whole store -----

  predicate Clean(a: Account) {
    a.enabled ==> a.reason.Unset?
  }

  lemma TickKeepsClean(a: Account, now: int, month: nat)
    requires Clean(a)
    ensures Clean(Ticked(a, now, month))
  {
  }

  // What Xray is given and what identifies the account.
  predicate SameIdentity(a: Account, b: Account) {
    && a.id == b.id && a.port == b.port && a.tag == b.tag && a.body == b.body
    && a.allTime == b.allTime && a.created == b.created && a.name == b.name
  }

  lemma TickKeepsIdentity(a: Account, now: int, month: nat)
    ensures SameIdentity(Ticked(a, now, month), a)
  {
  }
}
