/**
 The account service: every change is first applied to Xray, then stored, and
 undone in Xray when storing it fails.
 */
module AccountService {
  import opened Common
  import opened Allocators
  import opened XrayManager
  import opened Accounts
  import opened AccountRuns
  import opened AccountStore

  /** What goes wrong around one request, and when it happens. */
  datatype World = World(
    now: int, month: nat,
    readFails: bool,         // the accounts cannot be read
    batchFails: bool,        // the traffic transaction fails
    first: Faults,           // around applying the new accounts
    dbFails: bool,           // the replacing transaction fails
    undoFails: bool,         // putting the old rows back fails
    second: Faults,          // around applying the old accounts again
    rereadFails: bool)       // what was saved cannot be read back

  // No compensation fails, whatever else does.
  predicate Compensates(w: World) {
    Recovers(w.first) && w.second == NO_FAULTS && !w.undoFails
  }

  /** The ports the operator allows, where the scan starts, and which of them
      the host lets the panel bind. */
  datatype Ports = Ports(lo: int, hi: int, reserved: int, start: int, bindable: set<int>)

  datatype Input = Input(name: string, enabled: bool, port: int, quota: int, expiry: int, monthly: bool)

  function PortsOf(rows: seq<Account>): seq<int> {
    seq(|rows|, i requires 0 <= i < |rows| => rows[i].port)
  }

  function IdsOf(rows: seq<Account>): seq<int> {
    seq(|rows|, i requires 0 <= i < |rows| => rows[i].id)
  }

  method IndexOf(rows: seq<Account>, id: int) returns (idx: Option<nat>)
    ensures idx.None? <==> forall i :: 0 <= i < |rows| ==> rows[i].id != id
    ensures idx.Some? ==> idx.value < |rows| && rows[idx.value].id == id
  {
    for i := 0 to |rows|
      invariant forall k :: 0 <= k < i ==> rows[k].id != id
    {
      if rows[i].id == id {
        return Some(i);
      }
    }
    return None;
  }

  predicate PortTaken(rows: seq<Account>, port: int, except: int) {
    exists i :: 0 <= i < |rows| && rows[i].port == port && rows[i].id != except
  }

  method UniquePort(rows: seq<Account>, port: int, except: int) returns (ok: bool)
    ensures ok <==> !PortTaken(rows, port, except)
  {
    for i := 0 to |rows|
      invariant forall k :: 0 <= k < i ==> !(rows[k].port == port && rows[k].id != except)
    {
      if rows[i].port == port && rows[i].id != except {
        return false;
      }
    }
    return true;
  }

  method FindByPort(rows: seq<Account>, port: int) returns (a: Option<Account>)
    ensures a.Some? ==> a.value in rows && a.value.port == port
    ensures a.None? <==> forall i :: 0 <= i < |rows| ==> rows[i].port != port
  {
    for i := 0 to |rows|
      invariant forall k :: 0 <= k < i ==> rows[k].port != port
    {
      if rows[i].port == port {
        return Some(rows[i]);
      }
    }
    return None;
  }

  lemma SoleOnPort(rows: seq<Account>, a: Account, b: Account)
    requires TableOk(rows) && a in rows && b in rows && a.port == b.port
    ensures a == b
  {
    var i :| 0 <= i < |rows| && rows[i] == a;
    var j :| 0 <= j < |rows| && rows[j] == b;
  }

  predicate Finds(rows: seq<Account>, i: int, id: int) {
    0 <= i < |rows| && rows[i].id == id
  }

  predicate Has(rows: seq<Account>, id: int) {
    exists i :: 0 <= i < |rows| && Finds(rows, i, id)
  }

  // No port can be had for a new account.
  predicate NoPort(rows: seq<Account>, requested: int, ports: Ports) {
    if requested == 0 then
      ports.lo < 1 || ports.hi < ports.lo || ports.hi > 65535 ||
      forall p :: ports.lo <= p <= ports.hi ==> !Free(p, PortsOf(rows), ports.reserved, ports.bindable)
    else
      requested < 1 || requested > 65535 || PortTaken(rows, requested, 0) || requested !in ports.bindable
  }

  // The port an edit asks for is refused.
  predicate RefusesPort(rows: seq<Account>, i: nat, requested: int, ports: Ports)
    requires i < |rows|
  {
    var port := if requested == 0 then rows[i].port else requested;
    port < 1 || port > 65535 || PortTaken(rows, port, rows[i].id) || (port != rows[i].port && port !in ports.bindable)
  }

  function NewAccount(input: Input, port: int, body: Body, w: World): Account {
    Account(0, input.name, input.enabled, if input.enabled then Unset else Manual,
            port, NewTag(port, input.name), body,
            0, 0, 0, input.quota, input.expiry, input.monthly, if input.monthly then Some(w.month) else None, w.now, w.now)
  }

  /** A new account, with the fields the editor and the service fill in. */
  method MakeAccount(input: Input, port: int, body: Body, w: World) returns (a: Account)
    requires port > 0
    ensures a == NewAccount(input, port, body, w)
  {
    var slug := BuildSlug(input.name);
    a := Account(0, input.name, input.enabled, Unset, port, PanelTag(port, slug), body,
                 0, 0, 0, input.quota, input.expiry, input.monthly, None, w.now, w.now);
    if !a.enabled {
      a := a.(reason := Manual);
    }
    a := CycleStarted(a, false, w.month);
  }

  /** The fields of an edited account, in the order the editor and the service
      set them. */
  method Rebuild(a: Account, input: Input, port: int, body: Body, w: World) returns (b: Account)
    requires port == if input.port == 0 then a.port else input.port
    requires port > 0
    ensures b == EditedBy(a, input, body, w)
  {
    b := a.(name := input.name, enabled := input.enabled, port := port,
            quota := input.quota, expiry := input.expiry, monthly := input.monthly,
            body := body, updated := w.now);
    if b.enabled {
      b := b.(reason := Unset);
    } else if b.reason == Unset || b.reason == Quota || b.reason == Expiry {
      b := b.(reason := Manual);
    }
    if a.tag == "" || port != a.port {
      var slug := BuildSlug(input.name);
      b := b.(tag := PanelTag(port, slug));
    }
    if !a.enabled && !b.enabled {
      b := b.(reason := a.reason);
    }
    b := CycleStarted(b, !a.monthly, w.month);
  }

  function CopyName(source: Account, name: string): string {
    if name == "" then source.name + " copy" else name
  }

  function CloneOf(source: Account, name: string, port: int, body: Body, w: World): Account {
    source.(id := 0, name := CopyName(source, name), port := port, tag := NewTag(port, CopyName(source, name)), body := body,
            up := 0, down := 0, allTime := 0, enabled := source.enabled || source.reason.Quota?, reason := Unset,
            lastReset := if source.monthly then Some(w.month) else None, created := w.now, updated := w.now)
  }

  /** A copy that starts from nothing: no traffic, no reason, a new tag. */
  method MakeClone(source: Account, name: string, port: int, body: Body, w: World) returns (clone: Account)
    requires port > 0
    ensures clone == CloneOf(source, name, port, body, w) && Cloned(source, clone, w)
  {
    var slug := BuildSlug(CopyName(source, name));
    clone := source.(id := 0, name := CopyName(source, name), port := port, up := 0, down := 0, allTime := 0,
                     lastReset := None, tag := PanelTag(port, slug), created := w.now, updated := w.now);
    if clone.reason == Quota {
      clone := clone.(enabled := true);
    }
    clone := clone.(reason := Unset, body := body);
    clone := CycleStarted(clone, true, w.month);
  }

  class Service {
    const store: Store
    const xray: Manager

    constructor (store: Store, xray: Manager)
      ensures this.store == store && this.xray == xray
    {
      this.store, this.xray := store, xray;
    }

    ghost predicate Valid()
      reads store
    {
      store.Valid()
    }

    // The live inbounds are those of the enabled stored accounts.
    ghost predicate Synced()
      reads store, xray
    {
      xray.Live(AsInbounds(store.rows))
    }

    // Nothing goes wrong, Xray can run these accounts, and the table takes them.
    ghost predicate Willing(next: seq<Account>, w: World)
      reads store, xray
    {
      && w.first == NO_FAULTS && !w.dbFails
      && xray.Accepts(AsInbounds(next))
      && InsertedAll(Table([], store.lastId), next, w.now).Some?
    }

    // ----- Apply, then persist, else compensate -----

    lemma StoredIsLive(next: seq<Account>, lastId: int, now: int)
      requires store.Valid() && xray.Live(AsInbounds(next))
      requires InsertedAll(Table([], lastId), next, now).Some?
      requires store.rows == InsertedAll(Table([], lastId), next, now).value.rows
      ensures Synced()
    {
      forall x ensures x in AsInbounds(next) <==> x in AsInbounds(store.rows) {
        StoredExposes(Table([], lastId), next, now, x);
      }
      DistinctInbounds(store.rows);
      xray.ReorderedIsLive(AsInbounds(next), AsInbounds(store.rows));
    }

    lemma DistinctInbounds(rows: seq<Account>)
      requires TableOk(rows)
      ensures forall i, j :: 0 <= i < j < |rows| ==> AsInbounds(rows)[i] != AsInbounds(rows)[j]
    {
      forall i, j | 0 <= i < j < |rows| ensures AsInbounds(rows)[i] != AsInbounds(rows)[j] {
        assert Apart(rows[i], rows[j]);
      }
    }

    // Applying new accounts either succeeds or, unless its own compensation
    // fails, leaves the live inbounds as they were.
    method ApplyNew(next: seq<Account>, f: Faults) returns (ok: bool)
      requires Valid() && Synced()
      modifies xray`file, xray`running
      ensures Valid() && store.rows == old(store.rows)
      ensures ok ==> xray.Live(AsInbounds(next))
      ensures !ok && Recovers(f) ==> Synced()
      ensures f == NO_FAULTS && xray.Accepts(AsInbounds(next)) ==> ok
    {
      var r := xray.Apply(AsInbounds(next), f);
      ok := r.Done?;
      if ok {
        xray.AppliedIsLive(AsInbounds(next));
      }
    }

    method ApplyAgain(f: Faults)
      requires Valid() && xray.InStep() && xray.Accepts(AsInbounds(store.rows))
      modifies xray`file, xray`running
      ensures Valid()
      ensures f == NO_FAULTS ==> Synced()
    {
      var r := xray.Apply(AsInbounds(store.rows), f);
      if r.Done? {
        xray.AppliedIsLive(AsInbounds(store.rows));
      }
    }

    method ApplyAndPersist(next: seq<Account>, w: World) returns (ok: bool)
      requires Valid() && Synced() && w.now != 0
      modifies store, xray`file, xray`running
      ensures Valid()
      ensures ok ==> Synced() && InsertedAll(Table([], old(store.lastId)), next, w.now).Some?
      ensures ok ==> store.rows == InsertedAll(Table([], old(store.lastId)), next, w.now).value.rows
      ensures !ok ==> store.rows == old(store.rows) && (Compensates(w) ==> Synced())
      ensures old(Willing(next, w)) ==> ok
    {
      ok := ApplyNew(next, w.first);
      if !ok {
        return;
      }
      ghost var lastId := store.lastId;
      ok := store.ReplaceAccounts(next, w.dbFails, w.now);
      if ok {
        StoredIsLive(next, lastId, w.now);
      } else {
        ApplyAgain(w.second);
      }
    }

    method PersistRuntimeState(next: seq<Account>, configChanged: bool, w: World) returns (ok: bool)
      requires Valid() && Synced() && w.now != 0
      requires !configChanged ==> AsInbounds(next) == AsInbounds(store.rows)
      modifies store, xray`file, xray`running
      ensures Valid()
      ensures ok ==> Synced() && InsertedAll(Table([], old(store.lastId)), next, w.now).Some?
      ensures ok ==> store.rows == InsertedAll(Table([], old(store.lastId)), next, w.now).value.rows
      ensures !ok ==> store.rows == old(store.rows) && (Compensates(w) ==> Synced())
      ensures old(Willing(next, w)) ==> ok
    {
      if configChanged {
        ok := ApplyAndPersist(next, w);
      } else {
        ghost var lastId := store.lastId;
        ok := store.ReplaceAccounts(next, w.dbFails, w.now);
        if ok {
          StoredIsLive(next, lastId, w.now);
        }
      }
    }

    // ----- Requests -----

    /** Deletes one account. */
    method Delete(id: int, w: World) returns (ok: bool)
      requires Valid() && Synced() && w.now != 0
      modifies store, xray`file, xray`running
      ensures Valid() && (ok || Compensates(w) ==> Synced())
      ensures ok ==> exists i :: 0 <= i < |old(store.rows)| && old(store.rows)[i].id == id &&
                       store.rows == old(store.rows)[..i] + old(store.rows)[i + 1..]
      ensures !ok ==> store.rows == old(store.rows)
      ensures !ok ==> w.readFails || !Has(old(store.rows), id) ||
                      exists i :: Finds(old(store.rows), i, id) && !old(Willing(store.rows[..i] + store.rows[i + 1..], w))
    {
      var idx := IndexOf(store.rows, id);
      if w.readFails || idx.None? {
        return false;
      }
      ok := RemoveRow(idx.value, w);
    }

    // Stores the accounts without the one at k.
    method RemoveRow(k: nat, w: World) returns (ok: bool)
      requires Valid() && Synced() && w.now != 0 && k < |store.rows|
      modifies store, xray`file, xray`running
      ensures Valid() && (ok || Compensates(w) ==> Synced())
      ensures store.rows == if ok then old(store.rows)[..k] + old(store.rows)[k + 1..] else old(store.rows)
      ensures old(Willing(store.rows[..k] + store.rows[k + 1..], w)) ==> ok
    {
      var next := store.rows[..k] + store.rows[k + 1..];
      RemovedListable(store.rows, k);
      ghost var lastId := store.lastId;
      ok := ApplyAndPersist(next, w);
      if ok {
        StoredAsListed(next, lastId, w.now);
      }
    }

    lemma RemovedListable(rows: seq<Account>, k: nat)
      requires TableOk(rows) && k < |rows|
      ensures Listable(rows[..k] + rows[k + 1..])
    {
      var next := rows[..k] + rows[k + 1..];
      forall i | 0 <= i < |next| ensures next[i] == rows[if i < k then i else i + 1] {
      }
      assert forall i :: 0 <= i < |rows| ==> RowOk(rows[i]);
    }

    // Stores a changed account in the place of the one at idx.
    method ReplaceOne(idx: nat, a: Account, configChanged: bool, w: World) returns (ok: bool)
      requires Valid() && Synced() && w.now != 0 && idx < |store.rows|
      requires a.id == store.rows[idx].id && a.created != 0 && a.updated != 0
      requires !configChanged ==> AsInbound(a) == AsInbound(store.rows[idx])
      modifies store, xray`file, xray`running
      ensures Valid() && (ok || Compensates(w) ==> Synced())
      ensures store.rows == if ok then old(store.rows)[idx := a] else old(store.rows)
      ensures old(Willing(store.rows[idx := a], w)) ==> ok
    {
      var next := store.rows[idx := a];
      ReplacedListable(store.rows, idx, a);
      ghost var lastId := store.lastId;
      if !configChanged {
        assert AsInbounds(next) == AsInbounds(store.rows);
      }
      ok := PersistRuntimeState(next, configChanged, w);
      if ok {
        StoredAsListed(next, lastId, w.now);
      }
    }

    lemma ReplacedListable(rows: seq<Account>, k: nat, a: Account)
      requires TableOk(rows) && k < |rows| && a.id == rows[k].id && a.created != 0 && a.updated != 0
      ensures Listable(rows[k := a])
    {
      assert forall i :: 0 <= i < |rows| ==> RowOk(rows[i]);
    }

    /** Clears the current-period counters, and ends a suspension for quota. */
    method ResetTraffic(id: int, w: World) returns (ok: bool)
      requires Valid() && Synced() && w.now != 0
      modifies store, xray`file, xray`running
      ensures Valid() && (ok || Compensates(w) ==> Synced())
      ensures ok ==> exists i :: 0 <= i < |old(store.rows)| && old(store.rows)[i].id == id &&
                       store.rows == old(store.rows)[i := ResetByHand(old(store.rows)[i], w.now)]
      ensures !ok ==> store.rows == old(store.rows)
      ensures !ok ==> w.readFails || !Has(old(store.rows), id) ||
                      exists i :: Finds(old(store.rows), i, id) &&
                        !old(Willing(store.rows[i := ResetByHand(store.rows[i], w.now)], w))
    {
      var idx := IndexOf(store.rows, id);
      if w.readFails || idx.None? {
        return false;
      }
      var a := store.rows[idx.value];
      var b := a.(up := 0, down := 0, updated := w.now);
      var configChanged := false;
      if !b.enabled && b.reason == Quota && (b.expiry == 0 || w.now < b.expiry) {
        b := b.(enabled := true, reason := Unset);
        configChanged := true;
      }
      assert RowOk(a);
      ok := ReplaceOne(idx.value, b, configChanged, w);
    }

    /** Switches an account on or off; refuses to switch on what a tick would
        switch off again. */
    method SetEnabled(id: int, on: bool, w: World) returns (ok: bool)
      requires Valid() && Synced() && w.now != 0
      modifies store, xray`file, xray`running
      ensures Valid() && (ok || Compensates(w) ==> Synced())
      ensures ok ==> exists i :: 0 <= i < |old(store.rows)| && old(store.rows)[i].id == id &&
                       store.rows == old(store.rows)[i := Switched(old(store.rows)[i], on, w.now)] &&
                       store.rows[i].enabled == on
      ensures !ok ==> store.rows == old(store.rows)
      ensures !ok ==> w.readFails || !Has(old(store.rows), id) ||
                      exists i :: Finds(old(store.rows), i, id) &&
                        ((on && !MaySwitchOn(old(store.rows)[i], w.now)) ||
                         !old(Willing(store.rows[i := Switched(store.rows[i], on, w.now)], w)))
    {
      var idx := IndexOf(store.rows, id);
      if w.readFails || idx.None? {
        return false;
      }
      var a := store.rows[idx.value];
      if a.enabled == on {
        assert store.rows == store.rows[idx.value := a];
        return true;
      }
      var b := a;
      if on {
        if a.expiry > 0 && w.now >= a.expiry {
          return false;
        }
        if a.quota > 0 && a.up + a.down >= a.quota {
          return false;
        }
        b := b.(enabled := true, reason := Unset);
      } else {
        b := b.(enabled := false, reason := Manual);
      }
      b := b.(updated := w.now);
      assert RowOk(a);
      ok := ReplaceOne(idx.value, b, true, w);
    }

    // ----- New accounts -----

    /** The requested port, or the first free one; then it must be unused and bindable. */
    method ChoosePort(requested: int, ports: Ports) returns (port: Option<int>)
      requires store.Valid()
      ensures port.Some? ==> !PortTaken(store.rows, port.value, 0) && port.value in ports.bindable
      ensures port.Some? && requested != 0 ==> port.value == requested
      ensures port.Some? && requested == 0 ==>
                ports.lo <= port.value <= ports.hi && Free(port.value, PortsOf(store.rows), ports.reserved, ports.bindable)
      ensures port.None? && requested != 0 ==> PortTaken(store.rows, requested, 0) || requested !in ports.bindable
      ensures port.None? && requested == 0 ==>
                ports.lo < 1 || ports.hi < ports.lo ||
                forall p :: ports.lo <= p <= ports.hi ==> !Free(p, PortsOf(store.rows), ports.reserved, ports.bindable)
    {
      var p := requested;
      if p == 0 {
        p := NextFreePortFrom(PortsOf(store.rows), ports.lo, ports.hi, ports.reserved, ports.start, ports.bindable);
        if p == 0 {
          return None;
        }
        FreeIsUntaken(store.rows, p, ports);
      }
      var unique := UniquePort(store.rows, p, 0);
      if !unique || p !in ports.bindable {
        return None;
      }
      return Some(p);
    }

    lemma FreeIsUntaken(rows: seq<Account>, p: int, ports: Ports)
      requires Free(p, PortsOf(rows), ports.reserved, ports.bindable)
      ensures !PortTaken(rows, p, 0)
    {
      forall i | 0 <= i < |rows| ensures rows[i].port != p {
        assert PortsOf(rows)[i] in PortsOf(rows);
      }
    }

    // Stores one more account under the least unused id.
    method AddOne(newcomer: Account, w: World) returns (r: Option<Account>)
      requires Valid() && Synced() && w.now != 0 && newcomer.created != 0 && newcomer.updated != 0
      modifies store, xray`file, xray`running
      ensures Valid() && (r.Some? || Compensates(w) ==> Synced())
      ensures r.Some? ==> store.rows == Placed(old(store.rows), r.value) && r.value == newcomer.(id := r.value.id)
      ensures r.Some? ==> LeastUnused(r.value.id, IdsOf(old(store.rows)))
      ensures r.None? ==> store.rows == old(store.rows)
      ensures r.None? ==> exists id :: LeastUnused(id, IdsOf(old(store.rows))) &&
                                       !old(Willing(store.rows + [newcomer.(id := id)], w))
    {
      var id := NextAvailableId(IdsOf(store.rows));
      var a := newcomer.(id := id);
      ghost var rows, lastId := store.rows, store.lastId;
      var ok := ApplyAndPersist(store.rows + [a], w);
      if !ok {
        return None;
      }
      StoredWithOne(rows, a, lastId, w.now);
      return Some(a);
    }

    // Stores one more account and reads it back.
    method AddAndShow(newcomer: Account, w: World) returns (r: Option<Account>, view: Option<Account>)
      requires Valid() && Synced() && w.now != 0 && newcomer.created != 0 && newcomer.updated != 0
      modifies store, xray`file, xray`running
      ensures Valid() && (r.Some? || Compensates(w) ==> Synced())
      ensures r.Some? ==> store.rows == Placed(old(store.rows), r.value) && r.value == newcomer.(id := r.value.id)
      ensures r.Some? ==> LeastUnused(r.value.id, IdsOf(old(store.rows)))
      ensures view == if w.rereadFails then None else r
      ensures r.None? ==> store.rows == old(store.rows)
      ensures r.None? ==> exists id :: LeastUnused(id, IdsOf(old(store.rows))) &&
                                       !old(Willing(store.rows + [newcomer.(id := id)], w))
    {
      r := AddOne(newcomer, w);
      if r.None? {
        return r, None;
      }
      view := ReadBack(r.value, w);
    }

    // Reads the account that was saved back by its port, which no other has.
    method ReadBack(saved: Account, w: World) returns (view: Option<Account>)
      requires Valid() && saved in store.rows
      ensures view == if w.rereadFails then None else Some(saved)
    {
      if w.rereadFails {
        return None;
      }
      view := FindByPort(store.rows, saved.port);
      if view.Some? {
        SoleOnPort(store.rows, view.value, saved);
      }
    }

    /** Creates an account; body is what the protocol editor built, if it did.
        The caller is shown the account as it is read back, and an error when
        that fails, although the account is stored. */
    method Create(input: Input, body: Option<Body>, ports: Ports, w: World) returns (r: Option<Account>, view: Option<Account>)
      requires Valid() && Synced() && w.now != 0
      modifies store, xray`file, xray`running
      ensures Valid() && (r.Some? || Compensates(w) ==> Synced())
      ensures r.Some? ==> store.rows == Placed(old(store.rows), r.value)
      ensures r.Some? ==> LeastUnused(r.value.id, IdsOf(old(store.rows))) && !PortTaken(old(store.rows), r.value.port, 0)
      ensures r.Some? ==> r.value.up == r.value.down == r.value.allTime == 0 && Clean(r.value)
      ensures r.Some? ==> r.value.port > 0 && r.value.tag == PanelTag(r.value.port, ShortSlug(input.name))
      ensures r.Some? && input.monthly ==> r.value.lastReset == Some(w.month)
      ensures r.Some? ==> body.Some? && r.value == NewAccount(input, r.value.port, body.value, w).(id := r.value.id)
      ensures view == if w.rereadFails then None else r
      ensures r.None? ==> store.rows == old(store.rows)
      ensures r.None? ==> w.readFails || input.name == "" || body.None? || NoPort(old(store.rows), input.port, ports) ||
                          exists port, id :: LeastUnused(id, IdsOf(old(store.rows))) &&
                            !old(Willing(store.rows + [NewAccount(input, port, body.value, w).(id := id)], w))
    {
      if w.readFails {
        return None, None;
      }
      var port := ChoosePort(input.port, ports);
      if port.None? || input.name == "" || port.value < 1 || port.value > 65535 || body.None? {
        return None, None;
      }
      var newcomer := MakeAccount(input, port.value, body.value, w);
      r, view := AddAndShow(newcomer, w);
    }

    /** Clones an account under a new port, with its credential rotated. */
    method Clone(id: int, name: string, port: int, body: Option<Body>, ports: Ports, w: World)
      returns (r: Option<Account>, view: Option<Account>)
      requires Valid() && Synced() && w.now != 0
      modifies store, xray`file, xray`running
      ensures Valid() && (r.Some? || Compensates(w) ==> Synced())
      ensures r.Some? ==> store.rows == Placed(old(store.rows), r.value)
      ensures r.Some? ==> LeastUnused(r.value.id, IdsOf(old(store.rows))) && !PortTaken(old(store.rows), r.value.port, 0)
      ensures r.Some? ==> exists i :: 0 <= i < |old(store.rows)| && old(store.rows)[i].id == id &&
                            Cloned(old(store.rows)[i], r.value, w)
      ensures view == if w.rereadFails then None else r
      ensures r.None? ==> store.rows == old(store.rows)
      ensures r.None? ==> w.readFails || !Has(old(store.rows), id) || body.None? || NoPort(old(store.rows), port, ports) ||
                          (exists i :: Finds(old(store.rows), i, id) && |CopyName(old(store.rows)[i], name)| > 80) ||
                          exists i, p, newId :: Finds(old(store.rows), i, id) && LeastUnused(newId, IdsOf(old(store.rows))) &&
                            !old(Willing(store.rows + [CloneOf(store.rows[i], name, p, body.value, w).(id := newId)], w))
    {
      var idx := IndexOf(store.rows, id);
      if w.readFails || idx.None? {
        return None, None;
      }
      var p := ChoosePort(port, ports);
      if p.None? || p.value < 1 || p.value > 65535 {
        return None, None;
      }
      var source := store.rows[idx.value];
      if |CopyName(source, name)| > 80 || body.None? {
        assert Finds(store.rows, idx.value, id);
        return None, None;
      }
      var clone := MakeClone(source, name, p.value, body.value, w);
      r, view := AddAndShow(clone, w);
    }

    // Stores the edited form of an account and reads it back.
    method EditRow(idx: nat, input: Input, port: int, body: Body, w: World) returns (ok: bool, view: Option<Account>)
      requires Valid() && Synced() && w.now != 0 && idx < |store.rows|
      requires port == (if input.port == 0 then store.rows[idx].port else input.port) && port > 0
      modifies store, xray`file, xray`running
      ensures Valid() && (ok || Compensates(w) ==> Synced())
      ensures store.rows == if ok then old(store.rows)[idx := EditedBy(old(store.rows)[idx], input, body, w)] else old(store.rows)
      ensures view.Some? <==> ok && !w.rereadFails
      ensures view.Some? ==> view.value == store.rows[idx]
      ensures old(Willing(store.rows[idx := EditedBy(store.rows[idx], input, body, w)], w)) ==> ok
    {
      var a := store.rows[idx];
      assert RowOk(a);
      var b := Rebuild(a, input, port, body, w);
      ok := ReplaceOne(idx, b, true, w);
      if !ok {
        return ok, None;
      }
      assert store.rows[idx] == b;
      view := ReadBack(b, w);
    }

    /** Edits an account; its id, counters and creation time stay. */
    method Update(id: int, input: Input, body: Option<Body>, ports: Ports, w: World) returns (ok: bool, view: Option<Account>)
      requires Valid() && Synced() && w.now != 0
      modifies store, xray`file, xray`running
      ensures Valid() && (ok || Compensates(w) ==> Synced())
      ensures ok ==> body.Some?
      ensures ok ==> exists i :: 0 <= i < |old(store.rows)| && old(store.rows)[i].id == id &&
                       store.rows == old(store.rows)[i := EditedBy(old(store.rows)[i], input, body.value, w)]
      ensures view.Some? <==> ok && !w.rereadFails
      ensures view.Some? ==> view.value in store.rows && view.value.id == id
      ensures !ok ==> store.rows == old(store.rows)
      ensures !ok ==> w.readFails || !Has(old(store.rows), id) || input.name == "" || body.None? ||
                      exists i :: Finds(old(store.rows), i, id) &&
                        (RefusesPort(old(store.rows), i, input.port, ports) ||
                         !old(Willing(store.rows[i := EditedBy(store.rows[i], input, body.value, w)], w)))
    {
      var idx := IndexOf(store.rows, id);
      if w.readFails || idx.None? {
        return false, None;
      }
      ok, view := UpdateAt(idx.value, input, body, ports, w);
    }

    // Edits the account at k under the guards on its port and its name.
    method UpdateAt(k: nat, input: Input, body: Option<Body>, ports: Ports, w: World) returns (ok: bool, view: Option<Account>)
      requires Valid() && Synced() && w.now != 0 && k < |store.rows|
      modifies store, xray`file, xray`running
      ensures Valid() && (ok || Compensates(w) ==> Synced())
      ensures ok ==> body.Some? && store.rows == old(store.rows)[k := EditedBy(old(store.rows)[k], input, body.value, w)]
      ensures view.Some? <==> ok && !w.rereadFails
      ensures view.Some? ==> view.value == store.rows[k]
      ensures !ok ==> store.rows == old(store.rows)
      ensures !ok ==> input.name == "" || body.None? || RefusesPort(old(store.rows), k, input.port, ports) ||
                      !old(Willing(store.rows[k := EditedBy(store.rows[k], input, body.value, w)], w))
    {
      var a := store.rows[k];
      var port := if input.port == 0 then a.port else input.port;
      var unique := UniquePort(store.rows, port, a.id);
      if !unique || (port != a.port && port !in ports.bindable) {
        return false, None;
      }
      if input.name == "" || port < 1 || port > 65535 || body.None? {
        return false, None;
      }
      ok, view := EditRow(k, input, port, body.value, w);
    }

    // ----- The traffic tick -----

    /** Records the reported traffic, then enforces the policy on every account. */
    method ApplyTraffic(stats: seq<Delta>, w: World) returns (ok: bool)
      requires Valid() && Synced() && w.now != 0
      modifies store, xray`file, xray`running
      ensures Valid() && (ok || Compensates(w) ==> Synced())
      ensures ok ==> !RefusedBatch(stats, w.batchFails)
      ensures ok ==> store.rows == TickedAll(CreditedAll(old(store.rows), stats, w.now), w.now, w.month)
      ensures !ok ==> store.rows == if RefusedBatch(stats, w.batchFails) then old(store.rows)
                                    else CreditedAll(old(store.rows), stats, w.now)
      ensures !ok ==> RefusedBatch(stats, w.batchFails) || w.readFails ||
                      !old(Willing(TickedAll(CreditedAll(store.rows, stats, w.now), w.now, w.month), w))
    {
      CreditedAllKeeps(store.rows, stats, w.now);
      ok := store.AddTrafficBatch(stats, w.batchFails, w.now);
      if !ok {
        return;
      }
      if w.readFails {
        return false;
      }
      ok := EnforcePolicy(w);
    }

    method EnforcePolicy(w: World) returns (ok: bool)
      requires Valid() && Synced() && w.now != 0
      modifies store, xray`file, xray`running
      ensures Valid() && (ok || Compensates(w) ==> Synced())
      ensures store.rows == if ok then TickedAll(old(store.rows), w.now, w.month) else old(store.rows)
      ensures old(Willing(TickedAll(store.rows, w.now, w.month), w)) ==> ok
    {
      var current := store.rows;
      var next := new Account[|current|](i requires 0 <= i < |current| => current[i]);
      assert next[..] == current;
      var dbChanged, configChanged := TickInPlace(next, w.now, w.month);
      assert next[..] == TickedAll(current, w.now, w.month);
      if !dbChanged && !configChanged {
        return true;
      }
      TickedListable(current, w.now, w.month);
      ghost var lastId := store.lastId;
      if !configChanged {
        UnflippedInbounds(current, next[..], w.now, w.month);
      }
      ok := PersistRuntimeState(next[..], configChanged, w);
      if ok {
        StoredAsListed(TickedAll(current, w.now, w.month), lastId, w.now);
      }
    }

    lemma TickedListable(rows: seq<Account>, now: int, month: nat)
      requires TableOk(rows) && now != 0
      ensures Listable(TickedAll(rows, now, month))
    {
      forall i: nat | i < |rows|
        ensures TickedAll(rows, now, month)[i].id == rows[i].id && RowOk(rows[i])
        ensures TickedAll(rows, now, month)[i].created == rows[i].created && TickedAll(rows, now, month)[i].updated != 0
      {
        TickedAllAt(rows, now, month, i);
      }
    }

    lemma UnflippedInbounds(rows: seq<Account>, next: seq<Account>, now: int, month: nat)
      requires next == TickedAll(rows, now, month) && !Flips(rows, next)
      ensures AsInbounds(next) == AsInbounds(rows)
    {
      forall i: nat | i < |rows| ensures AsInbounds(next)[i] == AsInbounds(rows)[i] {
        TickedAllAt(rows, now, month, i);
        TickKeepsIdentity(rows[i], now, month);
        assert next[i].enabled == rows[i].enabled;
      }
    }

    // ----- Restoring a backup -----

    /** Replaces the database first and applies it then; puts both back if Xray
        rejects it. */
    method RestoreSnapshot(accounts: seq<Account>, w: World) returns (ok: bool)
      requires Valid() && Synced() && w.now != 0
      modifies store, xray`file, xray`running
      ensures Valid() && (ok || Compensates(w) ==> Synced())
      ensures ok ==> InsertedAll(Table([], old(store.lastId)), accounts, w.now).Some?
      ensures ok ==> store.rows == InsertedAll(Table([], old(store.lastId)), accounts, w.now).value.rows
      ensures !ok && Compensates(w) ==> store.rows == old(store.rows)
      ensures !w.readFails && old(Willing(accounts, w)) ==> ok
    {
      var before := store.rows;
      ghost var lastId := store.lastId;
      if w.readFails {
        return false;
      }
      ok := store.ReplaceAccounts(accounts, w.dbFails, w.now);
      if !ok {
        return;
      }
      var r := xray.Apply(AsInbounds(accounts), w.first);
      ok := r.Done?;
      if ok {
        xray.AppliedIsLive(AsInbounds(accounts));
        StoredIsLive(accounts, lastId, w.now);
      } else {
        PutBack(before, w);
      }
    }

    method PutBack(before: seq<Account>, w: World)
      requires Valid() && TableOk(before) && w.now != 0
      modifies store, xray`file, xray`running
      ensures Valid()
      ensures w.second == NO_FAULTS && !w.undoFails && old(xray.InStep()) && old(xray.Accepts(AsInbounds(before))) ==>
                Synced() && store.rows == before
    {
      ListedAgain(before, store.lastId, w.now);
      var stored := store.ReplaceAccounts(before, w.undoFails, w.now);
      var again := xray.Apply(AsInbounds(before), w.second);
      if again.Done? && xray.InStep() {
        xray.AppliedIsLive(AsInbounds(before));
      }
    }
  }

  predicate LeastUnused(id: int, ids: seq<int>) {
    1 <= id && id !in ids && forall k :: 1 <= k < id ==> k in ids
  }

  function NewTag(port: int, name: string): string {
    if port < 0 then "" else PanelTag(port, ShortSlug(name))
  }

  // The act that an edit is in the run of its account.
  function EditOf(a: Account, input: Input, body: Body, w: World, persisted: bool): (act: Act)
    ensures act.Edit?
  {
    var port := if input.port == 0 then a.port else input.port;
    var tag := if a.tag == "" || port != a.port then NewTag(port, input.name) else a.tag;
    Edit(input.name, input.enabled, port, tag, body, input.quota, input.expiry, input.monthly, w.now, w.month, persisted)
  }

  function EditedBy(a: Account, input: Input, body: Body, w: World): Account {
    Edited(a, EditOf(a, input, body, w, true))
  }

  // What a clone takes over and what it does not.
  predicate Cloned(source: Account, clone: Account, w: World) {
    && clone.up == clone.down == clone.allTime == 0
    && clone.quota == source.quota && clone.expiry == source.expiry && clone.monthly == source.monthly
    && clone.enabled == (source.enabled || source.reason.Quota?) && clone.reason.Unset?
    && clone.port > 0 && clone.tag == PanelTag(clone.port, ShortSlug(clone.name))
    && clone.lastReset == (if source.monthly then Some(w.month) else None)
    && clone.created == clone.updated == w.now
  }

  // ----- Over the whole table -----

  // After a successful tick nothing that is stored as enabled is expired or
  // over its quota.
  lemma TickEnforcesAll(rows: seq<Account>, now: int, month: nat, i: nat)
    requires i < |rows| && TickedAll(rows, now, month)[i].enabled
    ensures !Expired(TickedAll(rows, now, month)[i], now) && !OverQuota(TickedAll(rows, now, month)[i])
  {
    TickedAllAt(rows, now, month, i);
    TickEnforces(rows[i], now, month);
  }

  // Repeating the tick with nothing new to report changes nothing.
  lemma {:induction false} TickAllSettles(rows: seq<Account>, now: int, month: nat)
    ensures TickedAll(TickedAll(rows, now, month), now, month) == TickedAll(rows, now, month)
  {
    var once := TickedAll(rows, now, month);
    forall i: nat | i < |rows| ensures TickedAll(once, now, month)[i] == once[i] {
      TickedAllAt(rows, now, month, i);
      TickedAllAt(once, now, month, i);
      TickSettles(rows[i], now, month);
    }
  }

  // One tick of the service is, for each account, one act of its run.
  lemma TickIsStep(rows: seq<Account>, stats: seq<Delta>, now: int, month: nat, i: nat)
    requires i < |rows| && !RefusedBatch(stats, false)
    ensures var up, down := UpOf(stats, rows[i].tag), DownOf(stats, rows[i].tag);
            && up + down == Total(stats, rows[i].tag)
            && TickedAll(CreditedAll(rows, stats, now), now, month)[i] == Step(rows[i], Tick(up, down, true, true, now, month))
            && CreditedAll(rows, stats, now)[i] == Step(rows[i], Tick(up, down, true, false, now, month))
  {
    assert forall k :: 0 <= k < |stats| ==> stats[k] in stats;
    CreditedOnce(rows, stats, now, i);
    TickedAllAt(CreditedAll(rows, stats, now), now, month, i);
  }

  // Tags the panel generates for different ports are different.
  lemma GeneratedTagsApart(a: Account, b: Account, nameA: string, nameB: string)
    requires a.port > 0 && b.port > 0 && a.port != b.port
    requires a.tag == PanelTag(a.port, ShortSlug(nameA)) && b.tag == PanelTag(b.port, ShortSlug(nameB))
    ensures a.tag != b.tag
  {
    if a.tag == b.tag {
      PanelTagInjective(a.port, b.port, ShortSlug(nameA), ShortSlug(nameB));
    }
  }
}
