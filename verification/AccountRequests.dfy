/**
 Any sequence of requests to the account service: the live inbounds follow the
 rows, and each account that is there throughout plays one run.
 */
module AccountRequests {
  import opened Common
  import opened Accounts
  import opened AccountRuns
  import opened AccountStore
  import opened AccountService

  datatype Request =
    | Create(input: Input, created: Option<Body>, ports: Ports)
    | Update(id: int, input: Input, edited: Option<Body>, ports: Ports)
    | Clone(id: int, name: string, port: int, copied: Option<Body>, ports: Ports)
    | Delete(id: int)
    | SetEnabled(id: int, on: bool)
    | ResetTraffic(id: int)
    | ApplyTraffic(stats: seq<Delta>)
    | RestoreSnapshot(accounts: seq<Account>)

  // The rows a request that fails leaves behind: a tick may have recorded its
  // traffic before it failed.
  predicate LeftBehind(before: seq<Account>, after: seq<Account>, r: Request, now: int) {
    after == before || (r.ApplyTraffic? && after == CreditedAll(before, r.stats, now))
  }

  // ----- What a request is to one account -----

  // The act of the account's run, when the request reaches it.
  function ActOf(r: Request, w: World, ok: bool, a: Account): Option<Act> {
    match r
    case ApplyTraffic(stats) =>
      Some(Tick(UpOf(stats, a.tag), DownOf(stats, a.tag), !RefusedBatch(stats, w.batchFails), ok, w.now, w.month))
    case ResetTraffic(id) => if id == a.id then Some(Reset(w.now, ok)) else None
    case SetEnabled(id, on) => if id == a.id then Some(Switch(on, w.now, ok)) else None
    case Update(id, input, edited, _) =>
      if id == a.id && edited.Some? then Some(EditOf(a, input, edited.value, w, ok)) else None
    case _ => None
  }

  function Acted(a: Account, act: Option<Act>): Account {
    if act.None? then a else Step(a, act.value)
  }

  // Every account that is there before and after the request makes that act.
  predicate Follows(before: seq<Account>, after: seq<Account>, r: Request, w: World, ok: bool) {
    forall i, j :: 0 <= i < |before| && 0 <= j < |after| && before[i].id == after[j].id ==>
      after[j] == Acted(before[i], ActOf(r, w, ok, before[i]))
  }

  lemma UnchangedFollows(rows: seq<Account>, r: Request, w: World)
    requires TableOk(rows) && (r.ApplyTraffic? ==> RefusedBatch(r.stats, w.batchFails))
    ensures Follows(rows, rows, r, w, false)
  {
  }

  // The rows stay where they are and each makes its act.
  lemma InPlaceFollows(rows: seq<Account>, after: seq<Account>, r: Request, w: World, ok: bool)
    requires TableOk(rows) && |after| == |rows|
    requires forall i :: 0 <= i < |rows| ==> after[i] == Acted(rows[i], ActOf(r, w, ok, rows[i])) && after[i].id == rows[i].id
    ensures Follows(rows, after, r, w, ok)
  {
  }

  lemma ReplacedFollows(rows: seq<Account>, i: nat, b: Account, r: Request, w: World)
    requires TableOk(rows) && i < |rows| && b.id == rows[i].id && b == Acted(rows[i], ActOf(r, w, true, rows[i]))
    requires forall a: Account :: a.id != b.id ==> ActOf(r, w, true, a).None?
    ensures Follows(rows, rows[i := b], r, w, true)
  {
    InPlaceFollows(rows, rows[i := b], r, w, true);
  }

  lemma UpdateFollows(rows: seq<Account>, after: seq<Account>, i: nat, r: Request, w: World)
    requires TableOk(rows) && r.Update? && r.edited.Some? && i < |rows| && rows[i].id == r.id
    requires after == rows[i := EditedBy(rows[i], r.input, r.edited.value, w)]
    ensures Follows(rows, after, r, w, true)
  {
    ReplacedFollows(rows, i, EditedBy(rows[i], r.input, r.edited.value, w), r, w);
  }

  lemma SwitchFollows(rows: seq<Account>, after: seq<Account>, i: nat, r: Request, w: World)
    requires TableOk(rows) && r.SetEnabled? && i < |rows| && rows[i].id == r.id
    requires after == rows[i := Switched(rows[i], r.on, w.now)]
    ensures Follows(rows, after, r, w, true)
  {
    ReplacedFollows(rows, i, Switched(rows[i], r.on, w.now), r, w);
  }

  lemma ResetFollows(rows: seq<Account>, after: seq<Account>, i: nat, r: Request, w: World)
    requires TableOk(rows) && r.ResetTraffic? && i < |rows| && rows[i].id == r.id
    requires after == rows[i := ResetByHand(rows[i], w.now)]
    ensures Follows(rows, after, r, w, true)
  {
    ReplacedFollows(rows, i, ResetByHand(rows[i], w.now), r, w);
  }

  lemma RemovedFollows(rows: seq<Account>, k: nat, r: Request, w: World)
    requires TableOk(rows) && k < |rows| && r.Delete?
    ensures Follows(rows, rows[..k] + rows[k + 1..], r, w, true)
  {
    var after := rows[..k] + rows[k + 1..];
    forall j | 0 <= j < |after| ensures after[j] == rows[if j < k then j else j + 1] {
    }
  }

  lemma PlacedFollows(rows: seq<Account>, a: Account, r: Request, w: World)
    requires TableOk(rows) && (r.Create? || r.Clone?) && LeastUnused(a.id, IdsOf(rows))
    ensures Follows(rows, Placed(rows, a), r, w, true)
  {
    var after := Placed(rows, a);
    forall i, j | 0 <= i < |rows| && 0 <= j < |after| && rows[i].id == after[j].id ensures after[j] == rows[i] {
      PlacedWhere(rows, a, j);
      assert IdsOf(rows)[i] in IdsOf(rows);
    }
  }

  lemma PlacedWhere(rows: seq<Account>, a: Account, j: nat)
    requires j < |Placed(rows, a)|
    ensures var p := PlaceOf(rows, a.id);
            Placed(rows, a)[j] == if j < p then rows[j] else if j == p then a else rows[j - 1]
  {
  }

  lemma TickFollows(rows: seq<Account>, r: Request, w: World, ok: bool)
    requires TableOk(rows) && r.ApplyTraffic? && !RefusedBatch(r.stats, w.batchFails)
    ensures var credited := CreditedAll(rows, r.stats, w.now);
            Follows(rows, if ok then TickedAll(credited, w.now, w.month) else credited, r, w, ok)
  {
    var credited := CreditedAll(rows, r.stats, w.now);
    var after := if ok then TickedAll(credited, w.now, w.month) else credited;
    NotRefused(r.stats, w.batchFails);
    forall i: nat | i < |rows| ensures after[i] == Acted(rows[i], ActOf(r, w, ok, rows[i])) && after[i].id == rows[i].id {
      TickIsStep(rows, r.stats, w.now, w.month, i);
      TickIsAct(r, w, ok, rows[i]);
      ActKeepsId(rows[i], ActOf(r, w, ok, rows[i]));
    }
    InPlaceFollows(rows, after, r, w, ok);
  }

  lemma NotRefused(stats: seq<Delta>, fails: bool)
    requires !RefusedBatch(stats, fails)
    ensures !RefusedBatch(stats, false)
  {
  }

  lemma TickIsAct(r: Request, w: World, ok: bool, a: Account)
    requires r.ApplyTraffic? && !RefusedBatch(r.stats, w.batchFails)
    ensures Acted(a, ActOf(r, w, ok, a)) ==
            Step(a, Tick(UpOf(r.stats, a.tag), DownOf(r.stats, a.tag), true, ok, w.now, w.month))
  {
  }

  lemma ActKeepsId(a: Account, act: Option<Act>)
    ensures Acted(a, act).id == a.id
  {
  }

  // ----- The requests -----

  // A restore that succeeds, or that fails with its compensation, starts anew.
  predicate StartsAnew(r: Request, w: World, ok: bool) {
    r.RestoreSnapshot? && (ok || !Compensates(w))
  }

  /** One request. */
  method Serve(service: Service, r: Request, w: World) returns (ok: bool)
    requires service.Valid() && service.Synced() && w.now != 0
    modifies service.store, service.xray`file, service.xray`running
    ensures service.Valid() && (ok || Compensates(w) ==> service.Synced())
    ensures !ok && Compensates(w) ==> LeftBehind(old(service.store.rows), service.store.rows, r, w.now)
    ensures !StartsAnew(r, w, ok) ==> Follows(old(service.store.rows), service.store.rows, r, w, ok)
  {
    match r {
      case Create(_, _, _) => ok := ServeAddition(service, r, w);
      case Clone(_, _, _, _, _) => ok := ServeAddition(service, r, w);
      case Update(_, _, _, _) => ok := ServeUpdate(service, r, w);
      case Delete(_) => ok := ServeDelete(service, r, w);
      case SetEnabled(_, _) => ok := ServeSwitch(service, r, w);
      case ResetTraffic(_) => ok := ServeReset(service, r, w);
      case ApplyTraffic(_) => ok := ServeTick(service, r, w);
      case RestoreSnapshot(accounts) => ok := ServeRestore(service, r, w);
    }
  }

  method ServeAddition(service: Service, r: Request, w: World) returns (ok: bool)
    requires service.Valid() && service.Synced() && w.now != 0 && (r.Create? || r.Clone?)
    modifies service.store, service.xray`file, service.xray`running
    ensures service.Valid() && (ok || Compensates(w) ==> service.Synced())
    ensures !ok ==> service.store.rows == old(service.store.rows)
    ensures Follows(old(service.store.rows), service.store.rows, r, w, ok)
  {
    ghost var rows := service.store.rows;
    var stored: Option<Account>;
    var view;
    if r.Create? {
      stored, view := service.Create(r.input, r.created, r.ports, w);
    } else {
      stored, view := service.Clone(r.id, r.name, r.port, r.copied, r.ports, w);
    }
    ok := stored.Some?;
    if ok {
      PlacedFollows(rows, stored.value, r, w);
    } else {
      UnchangedFollows(rows, r, w);
    }
  }

  method ServeUpdate(service: Service, r: Request, w: World) returns (ok: bool)
    requires service.Valid() && service.Synced() && w.now != 0 && r.Update?
    modifies service.store, service.xray`file, service.xray`running
    ensures service.Valid() && (ok || Compensates(w) ==> service.Synced())
    ensures !ok ==> service.store.rows == old(service.store.rows)
    ensures Follows(old(service.store.rows), service.store.rows, r, w, ok)
  {
    ghost var rows := service.store.rows;
    var view;
    ok, view := service.Update(r.id, r.input, r.edited, r.ports, w);
    if ok {
      ghost var i :| 0 <= i < |rows| && rows[i].id == r.id &&
                     service.store.rows == rows[i := EditedBy(rows[i], r.input, r.edited.value, w)];
      UpdateFollows(rows, service.store.rows, i, r, w);
    } else {
      UnchangedFollows(rows, r, w);
    }
  }

  method ServeDelete(service: Service, r: Request, w: World) returns (ok: bool)
    requires service.Valid() && service.Synced() && w.now != 0 && r.Delete?
    modifies service.store, service.xray`file, service.xray`running
    ensures service.Valid() && (ok || Compensates(w) ==> service.Synced())
    ensures !ok ==> service.store.rows == old(service.store.rows)
    ensures Follows(old(service.store.rows), service.store.rows, r, w, ok)
  {
    ghost var rows := service.store.rows;
    ok := service.Delete(r.id, w);
    if ok {
      ghost var i :| 0 <= i < |rows| && rows[i].id == r.id && service.store.rows == rows[..i] + rows[i + 1..];
      RemovedFollows(rows, i, r, w);
    } else {
      UnchangedFollows(rows, r, w);
    }
  }

  method ServeSwitch(service: Service, r: Request, w: World) returns (ok: bool)
    requires service.Valid() && service.Synced() && w.now != 0 && r.SetEnabled?
    modifies service.store, service.xray`file, service.xray`running
    ensures service.Valid() && (ok || Compensates(w) ==> service.Synced())
    ensures !ok ==> service.store.rows == old(service.store.rows)
    ensures Follows(old(service.store.rows), service.store.rows, r, w, ok)
  {
    ghost var rows := service.store.rows;
    ok := service.SetEnabled(r.id, r.on, w);
    if ok {
      ghost var i :| 0 <= i < |rows| && rows[i].id == r.id && service.store.rows == rows[i := Switched(rows[i], r.on, w.now)];
      SwitchFollows(rows, service.store.rows, i, r, w);
    } else {
      UnchangedFollows(rows, r, w);
    }
  }

  method ServeReset(service: Service, r: Request, w: World) returns (ok: bool)
    requires service.Valid() && service.Synced() && w.now != 0 && r.ResetTraffic?
    modifies service.store, service.xray`file, service.xray`running
    ensures service.Valid() && (ok || Compensates(w) ==> service.Synced())
    ensures !ok ==> service.store.rows == old(service.store.rows)
    ensures Follows(old(service.store.rows), service.store.rows, r, w, ok)
  {
    ghost var rows := service.store.rows;
    ok := service.ResetTraffic(r.id, w);
    if ok {
      ghost var i :| 0 <= i < |rows| && rows[i].id == r.id && service.store.rows == rows[i := ResetByHand(rows[i], w.now)];
      ResetFollows(rows, service.store.rows, i, r, w);
    } else {
      UnchangedFollows(rows, r, w);
    }
  }

  method ServeTick(service: Service, r: Request, w: World) returns (ok: bool)
    requires service.Valid() && service.Synced() && w.now != 0 && r.ApplyTraffic?
    modifies service.store, service.xray`file, service.xray`running
    ensures service.Valid() && (ok || Compensates(w) ==> service.Synced())
    ensures !ok ==> LeftBehind(old(service.store.rows), service.store.rows, r, w.now)
    ensures Follows(old(service.store.rows), service.store.rows, r, w, ok)
  {
    ghost var rows := service.store.rows;
    ok := service.ApplyTraffic(r.stats, w);
    if RefusedBatch(r.stats, w.batchFails) {
      UnchangedFollows(rows, r, w);
    } else {
      TickFollows(rows, r, w, ok);
    }
  }

  method ServeRestore(service: Service, r: Request, w: World) returns (ok: bool)
    requires service.Valid() && service.Synced() && w.now != 0 && r.RestoreSnapshot?
    modifies service.store, service.xray`file, service.xray`running
    ensures service.Valid() && (ok || Compensates(w) ==> service.Synced())
    ensures !ok && Compensates(w) ==> service.store.rows == old(service.store.rows)
    ensures !StartsAnew(r, w, ok) ==> Follows(old(service.store.rows), service.store.rows, r, w, ok)
  {
    ghost var rows := service.store.rows;
    ok := service.RestoreSnapshot(r.accounts, w);
    if !StartsAnew(r, w, ok) {
      UnchangedFollows(rows, r, w);
    }
  }

  // ----- Requests one after another -----

  datatype Served = Served(request: Request, world: World, ok: bool)

  // The rows before each request and after the last.
  predicate Traces(trail: seq<seq<Account>>, served: seq<Served>) {
    && |trail| == |served| + 1
    && forall k {:trigger served[k]} :: 0 <= k < |served| && !StartsAnew(served[k].request, served[k].world, served[k].ok) ==>
         Follows(trail[k], trail[k + 1], served[k].request, served[k].world, served[k].ok)
  }

  predicate Answers(served: seq<Served>, requests: seq<(Request, World)>) {
    && |served| == |requests|
    && forall k :: 0 <= k < |served| ==> served[k].request == requests[k].0 && served[k].world == requests[k].1
  }

  /** Requests one after another: whichever of them fail, and wherever they do, in
      the end the inbounds Xray runs are those of the enabled stored accounts, as
      long as no compensation fails. */
  method ServeAll(service: Service, requests: seq<(Request, World)>) returns (served: seq<Served>, ghost trail: seq<seq<Account>>)
    requires service.Valid() && service.Synced()
    requires forall i :: 0 <= i < |requests| ==> requests[i].1.now != 0 && Compensates(requests[i].1)
    modifies service.store, service.xray`file, service.xray`running
    ensures service.Valid() && service.Synced() && Answers(served, requests)
    ensures Traces(trail, served) && trail[0] == old(service.store.rows) && trail[|served|] == service.store.rows
    ensures forall k :: 0 <= k < |served| && !served[k].ok ==>
              LeftBehind(trail[k], trail[k + 1], served[k].request, served[k].world.now)
  {
    served, trail := [], [service.store.rows];
    for i := 0 to |requests|
      invariant service.Valid() && service.Synced() && |served| == i
      invariant Answers(served, requests[..i]) && Traces(trail, served)
      invariant trail[0] == old(service.store.rows) && trail[i] == service.store.rows
      invariant forall k :: 0 <= k < i && !served[k].ok ==>
                  LeftBehind(trail[k], trail[k + 1], served[k].request, served[k].world.now)
    {
      var ok := Serve(service, requests[i].0, requests[i].1);
      served, trail := served + [Served(requests[i].0, requests[i].1, ok)], trail + [service.store.rows];
    }
    assert requests[..|requests|] == requests;
  }

  // ----- One account through the requests -----

  function RowOf(rows: seq<Account>, id: int): (a: Option<Account>)
    ensures a.Some? ==> a.value in rows && a.value.id == id
    ensures a.None? ==> forall i :: 0 <= i < |rows| ==> rows[i].id != id
  {
    if rows == [] then None else if rows[0].id == id then Some(rows[0]) else RowOf(rows[1..], id)
  }

  // The account is there from the m-th to the n-th state, and no restore comes
  // in between.
  predicate Lives(trail: seq<seq<Account>>, served: seq<Served>, id: int, m: nat, n: nat) {
    && |trail| == |served| + 1 && m <= n <= |served|
    && (forall k :: m <= k <= n ==> RowOf(trail[k], id).Some?)
    && forall k :: m <= k < n ==> !StartsAnew(served[k].request, served[k].world, served[k].ok)
  }

  function Answered(v: Served, a: Account): seq<Act> {
    match ActOf(v.request, v.world, v.ok, a)
    case None => []
    case Some(act) => [act]
  }

  // What the requests are to the account, in turn.
  function ActsOf(trail: seq<seq<Account>>, served: seq<Served>, id: int, m: nat, n: nat): seq<Act>
    requires Lives(trail, served, id, m, n)
  {
    if n == m then []
    else ActsOf(trail, served, id, m, n - 1) + Answered(served[n - 1], RowOf(trail[n - 1], id).value)
  }

  lemma PlaysOn(a: Account, acts: seq<Act>, v: Served, b: Account)
    requires b == Play(a, acts)
    ensures Play(a, acts + Answered(v, b)) == Acted(b, ActOf(v.request, v.world, v.ok, b))
  {
    if ActOf(v.request, v.world, v.ok, b).None? {
      assert acts + Answered(v, b) == acts;
    } else {
      assert (acts + Answered(v, b))[..|acts|] == acts;
    }
  }

  // The account goes from one state to the next by the act of the request.
  lemma RowFollows(before: seq<Account>, after: seq<Account>, v: Served, id: int)
    requires Follows(before, after, v.request, v.world, v.ok) && RowOf(before, id).Some? && RowOf(after, id).Some?
    ensures var a := RowOf(before, id).value; RowOf(after, id).value == Acted(a, ActOf(v.request, v.world, v.ok, a))
  {
    var i :| 0 <= i < |before| && before[i] == RowOf(before, id).value;
    var j :| 0 <= j < |after| && after[j] == RowOf(after, id).value;
  }

  // The second is where these acts take the first.
  predicate Leads(a: Option<Account>, acts: seq<Act>, b: Option<Account>) {
    a.Some? && b.Some? && b.value == Play(a.value, acts)
  }

  lemma LeadsOn(a: Option<Account>, acts: seq<Act>, v: Served, before: seq<Account>, after: seq<Account>, id: int)
    requires Follows(before, after, v.request, v.world, v.ok) && RowOf(after, id).Some?
    requires Leads(a, acts, RowOf(before, id))
    ensures Leads(a, acts + Answered(v, RowOf(before, id).value), RowOf(after, id))
  {
    RowFollows(before, after, v, id);
    PlaysOn(a.value, acts, v, RowOf(before, id).value);
  }

  lemma LeadsAfter(trail: seq<seq<Account>>, served: seq<Served>, id: int, m: nat, n: nat)
    requires Traces(trail, served) && m < n && Lives(trail, served, id, m, n)
    requires Leads(RowOf(trail[m], id), ActsOf(trail, served, id, m, n - 1), RowOf(trail[n - 1], id))
    ensures Leads(RowOf(trail[m], id), ActsOf(trail, served, id, m, n), RowOf(trail[n], id))
  {
    TraceFollows(trail, served, n);
    LeadsOn(RowOf(trail[m], id), ActsOf(trail, served, id, m, n - 1), served[n - 1], trail[n - 1], trail[n], id);
  }

  lemma TraceFollows(trail: seq<seq<Account>>, served: seq<Served>, n: nat)
    requires Traces(trail, served) && 0 < n <= |served|
    requires !StartsAnew(served[n - 1].request, served[n - 1].world, served[n - 1].ok)
    ensures Follows(trail[n - 1], trail[n], served[n - 1].request, served[n - 1].world, served[n - 1].ok)
  {
    var k := n - 1;
    assert Follows(trail[k], trail[k + 1], served[k].request, served[k].world, served[k].ok);
  }

  lemma LeadsNowhere(a: Option<Account>)
    requires a.Some?
    ensures Leads(a, [], a)
  {
  }

  // Whatever is requested, and whichever requests fail, an account that stays
  // plays the run of its acts.
  lemma {:induction false} AccountPlays(trail: seq<seq<Account>>, served: seq<Served>, id: int, m: nat, n: nat)
    requires Traces(trail, served) && Lives(trail, served, id, m, n)
    ensures Leads(RowOf(trail[m], id), ActsOf(trail, served, id, m, n), RowOf(trail[n], id))
  {
    if m < n {
      AccountPlays(trail, served, id, m, n - 1);
      assert Leads(RowOf(trail[m], id), ActsOf(trail, served, id, m, n - 1), RowOf(trail[n - 1], id));
      LeadsAfter(trail, served, id, m, n);
    } else {
      LeadsNowhere(RowOf(trail[m], id));
    }
  }

  // ----- Lifetime traffic -----

  // What the store accepted of the reports for the account's tag at the time.
  function Reported(trail: seq<seq<Account>>, served: seq<Served>, id: int, m: nat, n: nat): int
    requires Lives(trail, served, id, m, n)
  {
    if n == m then 0
    else Reported(trail, served, id, m, n - 1) + ReportedBy(served[n - 1], RowOf(trail[n - 1], id).value.tag)
  }

  function ReportedBy(v: Served, tag: string): int {
    if v.request.ApplyTraffic? && !RefusedBatch(v.request.stats, v.world.batchFails) then Total(v.request.stats, tag) else 0
  }

  lemma AcceptsOne(acts: seq<Act>, v: Served, a: Account)
    ensures Accepted(acts + Answered(v, a)) == Accepted(acts) + ReportedBy(v, a.tag)
  {
    if ActOf(v.request, v.world, v.ok, a).None? {
      assert acts + Answered(v, a) == acts;
    } else {
      assert (acts + Answered(v, a))[..|acts|] == acts;
      if v.request.ApplyTraffic? && !RefusedBatch(v.request.stats, v.world.batchFails) {
        assert forall k :: 0 <= k < |v.request.stats| ==> v.request.stats[k] in v.request.stats;
        CreditedOnce([a], v.request.stats, v.world.now, 0);
      }
    }
  }

  lemma {:induction false} AcceptedIsReported(trail: seq<seq<Account>>, served: seq<Served>, id: int, m: nat, n: nat)
    requires Lives(trail, served, id, m, n)
    ensures Accepted(ActsOf(trail, served, id, m, n)) == Reported(trail, served, id, m, n)
  {
    if m < n {
      AcceptedIsReported(trail, served, id, m, n - 1);
      AcceptsOne(ActsOf(trail, served, id, m, n - 1), served[n - 1], RowOf(trail[n - 1], id).value);
    }
  }

  // Through any requests, the lifetime bytes of a stored account grow by exactly
  // what the store accepted for it.
  lemma ServiceConservesLifetime(trail: seq<seq<Account>>, served: seq<Served>, id: int, m: nat, n: nat)
    requires Traces(trail, served) && Lives(trail, served, id, m, n)
    ensures RowOf(trail[n], id).value.allTime == RowOf(trail[m], id).value.allTime + Reported(trail, served, id, m, n)
  {
    AccountPlays(trail, served, id, m, n);
    LifetimeConserved(RowOf(trail[m], id).value, ActsOf(trail, served, id, m, n));
    AcceptedIsReported(trail, served, id, m, n);
  }

  // ----- Monthly resets -----

  // Months never go back, and start at the one the account has accounted.
  predicate MonthsPass(served: seq<Served>, m: nat, n: nat, since: Option<nat>) {
    && m <= n <= |served|
    && (forall k :: m <= k < n && since.Some? ==> since.value <= served[k].world.month)
    && forall k, l :: m <= k < l < n ==> served[k].world.month <= served[l].world.month
  }

  lemma {:induction false} ActsAreOrdered(trail: seq<seq<Account>>, served: seq<Served>, id: int, m: nat, n: nat, since: Option<nat>)
    requires Lives(trail, served, id, m, n) && MonthsPass(served, m, n, since)
    ensures var acts := ActsOf(trail, served, id, m, n);
            && Ordered(acts, since)
            && (n > m ==> forall i :: 0 <= i < |acts| && IsDated(acts[i]) ==> acts[i].month <= served[n - 1].world.month)
  {
    if m < n {
      ActsAreOrdered(trail, served, id, m, n - 1, since);
      OneMoreIsOrdered(ActsOf(trail, served, id, m, n - 1), served[n - 1], RowOf(trail[n - 1], id).value, since);
    }
  }

  lemma OneMoreIsOrdered(acts: seq<Act>, v: Served, a: Account, since: Option<nat>)
    requires Ordered(acts, since) && (since.Some? ==> since.value <= v.world.month)
    requires forall i :: 0 <= i < |acts| && IsDated(acts[i]) ==> acts[i].month <= v.world.month
    ensures Ordered(acts + Answered(v, a), since)
    ensures forall i :: 0 <= i < |acts + Answered(v, a)| && IsDated((acts + Answered(v, a))[i]) ==>
              (acts + Answered(v, a))[i].month <= v.world.month
  {
    forall i | 0 <= i < |Answered(v, a)| && IsDated(Answered(v, a)[i]) ensures Answered(v, a)[i].month == v.world.month {
    }
  }

  // Through any requests, the policy zeroes the counters of a stored account
  // once for every month that a tick was the first to settle.
  lemma ServiceResetsOncePerMonth(trail: seq<seq<Account>>, served: seq<Served>, id: int, m: nat, n: nat)
    requires Traces(trail, served) && Lives(trail, served, id, m, n) && MonthsPass(served, m, n, RowOf(trail[m], id).value.lastReset)
    ensures var a, acts := RowOf(trail[m], id).value, ActsOf(trail, served, id, m, n);
            RowOf(trail[n], id).value == Play(a, acts) && ResetsOf(a, acts) == |FirstByTick(a, acts)|
  {
    var a := RowOf(trail[m], id).value;
    AccountPlays(trail, served, id, m, n);
    ActsAreOrdered(trail, served, id, m, n, a.lastReset);
    OneResetPerSettledMonth(a, ActsOf(trail, served, id, m, n));
  }

  // ----- Accounts switched off by hand -----

  // The request does not switch the account on, and a tick finds it below its
  // quota and not expired.
  predicate LeavesOff(v: Served, a: Account) {
    match v.request
    case SetEnabled(id, on) => id == a.id && v.ok ==> !on
    case Update(id, input, _, _) => id == a.id && v.ok ==> !input.enabled
    case ApplyTraffic(stats) =>
      v.ok && !RefusedBatch(stats, v.world.batchFails) ==>
        var r := Recorded(a, UpOf(stats, a.tag), DownOf(stats, a.tag), v.world.now);
        !Expired(r, v.world.now) && (!OverQuota(r) || NewMonth(r, v.world.month))
    case _ => true
  }

  // The acts so far keep the account below its limits, and lead to b.
  ghost predicate Below(a: Option<Account>, acts: seq<Act>, b: Option<Account>) {
    Leads(a, acts, b) && BelowLimits(a.value, acts)
  }

  lemma StaysBelow(a: Account, acts: seq<Act>, v: Served, b: Account)
    requires BelowLimits(a, acts) && b == Play(a, acts) && LeavesOff(v, b)
    ensures BelowLimits(a, acts + Answered(v, b))
  {
    match ActOf(v.request, v.world, v.ok, b) {
      case None => assert acts + Answered(v, b) == acts;
      case Some(act) =>
        ActLeavesOff(v, b, act);
        BelowOneMore(a, acts, act);
    }
  }

  // One more act that turns nothing on and finds the account below its limits.
  predicate KeepsBelow(b: Account, act: Act) {
    && ((act.Switch? || act.Edit?) && act.persisted ==> !act.on)
    && (Persists(act) ==>
          var r := Recorded(b, act.up, act.down, act.now);
          !Expired(r, act.now) && (!OverQuota(r) || NewMonth(r, act.month)))
  }

  lemma BelowOneMore(a: Account, acts: seq<Act>, act: Act)
    requires BelowLimits(a, acts) && KeepsBelow(Play(a, acts), act)
    ensures BelowLimits(a, acts + [act])
  {
    assert (acts + [act])[..|acts|] == acts;
  }

  lemma ActLeavesOff(v: Served, b: Account, act: Act)
    requires LeavesOff(v, b) && ActOf(v.request, v.world, v.ok, b) == Some(act)
    ensures KeepsBelow(b, act)
  {
  }

  lemma BelowAfter(trail: seq<seq<Account>>, served: seq<Served>, id: int, m: nat, n: nat)
    requires Traces(trail, served) && m < n && Lives(trail, served, id, m, n)
    requires LeavesOff(served[n - 1], RowOf(trail[n - 1], id).value)
    requires Below(RowOf(trail[m], id), ActsOf(trail, served, id, m, n - 1), RowOf(trail[n - 1], id))
    ensures Below(RowOf(trail[m], id), ActsOf(trail, served, id, m, n), RowOf(trail[n], id))
  {
    LeadsAfter(trail, served, id, m, n);
    StaysBelow(RowOf(trail[m], id).value, ActsOf(trail, served, id, m, n - 1), served[n - 1], RowOf(trail[n - 1], id).value);
  }

  predicate AllLeaveOff(trail: seq<seq<Account>>, served: seq<Served>, id: int, m: nat, n: nat)
    requires Lives(trail, served, id, m, n)
  {
    forall k :: m <= k < n ==> LeavesOff(served[k], RowOf(trail[k], id).value)
  }

  lemma {:induction false} ActsStayBelow(trail: seq<seq<Account>>, served: seq<Served>, id: int, m: nat, n: nat)
    requires Traces(trail, served) && Lives(trail, served, id, m, n) && AllLeaveOff(trail, served, id, m, n)
    ensures Below(RowOf(trail[m], id), ActsOf(trail, served, id, m, n), RowOf(trail[n], id))
  {
    if m < n {
      ActsStayBelow(trail, served, id, m, n - 1);
      BelowAfter(trail, served, id, m, n);
    } else {
      LeadsNowhere(RowOf(trail[m], id));
    }
  }

  // A stored account that was switched off by hand stays so through any
  // requests that leave it off.
  lemma ServiceKeepsOff(trail: seq<seq<Account>>, served: seq<Served>, id: int, m: nat, n: nat)
    requires Traces(trail, served) && Lives(trail, served, id, m, n) && SwitchedOffByHand(RowOf(trail[m], id).value)
    requires AllLeaveOff(trail, served, id, m, n)
    ensures SwitchedOffByHand(RowOf(trail[n], id).value)
  {
    AccountPlays(trail, served, id, m, n);
    ActsStayBelow(trail, served, id, m, n);
    ManualStaysOff(RowOf(trail[m], id).value, ActsOf(trail, served, id, m, n));
  }
}
