/** The accounts table: atomic replacement and atomic traffic batches. */
module AccountStore {
  import opened Common
  import opened XrayConfig
  import opened Accounts
  import opened AccountRuns

  // ----- Rows, in the order they are listed -----

  predicate RowOk(a: Account) {
    a.id > 0 && 1 <= a.port <= 65535 && a.created != 0 && a.updated != 0
  }

  predicate Apart(a: Account, b: Account) {
    a.id != b.id && a.port != b.port && a.tag != b.tag
  }

  predicate TableOk(rows: seq<Account>) {
    && (forall i :: 0 <= i < |rows| ==> RowOk(rows[i]))
    && (forall i, j :: 0 <= i < j < |rows| ==> rows[i].id < rows[j].id && Apart(rows[i], rows[j]))
  }

  // Where a row of this id stands among rows listed by id.
  function PlaceOf(rows: seq<Account>, id: int): (k: nat)
    ensures k <= |rows|
  {
    if rows == [] || rows[0].id > id then 0 else 1 + PlaceOf(rows[1..], id)
  }

  function Placed(rows: seq<Account>, a: Account): seq<Account> {
    rows[..PlaceOf(rows, a.id)] + [a] + rows[PlaceOf(rows, a.id)..]
  }

  function Stamped(a: Account, now: int): Account {
    a.(created := if a.created == 0 then now else a.created, updated := if a.updated == 0 then now else a.updated)
  }

  predicate Fits(rows: seq<Account>, a: Account) {
    1 <= a.port <= 65535 && forall i :: 0 <= i < |rows| ==> Apart(rows[i], a)
  }

  /** Rows under construction and the last id SQLite handed out. */
  datatype Table = Table(rows: seq<Account>, lastId: int)

  // An account without an id is given the one after the largest ever used.
  function Inserted(t: Table, a: Account, now: int): Option<Table> {
    var b := Given(a, t.lastId, now);
    if Fits(t.rows, b) then Some(Table(Placed(t.rows, b), if b.id > t.lastId then b.id else t.lastId)) else None
  }

  function InsertedAll(t: Table, accounts: seq<Account>, now: int): Option<Table>
    decreases |accounts|
  {
    if accounts == [] then Some(t)
    else
      match InsertedAll(t, accounts[..|accounts| - 1], now)
      case None => None
      case Some(u) => Inserted(u, accounts[|accounts| - 1], now)
  }

  lemma {:induction false} PlaceSplits(rows: seq<Account>, id: int)
    requires forall i, j :: 0 <= i < j < |rows| ==> rows[i].id < rows[j].id
    ensures forall i :: 0 <= i < PlaceOf(rows, id) ==> rows[i].id <= id
    ensures forall i :: PlaceOf(rows, id) <= i < |rows| ==> rows[i].id > id
  {
    if rows != [] && rows[0].id <= id {
      PlaceSplits(rows[1..], id);
      forall i | 1 <= i < |rows| ensures rows[i] == rows[1..][i - 1] {
      }
    }
  }

  predicate TableValid(t: Table) {
    TableOk(t.rows) && t.lastId >= 0 && forall i :: 0 <= i < |t.rows| ==> t.rows[i].id <= t.lastId
  }

  lemma JoinedAt<T>(s: seq<T>, x: T, k: nat, i: nat)
    requires k <= |s| && i <= |s|
    ensures (s[..k] + [x] + s[k..])[i] == if i < k then s[i] else if i == k then x else s[i - 1]
  {
  }

  lemma PlacedAt(rows: seq<Account>, a: Account, i: nat)
    requires i <= |rows|
    ensures var k := PlaceOf(rows, a.id);
            Placed(rows, a)[i] == if i < k then rows[i] else if i == k then a else rows[i - 1]
  {
    JoinedAt(rows, a, PlaceOf(rows, a.id), i);
  }

  lemma PlacedKeepsTable(rows: seq<Account>, a: Account)
    requires TableOk(rows) && RowOk(a) && Fits(rows, a)
    ensures TableOk(Placed(rows, a))
  {
    PlaceSplits(rows, a.id);
    var k, out := PlaceOf(rows, a.id), Placed(rows, a);
    forall i: nat | i < |out| ensures RowOk(out[i]) {
      PlacedAt(rows, a, i);
    }
    forall i: nat, j: nat | i < j < |out| ensures out[i].id < out[j].id && Apart(out[i], out[j]) {
      PlacedAt(rows, a, i);
      PlacedAt(rows, a, j);
      if i == k {
        assert Apart(rows[j - 1], a);
      } else if j == k {
        assert Apart(rows[i], a);
      }
    }
  }

  lemma PlacedIdsBelow(rows: seq<Account>, a: Account, bound: int)
    requires a.id <= bound && forall i :: 0 <= i < |rows| ==> rows[i].id <= bound
    ensures forall i :: 0 <= i < |Placed(rows, a)| ==> Placed(rows, a)[i].id <= bound
  {
    forall i: nat | i < |Placed(rows, a)| ensures Placed(rows, a)[i].id <= bound {
      PlacedAt(rows, a, i);
    }
  }

  lemma PlacedKeepsValid(rows: seq<Account>, lastId: int, b: Account)
    requires TableValid(Table(rows, lastId)) && RowOk(b) && Fits(rows, b)
    ensures TableValid(Table(Placed(rows, b), if b.id > lastId then b.id else lastId))
  {
    PlacedKeepsTable(rows, b);
    PlacedIdsBelow(rows, b, if b.id > lastId then b.id else lastId);
  }

  function Given(a: Account, lastId: int, now: int): Account {
    Stamped(if a.id > 0 then a else a.(id := lastId + 1), now)
  }

  lemma GivenOk(a: Account, lastId: int, now: int)
    requires lastId >= 0 && now != 0 && 1 <= a.port <= 65535
    ensures RowOk(Given(a, lastId, now)) && AsInbound(Given(a, lastId, now)) == AsInbound(a)
  {
  }

  lemma InsertedKeepsTable(t: Table, a: Account, now: int)
    requires TableValid(t) && now != 0 && Inserted(t, a, now).Some?
    ensures TableValid(Inserted(t, a, now).value)
  {
    GivenOk(a, t.lastId, now);
    PlacedKeepsValid(t.rows, t.lastId, Given(a, t.lastId, now));
  }

  lemma {:induction false} InsertedAllKeepsTable(t: Table, accounts: seq<Account>, now: int)
    requires TableValid(t) && now != 0 && InsertedAll(t, accounts, now).Some?
    ensures TableValid(InsertedAll(t, accounts, now).value)
    decreases |accounts|
  {
    if accounts != [] {
      InsertedAllKeepsTable(t, accounts[..|accounts| - 1], now);
      InsertedKeepsTable(InsertedAll(t, accounts[..|accounts| - 1], now).value, accounts[|accounts| - 1], now);
    }
  }

  // What is stored exposes what was given, whatever ids were handed out and in
  // whatever order the rows are listed.
  lemma {:induction false} StoredExposes(t: Table, accounts: seq<Account>, now: int, x: Inbound)
    requires InsertedAll(t, accounts, now).Some?
    ensures x in AsInbounds(InsertedAll(t, accounts, now).value.rows) <==> x in AsInbounds(t.rows) || x in AsInbounds(accounts)
    decreases |accounts|
  {
    if accounts != [] {
      var rest, last := accounts[..|accounts| - 1], accounts[|accounts| - 1];
      StoredExposes(t, rest, now, x);
      var u := InsertedAll(t, rest, now).value;
      var b := Given(last, u.lastId, now);
      PlacedExposes(u.rows, b, x);
      assert accounts == rest + [last];
      ExposesAppended(rest, last, x);
      assert AsInbound(b) == AsInbound(last);
    }
  }

  lemma InboundsConcat(a: seq<Account>, b: seq<Account>)
    ensures AsInbounds(a + b) == AsInbounds(a) + AsInbounds(b)
  {
  }

  lemma InboundOne(a: Account)
    ensures AsInbounds([a]) == [AsInbound(a)]
  {
  }

  lemma ExposesAppended(rows: seq<Account>, a: Account, x: Inbound)
    ensures x in AsInbounds(rows + [a]) <==> x in AsInbounds(rows) || x == AsInbound(a)
  {
    InboundsConcat(rows, [a]);
    InboundOne(a);
  }

  lemma PlacedExposes(rows: seq<Account>, a: Account, x: Inbound)
    ensures x in AsInbounds(Placed(rows, a)) <==> x in AsInbounds(rows) || x == AsInbound(a)
  {
    var k := PlaceOf(rows, a.id);
    InboundsConcat(rows[..k] + [a], rows[k..]);
    ExposesAppended(rows[..k], a, x);
    InboundsConcat(rows[..k], rows[k..]);
    assert rows[..k] + rows[k..] == rows;
  }

  lemma {:induction false} LastPlace(rows: seq<Account>, id: int)
    requires forall i :: 0 <= i < |rows| ==> rows[i].id <= id
    ensures PlaceOf(rows, id) == |rows|
  {
    if rows != [] {
      forall i | 0 <= i < |rows[1..]| ensures rows[1..][i].id <= id {
        assert rows[1..][i] == rows[i + 1];
      }
      LastPlace(rows[1..], id);
    }
  }

  lemma LastInserted(t: Table, a: Account, now: int)
    requires TableOk(t.rows + [a])
    ensures Inserted(t, a, now).Some? && Inserted(t, a, now).value.rows == t.rows + [a]
  {
    var all := t.rows + [a];
    assert RowOk(all[|t.rows|]);
    forall i | 0 <= i < |t.rows| ensures t.rows[i].id < a.id && Apart(t.rows[i], a) {
      assert all[i] == t.rows[i] && all[|t.rows|] == a;
    }
    LastPlace(t.rows, a.id);
  }

  lemma TableSplits(rows: seq<Account>)
    requires TableOk(rows) && rows != []
    ensures TableOk(rows[..|rows| - 1]) && rows[..|rows| - 1] + [rows[|rows| - 1]] == rows
  {
  }

  // Rows listed from a table go back into an empty one unchanged.
  lemma {:induction false} ListedAgain(rows: seq<Account>, lastId: int, now: int)
    requires TableOk(rows)
    ensures InsertedAll(Table([], lastId), rows, now).Some?
    ensures InsertedAll(Table([], lastId), rows, now).value.rows == rows
    decreases |rows|
  {
    if rows != [] {
      TableSplits(rows);
      ListedAgain(rows[..|rows| - 1], lastId, now);
      LastInserted(InsertedAll(Table([], lastId), rows[..|rows| - 1], now).value, rows[|rows| - 1], now);
    }
  }

  predicate Listable(rows: seq<Account>) {
    && (forall i :: 0 <= i < |rows| ==> rows[i].id > 0 && rows[i].created != 0 && rows[i].updated != 0)
    && (forall i, j :: 0 <= i < j < |rows| ==> rows[i].id < rows[j].id)
  }

  lemma ListableSplits(rows: seq<Account>, now: int)
    requires Listable(rows) && rows != []
    ensures var rest, last := rows[..|rows| - 1], rows[|rows| - 1];
            && Listable(rest) && rest + [last] == rows && last.id > 0 && Stamped(last, now) == last
            && forall i :: 0 <= i < |rest| ==> rest[i].id <= last.id
  {
  }

  lemma InsertedLast(t: Table, a: Account, now: int)
    requires a.id > 0 && Stamped(a, now) == a && Inserted(t, a, now).Some?
    requires forall i :: 0 <= i < |t.rows| ==> t.rows[i].id <= a.id
    ensures Inserted(t, a, now).value.rows == t.rows + [a]
  {
    LastPlace(t.rows, a.id);
  }

  // Rows already in listing order are stored as they stand, if they are stored at all.
  lemma {:induction false} StoredAsListed(rows: seq<Account>, lastId: int, now: int)
    requires Listable(rows) && InsertedAll(Table([], lastId), rows, now).Some?
    ensures InsertedAll(Table([], lastId), rows, now).value.rows == rows
    decreases |rows|
  {
    if rows != [] {
      var rest, last := rows[..|rows| - 1], rows[|rows| - 1];
      ListableSplits(rows, now);
      StoredAsListed(rest, lastId, now);
      InsertedLast(InsertedAll(Table([], lastId), rest, now).value, last, now);
    }
  }

  // A new account joins the rows that are already there.
  lemma StoredWithOne(rows: seq<Account>, a: Account, lastId: int, now: int)
    requires TableOk(rows) && a.id > 0 && Stamped(a, now) == a
    requires InsertedAll(Table([], lastId), rows + [a], now).Some?
    ensures InsertedAll(Table([], lastId), rows + [a], now).value.rows == Placed(rows, a)
  {
    ListedAgain(rows, lastId, now);
    assert (rows + [a])[..|rows|] == rows;
  }

  // ----- Traffic -----

  datatype Delta = Delta(tag: string, up: int, down: int)

  predicate Counts(d: Delta) {
    d.tag != "" && (d.up != 0 || d.down != 0)
  }

  function Credited(a: Account, d: Delta, now: int): Account {
    if d.tag == a.tag && Counts(d)
    then a.(up := a.up + d.up, down := a.down + d.down, allTime := a.allTime + d.up + d.down, updated := now)
    else a
  }

  function CreditedAll(rows: seq<Account>, deltas: seq<Delta>, now: int): (out: seq<Account>)
    ensures |out| == |rows|
    decreases |deltas|
  {
    if deltas == [] then rows
    else Credit(CreditedAll(rows, deltas[..|deltas| - 1], now), deltas[|deltas| - 1], now)
  }

  function Credit(rows: seq<Account>, d: Delta, now: int): (out: seq<Account>)
    ensures |out| == |rows|
    ensures forall i :: 0 <= i < |rows| ==> out[i] == Credited(rows[i], d, now)
  {
    seq(|rows|, i requires 0 <= i < |rows| => Credited(rows[i], d, now))
  }

  function Total(deltas: seq<Delta>, tag: string): int
    decreases |deltas|
  {
    if deltas == [] then 0
    else
      var d := deltas[|deltas| - 1];
      Total(deltas[..|deltas| - 1], tag) + if d.tag == tag && tag != "" then d.up + d.down else 0
  }

  // Each account is credited the whole of what was reported for its tag.
  lemma {:induction false} CreditIsTotal(rows: seq<Account>, deltas: seq<Delta>, now: int, i: nat)
    requires i < |rows|
    ensures var a := CreditedAll(rows, deltas, now)[i];
            && a.allTime == rows[i].allTime + Total(deltas, rows[i].tag)
            && a.up + a.down - (rows[i].up + rows[i].down) == Total(deltas, rows[i].tag)
            && SameBut(a, rows[i])
    decreases |deltas|
  {
    if deltas != [] {
      CreditIsTotal(rows, deltas[..|deltas| - 1], now, i);
    }
  }

  // What is reported as sent, and as received, for a tag.
  function UpOf(deltas: seq<Delta>, tag: string): nat
    decreases |deltas|
  {
    if deltas == [] then 0
    else
      var d := deltas[|deltas| - 1];
      UpOf(deltas[..|deltas| - 1], tag) + if d.tag == tag && tag != "" && d.up > 0 then d.up else 0
  }

  function DownOf(deltas: seq<Delta>, tag: string): nat
    decreases |deltas|
  {
    if deltas == [] then 0
    else
      var d := deltas[|deltas| - 1];
      DownOf(deltas[..|deltas| - 1], tag) + if d.tag == tag && tag != "" && d.down > 0 then d.down else 0
  }

  // However the reports are ordered, and however often a tag is reported, an
  // account sees one credit: the one its run records.
  lemma {:induction false} CreditedOnce(rows: seq<Account>, deltas: seq<Delta>, now: int, i: nat)
    requires i < |rows| && forall k :: 0 <= k < |deltas| ==> !Negative(deltas[k])
    ensures var tag := rows[i].tag;
            && CreditedAll(rows, deltas, now)[i] == Recorded(rows[i], UpOf(deltas, tag), DownOf(deltas, tag), now)
            && UpOf(deltas, tag) + DownOf(deltas, tag) == Total(deltas, tag)
    decreases |deltas|
  {
    if deltas != [] {
      CreditedOnce(rows, deltas[..|deltas| - 1], now, i);
    }
  }

  // Only counters and the time stamp differ.
  predicate SameBut(a: Account, b: Account) {
    a == b.(up := a.up, down := a.down, allTime := a.allTime, updated := a.updated)
  }

  lemma CreditKeepsTable(rows: seq<Account>, d: Delta, now: int)
    requires TableOk(rows) && now != 0
    ensures TableOk(Credit(rows, d, now))
  {
  }

  lemma CreditKeepsInbounds(rows: seq<Account>, d: Delta, now: int)
    ensures AsInbounds(Credit(rows, d, now)) == AsInbounds(rows)
  {
  }

  lemma {:induction false} CreditedAllKeeps(rows: seq<Account>, deltas: seq<Delta>, now: int)
    requires TableOk(rows) && now != 0
    ensures TableOk(CreditedAll(rows, deltas, now))
    ensures AsInbounds(CreditedAll(rows, deltas, now)) == AsInbounds(rows)
    decreases |deltas|
  {
    if deltas != [] {
      CreditedAllKeeps(rows, deltas[..|deltas| - 1], now);
      var before := CreditedAll(rows, deltas[..|deltas| - 1], now);
      CreditKeepsTable(before, deltas[|deltas| - 1], now);
      CreditKeepsInbounds(before, deltas[|deltas| - 1], now);
    }
  }

  // ----- The store -----

  class Store {
    var rows: seq<Account>
    var lastId: int

    constructor ()
      ensures Valid() && rows == []
    {
      rows, lastId := [], 0;
    }

    ghost predicate Valid()
      reads this
    {
      TableValid(Table(rows, lastId))
    }

    /** Replaces the whole table in one transaction; fails says that some
        statement of it does. */
    method ReplaceAccounts(accounts: seq<Account>, fails: bool, now: int) returns (ok: bool)
      requires Valid() && now != 0
      modifies this
      ensures Valid()
      ensures ok <==> !fails && InsertedAll(Table([], old(lastId)), accounts, now).Some?
      ensures ok ==> Table(rows, lastId) == InsertedAll(Table([], old(lastId)), accounts, now).value
      ensures !ok ==> rows == old(rows) && lastId == old(lastId)
    {
      var t := Table([], lastId);
      for i := 0 to |accounts|
        invariant InsertedAll(Table([], lastId), accounts[..i], now) == Some(t)
      {
        var next := Inserted(t, accounts[i], now);
        assert accounts[..i + 1][..i] == accounts[..i];
        if next.None? {
          StaysNone(Table([], lastId), accounts, i + 1, now);
          return false;
        }
        t := next.value;
      }
      assert accounts[..|accounts|] == accounts;
      if fails {
        return false;
      }
      InsertedAllKeepsTable(Table([], lastId), accounts, now);
      rows, lastId, ok := t.rows, t.lastId, true;
    }

    lemma {:induction false} StaysNone(t: Table, accounts: seq<Account>, i: nat, now: int)
      requires i <= |accounts| && InsertedAll(t, accounts[..i], now).None?
      ensures InsertedAll(t, accounts, now).None?
      decreases |accounts| - i
    {
      if i < |accounts| {
        assert accounts[..i + 1][..i] == accounts[..i];
        StaysNone(t, accounts, i + 1, now);
      } else {
        assert accounts[..i] == accounts;
      }
    }

    /** Adds the reported traffic in one transaction. */
    method AddTrafficBatch(deltas: seq<Delta>, fails: bool, now: int) returns (ok: bool)
      requires Valid() && now != 0
      modifies this`rows
      ensures Valid()
      ensures ok <==> !RefusedBatch(deltas, fails)
      ensures rows == if ok then CreditedAll(old(rows), deltas, now) else old(rows)
    {
      var r := CreditBatch(rows, deltas, fails, now);
      ok := r.Some?;
      if ok {
        CreditedAllKeeps(rows, deltas, now);
        CreditedIdsSame(rows, deltas, now);
        rows := r.value;
      }
    }
  }

  predicate Negative(d: Delta) {
    d.tag != "" && (d.up < 0 || d.down < 0)
  }

  // A batch is refused for a negative number, or when there is something to
  // write and the transaction fails.
  predicate RefusedBatch(deltas: seq<Delta>, fails: bool) {
    (exists d :: d in deltas && Negative(d)) || (fails && exists d :: d in deltas && Counts(d))
  }

  lemma CountlessCredit(rows: seq<Account>, d: Delta, now: int)
    requires !Counts(d)
    ensures Credit(rows, d, now) == rows
  {
  }

  lemma CreditedIdsSame(rows: seq<Account>, deltas: seq<Delta>, now: int)
    ensures forall i :: 0 <= i < |rows| ==> CreditedAll(rows, deltas, now)[i].id == rows[i].id
  {
    forall i: nat | i < |rows| ensures CreditedAll(rows, deltas, now)[i].id == rows[i].id {
      CreditIsTotal(rows, deltas, now, i);
    }
  }

  /** Drops what does not count, then runs one update per reported tag. */
  method CreditBatch(rows: seq<Account>, deltas: seq<Delta>, fails: bool, now: int) returns (r: Option<seq<Account>>)
    ensures r.None? <==> RefusedBatch(deltas, fails)
    ensures r.Some? ==> r.value == CreditedAll(rows, deltas, now)
  {
    var valid := [];
    for i := 0 to |deltas|
      invariant CreditedAll(rows, valid, now) == CreditedAll(rows, deltas[..i], now)
      invariant forall k :: 0 <= k < i ==> !Negative(deltas[k])
      invariant valid == [] <==> forall k :: 0 <= k < i ==> !Counts(deltas[k])
    {
      assert deltas[..i + 1][..i] == deltas[..i];
      var d := deltas[i];
      if Negative(d) {
        return None;
      }
      if Counts(d) {
        assert (valid + [d])[..|valid|] == valid;
        valid := valid + [d];
      } else {
        CountlessCredit(CreditedAll(rows, deltas[..i], now), d, now);
      }
    }
    assert deltas[..|deltas|] == deltas;
    if valid == [] {
      return Some(rows);
    }
    if fails {
      return None;
    }
    var table := rows;
    for i := 0 to |valid|
      invariant table == CreditedAll(rows, valid[..i], now)
    {
      assert valid[..i + 1][..i] == valid[..i];
      table := Credit(table, valid[i], now);
    }
    assert valid[..|valid|] == valid;
    r := Some(table);
  }
}
