/**
 The login limiter: a fixed window of failures per key, in a map that is
 cleaned lazily and bounded by evicting the oldest bucket.
 */
module LoginLimiter {
  import opened Common

  datatype Attempt = Attempt(count: nat, since: int)

  type Buckets = map<string, Attempt>

  const CLEAN_EVERY := 60_000

  // ----- The plain fixed-window counter -----

  predicate Over(a: Attempt, now: int, window: nat) {
    now - a.since >= window
  }

  predicate Allows(b: Buckets, key: string, now: int, window: nat, max: nat) {
    key in b && !Over(b[key], now, window) ==> b[key].count < max
  }

  function Failed(b: Buckets, key: string, now: int, window: nat): Buckets {
    if key in b && !Over(b[key], now, window) then b[key := Attempt(b[key].count + 1, b[key].since)]
    else b[key := Attempt(1, now)]
  }

  // ----- The scan for the oldest bucket -----

  // The empty key marks that nothing has been found yet.
  function Scan(order: seq<string>, b: Buckets, now: int): (string, int)
    requires forall k :: k in order ==> k in b
  {
    if order == [] then ("", now)
    else
      var (found, since) := Scan(order[..|order| - 1], b, now);
      var k := order[|order| - 1];
      if found == "" || b[k].since < since then (k, b[k].since) else (found, since)
  }

  // Without an empty key the scan ends on a bucket that began no later than any
  // other, in whatever order the map is walked.
  lemma {:induction false} ScanFindsOldest(order: seq<string>, b: Buckets, now: int)
    requires order != [] && "" !in order && forall k :: k in order ==> k in b
    ensures var (found, since) := Scan(order, b, now);
            found in order && since == b[found].since && forall k :: k in order ==> since <= b[k].since
    decreases |order|
  {
    var rest, k := order[..|order| - 1], order[|order| - 1];
    assert order == rest + [k];
    if rest != [] {
      ScanFindsOldest(rest, b, now);
    }
  }

  predicate Distinct(order: seq<string>) {
    forall i, j :: 0 <= i < j < |order| ==> order[i] != order[j]
  }

  // The scan ends empty-handed exactly when it meets the empty key last and that
  // bucket began before every other.
  lemma EmptyHandedExactly(order: seq<string>, b: Buckets, now: int)
    requires Distinct(order) && forall k :: k in order ==> k in b
    ensures Scan(order, b, now).0 == "" <==>
            order == [] || (order[|order| - 1] == "" && forall k :: k in order && k != "" ==> b[""].since < b[k].since)
  {
    if order != [] && order[|order| - 1] == "" {
      var rest := order[..|order| - 1];
      assert order == rest + [""];
      if rest != [] {
        EmptyMetLast(rest, b, now);
      }
    }
  }

  // The other keys have left the oldest of them to compare with.
  lemma EmptyMetLast(rest: seq<string>, b: Buckets, now: int)
    requires rest != [] && "" !in rest && "" in b && forall k :: k in rest ==> k in b
    ensures var (found, since) := Scan(rest, b, now);
            found != "" && (b[""].since < since <==> forall k :: k in rest ==> b[""].since < b[k].since)
  {
    ScanFindsOldest(rest, b, now);
  }

  // ----- What the plain counter promises -----

  function FailedAt(b: Buckets, key: string, times: seq<int>, window: nat): Buckets
    decreases |times|
  {
    if times == [] then b else Failed(FailedAt(b, key, times[..|times| - 1], window), key, times[|times| - 1], window)
  }

  // Failures inside one window count from its first; the key is refused exactly
  // when there are as many as allowed and the window is not over.
  lemma {:induction false} RefusedExactly(b: Buckets, key: string, times: seq<int>, now: int, window: nat, max: nat)
    requires times != [] && (key in b ==> Over(b[key], times[0], window)) && window >= 1
    requires forall i :: 0 <= i < |times| ==> times[i] - times[0] < window
    ensures !Allows(FailedAt(b, key, times, window), key, now, window, max) <==> |times| >= max && now - times[0] < window
  {
    CountsFromFirst(b, key, times, window);
  }

  lemma {:induction false} CountsFromFirst(b: Buckets, key: string, times: seq<int>, window: nat)
    requires times != [] && (key in b ==> Over(b[key], times[0], window)) && window >= 1
    requires forall i :: 0 <= i < |times| ==> times[i] - times[0] < window
    ensures FailedAt(b, key, times, window) == b[key := Attempt(|times|, times[0])]
    decreases |times|
  {
    var rest := times[..|times| - 1];
    if rest == [] {
      assert FailedAt(b, key, rest, window) == b;
    } else {
      CountsFromFirst(b, key, rest, window);
    }
  }

  class Limiter {
    var entries: Buckets
    var lastCleanup: Option<int>
    const window: nat
    const max: nat
    const capacity: nat
    ghost var plain: Buckets          // the counter nobody cleans
    ghost var evicted: set<string>    // keys that lost a bucket still counting
    ghost var named: bool             // no failure was ever counted for the empty key

    constructor (max: int, window: int, capacity: int)
      ensures Valid() && entries == map[] && plain == map[] && evicted == {} && named
      ensures this.max >= 1 && this.window >= 1 && this.capacity >= 1
      ensures max >= 1 ==> this.max == max
      ensures window > 0 ==> this.window == window
      ensures capacity >= 1 ==> this.capacity == capacity
    {
      this.max := if max < 1 then 1 else max;
      this.window := if window <= 0 then 60_000 else window;
      this.capacity := if capacity < 1 then 1 else capacity;
      entries, lastCleanup := map[], None;
      plain, evicted, named := map[], {}, true;
    }

    ghost predicate Valid()
      reads this
    {
      && (forall k :: k in entries ==> k in plain)
      && (forall k :: k in entries && k !in evicted ==> entries[k] == plain[k])
      && (named ==> "" !in entries && |entries| <= capacity)
      && capacity >= 1
    }

    // Nothing is lost while only these keys are counted.
    ghost predicate Fits(room: set<string>)
      reads this
    {
      named && evicted == {} && entries.Keys <= room && |room| <= capacity
    }

    // What was cleaned away no longer counts at this time.
    ghost predicate Current(now: int)
      reads this
    {
      forall k :: k in plain && k !in entries && k !in evicted ==> Over(plain[k], now, window)
    }

    lemma CurrentLater(now: int, later: int)
      requires Current(now) && now <= later
      ensures Current(later)
    {
    }

    method Cleanup(now: int, force: bool)
      requires Valid() && Current(now)
      modifies this`entries, this`lastCleanup
      ensures Valid() && Current(now)
      ensures entries.Keys <= old(entries).Keys && forall k :: k in entries ==> entries[k] == old(entries)[k]
      ensures forall k :: k in old(entries) && k !in entries ==> Over(old(entries)[k], now, window)
      ensures entries == old(entries) || |entries| < |old(entries)|
    {
      var interval := if window < CLEAN_EVERY then window else CLEAN_EVERY;
      if !force && lastCleanup.Some? && now - lastCleanup.value < interval {
        return;
      }
      var left, kept := entries.Keys, entries;
      while left != {}
        invariant left <= entries.Keys && kept.Keys <= entries.Keys && left <= kept.Keys
        invariant forall k :: k in kept ==> kept[k] == entries[k]
        invariant forall k :: k in entries && k !in kept ==> Over(entries[k], now, window)
        decreases left
      {
        var key :| key in left;
        left := left - {key};
        if Over(entries[key], now, window) {
          kept := kept - {key};
        }
      }
      SmallerMap(kept, entries);
      if kept != entries {
        Smaller(kept, entries);
      }
      entries, lastCleanup := kept, Some(now);
    }

    /** Whether this key may try to log in. */
    method Allowed(key: string, now: int) returns (ok: bool)
      requires Valid() && Current(now)
      modifies this`entries, this`lastCleanup
      ensures Valid() && Current(now) && entries.Keys <= old(entries).Keys
      ensures key !in evicted ==> (ok <==> Allows(plain, key, now, window, max))
    {
      Cleanup(now, false);
      if key !in entries {
        return true;
      }
      if Over(entries[key], now, window) {
        SmallerMap(entries - {key}, entries);
        entries := entries - {key};
        return true;
      }
      return entries[key].count < max;
    }

    /** Makes room for a new bucket by dropping old ones, at most one of them alive. */
    method MakeRoom(now: int, key: string) returns (ghost lost: set<string>)
      requires Valid() && Current(now) && key !in entries
      modifies this`entries, this`lastCleanup, this`evicted
      ensures Valid() && Current(now) && key !in entries
      ensures named ==> |entries| < capacity
      ensures |lost| <= 1 && lost <= old(entries).Keys && evicted == old(evicted) + lost
      ensures forall k :: k in entries ==> k in old(entries) && entries[k] == old(entries)[k]
      ensures lost != {} ==> |old(entries)| >= capacity
      ensures named ==> forall k, o :: k in lost && o in entries ==> old(entries)[k].since <= entries[o].since
    {
      lost := {};
      if |entries| < capacity {
        return;
      }
      Cleanup(now, true);
      if |entries| >= capacity {
        lost := EvictOldest(now);
      }
    }

    /** Drops the bucket the scan ends on, if it ends on one. */
    method EvictOldest(now: int) returns (ghost lost: set<string>)
      requires Valid() && Current(now) && |entries| > 0
      modifies this`entries, this`evicted
      ensures Valid() && Current(now)
      ensures |lost| <= 1 && lost <= old(entries).Keys && evicted == old(evicted) + lost
      ensures entries == old(entries) - lost && |entries| == |old(entries)| - |lost|
      ensures lost == {} ==> "" in entries && forall k :: k in entries && k != "" ==> entries[""].since < entries[k].since
      ensures "" !in old(entries) ==> forall k, o :: k in lost && o in entries ==> old(entries)[k].since <= entries[o].since
    {
      var oldest := FindOldest(now);
      lost := {};
      if oldest != "" {
        lost := {oldest};
        Drop(oldest, now);
      }
    }

    // Takes away a bucket that may still count.
    method Drop(key: string, ghost now: int)
      requires Valid() && Current(now) && key in entries
      modifies this`entries, this`evicted
      ensures Valid() && Current(now)
      ensures entries == old(entries) - {key} && evicted == old(evicted) + {key} && |entries| == |old(entries)| - 1
    {
      RemovedSize(entries, key);
      entries := entries - {key};
      evicted := evicted + {key};
    }

    /** Walks the map in any order, keeping the oldest bucket met. */
    method FindOldest(now: int) returns (oldest: string)
      requires |entries| > 0
      ensures oldest != "" ==> oldest in entries
      ensures oldest == "" ==> "" in entries && forall k :: k in entries && k != "" ==> entries[""].since < entries[k].since
      ensures "" !in entries ==> oldest in entries && forall k :: k in entries ==> entries[oldest].since <= entries[k].since
    {
      var left, since := entries.Keys, now;
      oldest := "";
      ghost var order: seq<string> := [];
      while left != {}
        invariant left <= entries.Keys && Distinct(order)
        invariant forall k :: k in order <==> k in entries && k !in left
        invariant (oldest, since) == Scan(order, entries, now)
        decreases left
      {
        var k :| k in left;
        left := left - {k};
        assert (order + [k])[..|order|] == order;
        if oldest == "" || entries[k].since < since {
          oldest, since := k, entries[k].since;
        }
        order := order + [k];
      }
      NonEmpty(entries, order);
      ScanPicks(order, entries, now);
      EmptyHandedExactly(order, entries, now);
      if "" !in entries {
        ScanFindsOldest(order, entries, now);
      }
    }

    lemma NonEmpty(b: Buckets, order: seq<string>)
      requires |b| > 0 && forall k :: k in order <==> k in b
      ensures order != []
    {
      assert |b.Keys| == |b| > 0;
      var k :| k in b.Keys;
      assert k in order;
    }

    // No bucket has to go for one more failure of this key.
    ghost predicate Spare(key: string)
      reads this
    {
      key in entries || |entries| < capacity
    }

    /** Counts a failed login. */
    method Fail(key: string, now: int)
      requires Valid() && Current(now)
      modifies this
      ensures Valid() && Current(now)
      ensures plain == Failed(old(plain), key, now, window)
      ensures named == (old(named) && key != "")
      ensures (old(named) && key in old(entries)) || |old(entries)| < capacity ==> evicted <= old(evicted)
      ensures |evicted - old(evicted)| <= 1 && entries.Keys <= old(entries).Keys + {key}
    {
      Cleanup(now, false);
      FailCleaned(key, now);
    }

    method FailCleaned(key: string, now: int)
      requires Valid() && Current(now)
      modifies this
      ensures Valid() && Current(now)
      ensures plain == Failed(old(plain), key, now, window)
      ensures named == (old(named) && key != "")
      ensures old(Spare(key)) ==> evicted <= old(evicted)
      ensures |evicted - old(evicted)| <= 1 && entries.Keys <= old(entries).Keys + {key}
    {
      if key in entries && !Over(entries[key], now, window) {
        CountOn(key, now);
      } else {
        NewBucket(key, now);
      }
    }

    // One more failure in a window that is still open.
    method CountOn(key: string, now: int)
      requires Valid() && Current(now) && key in entries && !Over(entries[key], now, window)
      modifies this`entries, this`plain
      ensures Valid() && Current(now)
      ensures plain == Failed(old(plain), key, now, window) && entries.Keys == old(entries).Keys
      ensures named ==> key != ""
    {
      var a := entries[key];
      SameSize(entries, key, Attempt(a.count + 1, a.since));
      entries := entries[key := Attempt(a.count + 1, a.since)];
      plain := Failed(plain, key, now, window);
    }

    method NewBucket(key: string, now: int)
      requires Valid() && Current(now) && (key in entries ==> Over(entries[key], now, window))
      modifies this
      ensures Valid() && Current(now)
      ensures plain == Failed(old(plain), key, now, window)
      ensures named == (old(named) && key != "")
      ensures old(Spare(key)) ==> evicted <= old(evicted)
      ensures |evicted - old(evicted)| <= 1 && entries.Keys <= old(entries).Keys + {key}
    {
      ghost var lost: set<string> := {};
      if key !in entries {
        lost := MakeRoom(now, key);
      }
      StartCounting(key, now);
      GrewBy(old(evicted), evicted, lost);
    }

    method StartCounting(key: string, now: int)
      requires Valid() && Current(now) && (key in entries ==> Over(entries[key], now, window))
      requires named && key !in entries ==> |entries| < capacity
      modifies this
      ensures Valid() && Current(now)
      ensures plain == Failed(old(plain), key, now, window)
      ensures named == (old(named) && key != "")
      ensures evicted <= old(evicted) && entries.Keys == old(entries).Keys + {key}
    {
      named := named && key != "";
      if key in entries {
        SameSize(entries, key, Attempt(1, now));
      }
      entries := entries[key := Attempt(1, now)];
      if key !in plain || Over(plain[key], now, window) {
        evicted := evicted - {key};
      }
      plain := Failed(plain, key, now, window);
    }

    lemma GrewBy(before: set<string>, after: set<string>, lost: set<string>)
      requires after <= before + lost
      ensures |after - before| <= |lost|
    {
      assert (after - before) + (lost - (after - before)) == lost;
    }

    /** Forgets the failures of a key. */
    method Success(key: string)
      requires Valid()
      modifies this
      ensures Valid()
      ensures plain == old(plain) - {key} && evicted == old(evicted) - {key} && named == old(named)
      ensures entries == old(entries) - {key}
      ensures forall now :: old(Current(now)) ==> Current(now)
    {
      SmallerMap(entries - {key}, entries);
      entries, plain, evicted := entries - {key}, plain - {key}, evicted - {key};
    }
  }

  lemma SmallerMap(a: Buckets, b: Buckets)
    requires a.Keys <= b.Keys
    ensures |a| <= |b|
  {
    assert a.Keys + (b.Keys - a.Keys) == b.Keys && a.Keys !! (b.Keys - a.Keys);
    assert |a| == |a.Keys| && |b| == |b.Keys|;
  }

  lemma Smaller(a: Buckets, b: Buckets)
    requires a.Keys <= b.Keys && a != b && forall k :: k in a ==> a[k] == b[k]
    ensures |a| < |b|
  {
    var k :| k in b && k !in a;
    SmallerMap(a, b - {k});
    RemovedSize(b, k);
  }

  lemma RemovedSize(b: Buckets, key: string)
    requires key in b
    ensures |b - {key}| == |b| - 1
  {
    assert (b - {key}).Keys == b.Keys - {key};
    assert |b - {key}| == |(b - {key}).Keys| && |b| == |b.Keys|;
  }

  lemma SameSize(b: Buckets, key: string, a: Attempt)
    requires key in b
    ensures |b[key := a]| == |b|
  {
    assert b[key := a].Keys == b.Keys;
    assert |b[key := a]| == |b[key := a].Keys| && |b| == |b.Keys|;
  }

  lemma {:induction false} ScanPicks(order: seq<string>, b: Buckets, now: int)
    requires forall k :: k in order ==> k in b
    ensures Scan(order, b, now).0 == "" || Scan(order, b, now).0 in order
    decreases |order|
  {
    if order != [] {
      ScanPicks(order[..|order| - 1], b, now);
    }
  }

  // ----- One attempt to log in -----

  datatype Answer = TooMany | Rejected | LoggedIn

  /** Asks the limiter of the address, then that of the name, and tells both how
      the attempt ended; the clock is read at each of these calls. */
  method Login(addresses: Limiter, names: Limiter, address: string, name: string, right: bool,
               first: int, second: int, third: int, fourth: int) returns (answer: Answer)
    requires addresses != names && addresses.Valid() && names.Valid()
    requires addresses.Current(first) && names.Current(first) && first <= second <= third <= fourth
    modifies addresses, names
    ensures addresses.Valid() && names.Valid() && addresses.Current(fourth) && names.Current(fourth)
    ensures address !in old(addresses.evicted) && name !in old(names.evicted) ==>
              (answer.TooMany? <==> !(Allows(old(addresses.plain), address, first, addresses.window, addresses.max) &&
                                      Allows(old(names.plain), name, second, names.window, names.max)))
    ensures !answer.TooMany? ==> (answer.LoggedIn? <==> right)
    ensures match answer
            case TooMany => addresses.plain == old(addresses.plain) && names.plain == old(names.plain)
            case Rejected => addresses.plain == Failed(old(addresses.plain), address, fourth, addresses.window) &&
                             names.plain == Failed(old(names.plain), name, third, names.window)
            case LoggedIn => addresses.plain == old(addresses.plain) - {address} && names.plain == old(names.plain) - {name}
  {
    names.CurrentLater(first, second);
    names.CurrentLater(first, fourth);
    var ok := addresses.Allowed(address, first);
    addresses.CurrentLater(first, fourth);
    if !ok {
      return TooMany;
    }
    ok := names.Allowed(name, second);
    names.CurrentLater(second, fourth);
    if !ok {
      return TooMany;
    }
    if right {
      names.Success(name);
      addresses.Success(address);
      return LoggedIn;
    }
    names.CurrentLater(second, third);
    names.Fail(name, third);
    names.CurrentLater(third, fourth);
    addresses.Fail(address, fourth);
    return Rejected;
  }

  // ----- Any sequence of calls -----

  /** One call to the limiter and when it is made. */
  datatype Call =
    | Ask(key: string, at: int)
    | Miss(key: string, at: int)
    | Hit(key: string, at: int)

  // The counter nobody cleans, after some calls.
  function Counted(b: Buckets, calls: seq<Call>, window: nat): Buckets
    decreases |calls|
  {
    if calls == [] then b
    else CountedOne(Counted(b, calls[..|calls| - 1], window), calls[|calls| - 1], window)
  }

  function CountedOne(b: Buckets, call: Call, window: nat): Buckets {
    match call
    case Ask(_, _) => b
    case Miss(key, at) => Failed(b, key, at, window)
    case Hit(key, _) => b - {key}
  }

  predicate InOrder(calls: seq<Call>, since: int) {
    && (forall i :: 0 <= i < |calls| ==> since <= calls[i].at)
    && forall i, j :: 0 <= i < j < |calls| ==> calls[i].at <= calls[j].at
  }

  function MissedKeys(calls: seq<Call>): set<string> {
    set c | c in calls && c.Miss? :: c.key
  }

  // The i-th call, if it asks, was answered as that counter would have.
  predicate Exact(calls: seq<Call>, answers: seq<bool>, i: nat, b: Buckets, window: nat, max: nat)
    requires i < |calls| && i < |answers|
  {
    calls[i].Ask? ==> (answers[i] <==> Allows(Counted(b, calls[..i], window), calls[i].key, calls[i].at, window, max))
  }

  // No empty key, and room for every key that is counted now or by the calls.
  predicate Roomy(entries: Buckets, calls: seq<Call>, capacity: nat) {
    "" !in MissedKeys(calls) && |entries.Keys + MissedKeys(calls)| <= capacity
  }

  predicate HasRoom(call: Call, room: set<string>) {
    call.Miss? ==> call.key in room && call.key != ""
  }

  // The answers so far: exact unless the key had lost a live bucket, which a
  // call costs at most one key, and only a failure.
  predicate Sound(calls: seq<Call>, answers: seq<bool>, gone: seq<set<string>>, b: Buckets, window: nat, max: nat) {
    && |answers| <= |calls| && |gone| == |answers| + 1 && FewGo(calls, gone)
    && forall i :: 0 <= i < |answers| && calls[i].key !in gone[i] ==> Exact(calls, answers, i, b, window, max)
  }

  predicate FewGo(calls: seq<Call>, gone: seq<set<string>>) {
    && 0 < |gone| <= |calls| + 1
    && forall i {:trigger calls[i]} :: 0 <= i < |gone| - 1 ==> |gone[i + 1] - gone[i]| <= if calls[i].Miss? then 1 else 0
  }

  lemma FewGoOn(calls: seq<Call>, gone: seq<set<string>>, left: set<string>)
    requires FewGo(calls, gone) && |gone| <= |calls| && |left - Last(gone)| <= if calls[|gone| - 1].Miss? then 1 else 0
    ensures FewGo(calls, gone + [left])
    ensures Last(gone + [left]) == left && (gone + [left])[0] == gone[0]
  {
  }

  function Last(gone: seq<set<string>>): set<string>
    requires gone != []
  {
    gone[|gone| - 1]
  }

  predicate NoneGone(gone: seq<set<string>>) {
    forall i :: 0 <= i < |gone| ==> gone[i] == {}
  }

  lemma SoundOn(calls: seq<Call>, answers: seq<bool>, gone: seq<set<string>>, b: Buckets, window: nat, max: nat,
                answer: bool, left: set<string>)
    requires Sound(calls, answers, gone, b, window, max) && |answers| < |calls|
    requires var i := |answers|;
             && (calls[i].Ask? && calls[i].key !in gone[i] ==>
                   (answer <==> Allows(Counted(b, calls[..i], window), calls[i].key, calls[i].at, window, max)))
             && |left - gone[i]| <= if calls[i].Miss? then 1 else 0
    ensures Sound(calls, answers + [answer], gone + [left], b, window, max)
    ensures |answers + [answer]| == |answers| + 1 && Last(gone + [left]) == left && (gone + [left])[0] == gone[0]
  {
    FewGoOn(calls, gone, left);
    forall i | 0 <= i < |answers| && calls[i].key !in gone[i] ensures Exact(calls, answers + [answer], i, b, window, max) {
      assert Exact(calls, answers, i, b, window, max);
    }
  }

  lemma MissHasRoom(calls: seq<Call>, i: nat, keys: set<string>)
    requires i < |calls| && "" !in MissedKeys(calls)
    ensures HasRoom(calls[i], keys + MissedKeys(calls))
  {
    assert calls[i] in calls;
  }

  lemma NoneGoneOn(gone: seq<set<string>>, left: set<string>)
    requires NoneGone(gone) && left == {}
    ensures NoneGone(gone + [left])
  {
  }

  lemma CountsOn(b: Buckets, calls: seq<Call>, i: nat, window: nat)
    requires i < |calls|
    ensures Counted(b, calls[..i + 1], window) == CountedOne(Counted(b, calls[..i], window), calls[i], window)
  {
    assert calls[..i + 1][..i] == calls[..i];
  }

  // So far the limiter agrees with the counter, and so do its answers.
  ghost predicate Agrees(limiter: Limiter, calls: seq<Call>, answers: seq<bool>, gone: seq<set<string>>, b: Buckets)
    reads limiter
  {
    && limiter.Valid() && Sound(calls, answers, gone, b, limiter.window, limiter.max)
    && limiter.plain == Counted(b, calls[..|answers|], limiter.window) && Last(gone) == limiter.evicted
  }

  /** Calls one after another, on a clock that does not go back; gone are the keys
      that had lost a live bucket before each call, and after the last. */
  method AnswerAll(limiter: Limiter, calls: seq<Call>, ghost since: int) returns (answers: seq<bool>, ghost gone: seq<set<string>>)
    requires limiter.Valid() && limiter.Current(since) && InOrder(calls, since)
    modifies limiter
    ensures limiter.Valid() && limiter.plain == Counted(old(limiter.plain), calls, limiter.window)
    ensures |answers| == |calls| && Sound(calls, answers, gone, old(limiter.plain), limiter.window, limiter.max)
    ensures gone[0] == old(limiter.evicted)
    ensures old(limiter.named) && old(limiter.evicted) == {} && Roomy(old(limiter.entries), calls, limiter.capacity) ==>
              NoneGone(gone)
  {
    answers, gone := [], [limiter.evicted];
    ghost var before, room := limiter.plain, limiter.entries.Keys + MissedKeys(calls);
    ghost var roomy := limiter.named && limiter.evicted == {} && Roomy(limiter.entries, calls, limiter.capacity);
    for i := 0 to |calls|
      invariant |answers| == i && Agrees(limiter, calls, answers, gone, before) && gone[0] == old(limiter.evicted)
      invariant limiter.Current(if i == 0 then since else calls[i - 1].at)
      invariant roomy ==> limiter.Fits(room) && NoneGone(gone)
    {
      limiter.CurrentLater(if i == 0 then since else calls[i - 1].at, calls[i].at);
      if roomy {
        MissHasRoom(calls, i, old(limiter.entries).Keys);
      }
      answers, gone := AnswerNext(limiter, calls, answers, gone, before, room);
    }
    assert calls[..|calls|] == calls;
  }

  // The next call, with the books that go with it.
  method AnswerNext(limiter: Limiter, calls: seq<Call>, answers: seq<bool>, ghost gone: seq<set<string>>,
                    ghost b: Buckets, ghost room: set<string>)
    returns (more: seq<bool>, ghost left: seq<set<string>>)
    requires |answers| < |calls| && Agrees(limiter, calls, answers, gone, b) && limiter.Current(calls[|answers|].at)
    modifies limiter
    ensures |more| == |answers| + 1 && Agrees(limiter, calls, more, left, b) && left[0] == gone[0]
    ensures limiter.Current(calls[|answers|].at)
    ensures old(limiter.Fits(room)) && HasRoom(calls[|answers|], room) && NoneGone(gone) ==> limiter.Fits(room) && NoneGone(left)
  {
    var answer := AnswerOne(limiter, calls[|answers|], room);
    CountsOn(b, calls, |answers|, limiter.window);
    SoundOn(calls, answers, gone, b, limiter.window, limiter.max, answer, limiter.evicted);
    if limiter.evicted == {} && NoneGone(gone) {
      NoneGoneOn(gone, limiter.evicted);
    }
    more, left := answers + [answer], gone + [limiter.evicted];
  }

  // One call.  Nothing is lost while the keys in use fit.
  method AnswerOne(limiter: Limiter, call: Call, ghost room: set<string>) returns (answer: bool)
    requires limiter.Valid() && limiter.Current(call.at)
    modifies limiter
    ensures limiter.Valid() && limiter.Current(call.at)
    ensures limiter.plain == CountedOne(old(limiter.plain), call, limiter.window)
    ensures call.Ask? && call.key !in old(limiter.evicted) ==>
              (answer <==> Allows(old(limiter.plain), call.key, call.at, limiter.window, limiter.max))
    ensures |limiter.evicted - old(limiter.evicted)| <= if call.Miss? then 1 else 0
    ensures old(limiter.Fits(room)) && HasRoom(call, room) ==> limiter.Fits(room)
  {
    answer := true;
    match call {
      case Ask(key, at) => answer := limiter.Allowed(key, at);
      case Miss(key, at) => FailWithRoom(limiter, key, at, room);
      case Hit(key, _) => limiter.Success(key);
    }
  }

  method FailWithRoom(limiter: Limiter, key: string, at: int, ghost room: set<string>)
    requires limiter.Valid() && limiter.Current(at)
    modifies limiter
    ensures limiter.Valid() && limiter.Current(at)
    ensures limiter.plain == Failed(old(limiter.plain), key, at, limiter.window)
    ensures |limiter.evicted - old(limiter.evicted)| <= 1
    ensures old(limiter.Fits(room)) && key in room && key != "" ==> limiter.Fits(room)
  {
    KeyFits(limiter.entries, key, room);
    limiter.Fail(key, at);
  }

  lemma KeyFits(entries: Buckets, key: string, room: set<string>)
    ensures entries.Keys <= room && key in room && key !in entries ==> |entries| < |room|
  {
    if entries.Keys <= room && key in room && key !in entries {
      SubsetSize(entries.Keys, room - {key});
      assert |entries| == |entries.Keys|;
    }
  }

  lemma SubsetSize(a: set<string>, b: set<string>)
    requires a <= b
    ensures |a| <= |b|
  {
    assert a + (b - a) == b;
  }
}
