/**
 Updates that swap files: renames, removals and copies, each of which may fail,
 with the compensations that put the old files back.
 */
module FileSwap {
  import opened Common

  /** A file, and the names derived from it by a suffix. */
  datatype Path = File(name: string) | Previous(name: string) | Aside(name: string) | New(name: string)

  type Data = string

  /** A copy that fails may leave part of the data behind. */
  datatype Copying = Copied | NotStarted | Partial(data: Data)

  class Files {
    var at: map<Path, Data>

    constructor (at: map<Path, Data>)
      ensures this.at == at
    {
      this.at := at;
    }

    method Rename(from: Path, to: Path, works: bool) returns (ok: bool)
      requires from != to
      modifies this
      ensures ok <==> works && from in old(at)
      ensures at == if ok then (old(at) - {from})[to := old(at)[from]] else old(at)
    {
      ok := works && from in at;
      if ok {
        at := (at - {from})[to := at[from]];
      }
    }

    method Remove(p: Path, works: bool)
      modifies this
      ensures at == if works then old(at) - {p} else old(at)
    {
      if works {
        at := at - {p};
      }
    }

    method Copy(data: Data, to: Path, how: Copying) returns (ok: bool)
      modifies this
      ensures ok <==> how.Copied?
      ensures at == match how
                    case Copied => old(at)[to := data]
                    case NotStarted => old(at)
                    case Partial(part) => old(at)[to := part]
    {
      ok := how.Copied?;
      match how {
        case Copied => at := at[to := data];
        case NotStarted =>
        case Partial(part) => at := at[to := part];
      }
    }
  }

  // Nothing outside these paths has changed.
  twostate predicate OnlyChanges(f: Files, paths: set<Path>)
    reads f
  {
    f.at - paths == old(f.at) - paths
  }

  // ----- The panel binary -----

  /** Moves the installed binary aside and puts the candidate in its place. */
  method Stage(f: Files, binary: string, candidate: Data, rename: bool, how: Copying, undo: bool) returns (backup: Option<Path>)
    modifies f
    ensures backup.Some? <==> File(binary) in old(f.at) && rename && how.Copied?
    ensures backup.Some? ==> backup.value == Previous(binary)
    ensures backup.Some? ==> f.at == old(f.at)[Previous(binary) := old(f.at)[File(binary)]][File(binary) := candidate]
    ensures backup.None? && undo ==> f.at - {Previous(binary)} == old(f.at) - {Previous(binary)}
    ensures OnlyChanges(f, {File(binary), Previous(binary)})
  {
    var aside := Previous(binary);
    if File(binary) !in f.at {
      return None;
    }
    f.Remove(aside, true);
    var ok := f.Rename(File(binary), aside, rename);
    if !ok {
      return None;
    }
    ok := f.Copy(candidate, File(binary), how);
    if !ok {
      var undone := f.Rename(aside, File(binary), undo);
      return None;
    }
    return Some(aside);
  }

  /** Puts the binary that was moved aside back in its place. */
  method Restore(f: Files, binary: string, backup: Path, remove: bool, rename: bool) returns (ok: bool)
    requires backup != File(binary)
    modifies f
    ensures ok <==> rename && backup in old(f.at)
    ensures ok ==> f.at == (old(f.at) - {backup})[File(binary) := old(f.at)[backup]]
    ensures OnlyChanges(f, {File(binary), backup})
  {
    if backup !in f.at {
      return false;
    }
    f.Remove(File(binary), remove);
    ok := f.Rename(backup, File(binary), rename);
  }

  /** An update that is refused or cannot be scheduled puts the binary back. */
  method UpdatePanel(f: Files, binary: string, candidate: Data, blocked: bool, blockedUnderLock: bool, schedules: bool,
                     rename: bool, how: Copying, undo: bool, remove: bool, restores: bool) returns (scheduled: bool)
    modifies f
    ensures scheduled <==> !blocked && File(binary) in old(f.at) && rename && how.Copied? && !blockedUnderLock && schedules
    ensures scheduled ==> File(binary) in f.at && f.at[File(binary)] == candidate
    ensures scheduled ==> File(binary) in old(f.at) && Previous(binary) in f.at && f.at[Previous(binary)] == old(f.at)[File(binary)]
    ensures !scheduled && undo && restores ==> f.at - {Previous(binary)} == old(f.at) - {Previous(binary)}
    ensures OnlyChanges(f, {File(binary), Previous(binary)})
  {
    if blocked {
      return false;
    }
    var backup := Stage(f, binary, candidate, rename, how, undo);
    if backup.None? {
      return false;
    }
    if blockedUnderLock || !schedules {
      var ok := Restore(f, binary, backup.value, remove, restores);
      return false;
    }
    return true;
  }

  // ----- The Xray core -----

  /** Renames of a rollback, the restart, and the compensating renames. */
  datatype CoreFaults = CoreFaults(
    aside: bool, swap: bool, restarts: bool, keep: bool,
    removes: bool, swapBack: bool, asideBack: bool)

  predicate CompensatesCore(x: CoreFaults) {
    x.removes && x.swapBack && x.asideBack
  }

  // Every step before the last rename works.
  predicate ReachesKeep(at: map<Path, Data>, core: string, available: bool, x: CoreFaults) {
    available && File(core) in at && Previous(core) in at && x.aside && x.swap && x.restarts
  }

  /** Swaps the installed core with the previous one; available says that the
      previous one runs and accepts the configuration.  A core left aside by an
      earlier rollback is given up.  When only the last rename fails, the swap
      stands and the replaced core is kept aside. */
  method RollbackCore(f: Files, core: string, available: bool, x: CoreFaults) returns (ok: bool)
    modifies f
    ensures ok <==> ReachesKeep(old(f.at), core, available, x) && x.keep
    ensures ok ==> f.at == (old(f.at) - {Aside(core)})[File(core) := old(f.at)[Previous(core)]][Previous(core) := old(f.at)[File(core)]]
    ensures !ReachesKeep(old(f.at), core, available, x) && CompensatesCore(x) ==>
              f.at - {Aside(core)} == old(f.at) - {Aside(core)}
    ensures ReachesKeep(old(f.at), core, available, x) && !x.keep ==>
              f.at == (old(f.at) - {Previous(core)})[File(core) := old(f.at)[Previous(core)]][Aside(core) := old(f.at)[File(core)]]
  {
    var previous, aside := Previous(core), Aside(core);
    if !available || previous !in f.at {
      return false;
    }
    f.Remove(aside, x.removes);
    ok := f.Rename(File(core), aside, x.aside);
    if !ok {
      return;
    }
    ok := f.Rename(previous, File(core), x.swap);
    if !ok {
      PutCoreBack(f, core, x);
      return;
    }
    if !x.restarts {
      var back := f.Rename(File(core), previous, x.swapBack);
      PutCoreBack(f, core, x);
      return false;
    }
    ok := f.Rename(aside, previous, x.keep);
  }

  method PutCoreBack(f: Files, core: string, x: CoreFaults)
    requires Aside(core) in f.at
    modifies f
    ensures CompensatesCore(x) ==> f.at == (old(f.at) - {Aside(core)})[File(core) := old(f.at)[Aside(core)]]
  {
    f.Remove(File(core), x.removes);
    var back := f.Rename(Aside(core), File(core), x.asideBack);
  }

  // Rolling back twice is the identity, but for a core that was left aside.
  method RollbackTwice(f: Files, core: string, x: CoreFaults, y: CoreFaults) returns (ok: bool)
    modifies f
    ensures ok ==> f.at == old(f.at) - {Aside(core)}
  {
    ok := RollbackCore(f, core, true, x);
    if ok {
      ok := RollbackCore(f, core, true, y);
    }
  }

  // ----- The GeoData pair -----

  const GEO_IP := "geoip.dat"
  const GEO_SITE := "geosite.dat"
  const MARKER := ".xport-geodata-version"

  /** What happens to one of the two files, and to its compensation. */
  datatype GeoFaults = GeoFaults(rename: bool, how: Copying, removeBack: bool, renameBack: bool)

  predicate CompensatesGeo(x: GeoFaults) {
    x.removeBack && x.renameBack
  }

  // Everything but the backups and the unfinished marker.
  function Settled(at: map<Path, Data>): map<Path, Data> {
    at - UNSETTLED
  }

  ghost predicate Agree(a: map<Path, Data>, b: map<Path, Data>, outside: set<Path>) {
    forall p :: p !in outside && (p in a || p in b) ==> p in a && p in b && a[p] == b[p]
  }

  const UNSETTLED: set<Path> := {Previous(GEO_IP), Previous(GEO_SITE), New(MARKER)}

  predicate Replaces(x: GeoFaults) {
    x.rename && x.how.Copied?
  }

  method ReplaceOne(f: Files, name: string, data: Data, x: GeoFaults) returns (started: bool, hadOld: bool, ok: bool)
    modifies f
    ensures hadOld == (File(name) in old(f.at))
    ensures !started ==> !ok && hadOld && f.at == old(f.at) - {Previous(name)}
    ensures started && hadOld ==> Previous(name) in f.at && f.at[Previous(name)] == old(f.at)[File(name)]
    ensures Agree(f.at, old(f.at), {File(name), Previous(name)})
    ensures ok ==> started && File(name) in f.at && f.at[File(name)] == data
    ensures Replaces(x) ==> ok
  {
    hadOld, started, ok := File(name) in f.at, true, true;
    if hadOld {
      f.Remove(Previous(name), true);
      ok := f.Rename(File(name), Previous(name), x.rename);
      if !ok {
        started := false;
        return;
      }
    }
    ok := f.Copy(data, File(name), x.how);
  }

  method PutBack(f: Files, name: string, hadOld: bool, x: GeoFaults)
    modifies f
    ensures Agree(f.at, old(f.at), {File(name), Previous(name)})
    ensures CompensatesGeo(x) && !hadOld ==> File(name) !in f.at
    ensures CompensatesGeo(x) && hadOld && Previous(name) in old(f.at) ==> File(name) in f.at && f.at[File(name)] == old(f.at)[Previous(name)]
  {
    f.Remove(File(name), x.removeBack);
    if hadOld {
      var back := f.Rename(Previous(name), File(name), x.renameBack);
    }
  }

  // The file named is as before, or its backup is what it was before.
  ghost predicate Kept(at: map<Path, Data>, before: map<Path, Data>, name: string, moved: bool) {
    if moved then
      File(name) in before ==> Previous(name) in at && at[Previous(name)] == before[File(name)]
    else
      (File(name) in at <==> File(name) in before) && (File(name) in at ==> at[File(name)] == before[File(name)])
  }

  const PAIR: set<Path> := {File(GEO_IP), File(GEO_SITE)}

  method MarkLatest(f: Files, latest: Data, writes: bool, marks: bool) returns (ok: bool)
    modifies f
    ensures ok ==> f.at == old(f.at)[New(MARKER) := latest] - {New(MARKER)} + map[File(MARKER) := latest]
    ensures !ok ==> Agree(f.at, old(f.at), {New(MARKER)})
    ensures ok <==> writes && marks
  {
    if !writes {
      return false;
    }
    f.at := f.at[New(MARKER) := latest];
    ok := f.Rename(New(MARKER), File(MARKER), marks);
  }

  method UndoBoth(f: Files, ghost before: map<Path, Data>, hadIp: bool, moved: bool, hadSite: bool, x: GeoFaults, y: GeoFaults)
    requires hadIp == (File(GEO_IP) in before) && hadSite == (File(GEO_SITE) in before)
    requires Agree(f.at, before, UNSETTLED + PAIR)
    requires Kept(f.at, before, GEO_IP, true) && Kept(f.at, before, GEO_SITE, moved)
    modifies f
    ensures CompensatesGeo(x) && CompensatesGeo(y) ==> Settled(f.at) == Settled(before)
  {
    PutBack(f, GEO_IP, hadIp, x);
    assert CompensatesGeo(x) ==> Agree(f.at, before, UNSETTLED + {File(GEO_SITE)});
    if moved {
      PutBack(f, GEO_SITE, hadSite, y);
    }
    AgreeSettles(f.at, before);
  }

  /** Replaces both data files and the version marker, or puts all of them back. */
  method UpdateGeodata(f: Files, ip: Data, site: Data, latest: Data, x: GeoFaults, y: GeoFaults,
                       restarts: bool, writes: bool, marks: bool) returns (ok: bool)
    modifies f
    ensures ok ==> Settled(f.at) == Settled(old(f.at))[File(GEO_IP) := ip][File(GEO_SITE) := site][File(MARKER) := latest]
    ensures !ok && CompensatesGeo(x) && CompensatesGeo(y) ==> Settled(f.at) == Settled(old(f.at))
    ensures Replaces(x) && Replaces(y) && restarts && writes && marks ==> ok
  {
    ghost var before := f.at;
    var started, hadIp, done := ReplaceOne(f, GEO_IP, ip, x);
    if !done {
      if started {
        PutBack(f, GEO_IP, hadIp, x);
      }
      AgreeSettles(f.at, before);
      return false;
    }
    ok := ReplaceSecond(f, before, hadIp, ip, site, latest, x, y, restarts, writes, marks);
  }

  // The first file is new; the second and the marker follow, or both files go back.
  method ReplaceSecond(f: Files, ghost before: map<Path, Data>, hadIp: bool, ghost ip: Data, site: Data, latest: Data,
                       x: GeoFaults, y: GeoFaults, restarts: bool, writes: bool, marks: bool) returns (ok: bool)
    requires hadIp == (File(GEO_IP) in before) && Kept(f.at, before, GEO_IP, true)
    requires Agree(f.at, before, {File(GEO_IP), Previous(GEO_IP)})
    requires File(GEO_IP) in f.at && f.at[File(GEO_IP)] == ip
    modifies f
    ensures ok ==> Settled(f.at) == Settled(before)[File(GEO_IP) := ip][File(GEO_SITE) := site][File(MARKER) := latest]
    ensures !ok && CompensatesGeo(x) && CompensatesGeo(y) ==> Settled(f.at) == Settled(before)
    ensures Replaces(y) && restarts && writes && marks ==> ok
  {
    var moved, hadSite, doneSite := ReplaceOne(f, GEO_SITE, site, y);
    assert Agree(f.at, before, UNSETTLED + PAIR);
    ok := doneSite && restarts;
    if ok {
      ok := CommitPair(f, before, ip, site, latest, writes, marks);
    }
    if !ok {
      UndoBoth(f, before, hadIp, moved, hadSite, x, y);
    }
  }

  // With both files in place the marker follows, and the backups go.
  method CommitPair(f: Files, ghost before: map<Path, Data>, ghost ip: Data, ghost site: Data, latest: Data,
                    writes: bool, marks: bool) returns (ok: bool)
    requires Agree(f.at, before, UNSETTLED + PAIR)
    requires File(GEO_IP) in f.at && f.at[File(GEO_IP)] == ip && File(GEO_SITE) in f.at && f.at[File(GEO_SITE)] == site
    modifies f
    ensures ok ==> Settled(f.at) == Settled(before)[File(GEO_IP) := ip][File(GEO_SITE) := site][File(MARKER) := latest]
    ensures !ok ==> Agree(f.at, old(f.at), {New(MARKER)})
    ensures ok <==> writes && marks
  {
    ok := MarkLatest(f, latest, writes, marks);
    if ok {
      f.Remove(Previous(GEO_IP), true);
      f.Remove(Previous(GEO_SITE), true);
      NewPairSettles(f.at, before, ip, site, latest);
    }
  }

  lemma NewPairSettles(at: map<Path, Data>, before: map<Path, Data>, ip: Data, site: Data, latest: Data)
    requires Agree(at, before, UNSETTLED + PAIR + {File(MARKER)})
    requires File(GEO_IP) in at && File(GEO_SITE) in at && File(MARKER) in at
    requires at[File(GEO_IP)] == ip && at[File(GEO_SITE)] == site && at[File(MARKER)] == latest
    ensures Settled(at) == Settled(before)[File(GEO_IP) := ip][File(GEO_SITE) := site][File(MARKER) := latest]
  {
  }

  lemma AgreeSettles(a: map<Path, Data>, b: map<Path, Data>)
    ensures Agree(a, b, UNSETTLED) ==> Settled(a) == Settled(b)
  {
  }
}
