/** Applying a rendered configuration: validate, swap, restart, restore. */
module XrayManager {
  import opened Common
  import opened XrayConfig
  import opened XrayConfigLaws

  /** How a restart of the service ends.  A failed one may leave the process
      running on the file, or leave nothing running. */
  datatype Restart = Starts | Fails(left: bool)

  /** What goes wrong around one application. */
  datatype Faults = Faults(
    prepare: bool,     // the candidate file can be written
    valid: bool,       // Xray accepts it
    readable: bool,    // the existing file can be read
    rename: bool,      // the candidate can take its place
    restart: Restart,
    restore: bool,     // the previous file can be put back
    clear: bool,       // the start limit can be cleared
    again: Restart)    // the restart on the previous file

  const NO_FAULTS := Faults(true, true, true, true, Starts, true, true, Starts)

  // The compensation inside one application does not fail.
  predicate Recovers(f: Faults) {
    f.restore && f.clear && f.again.Starts?
  }

  // Panicked: the renderer stopped on a stored base of `null`.
  datatype Applied = Done | Rejected | RolledBack | Stuck | Panicked

  class Manager {
    var apiPort: int
    var base: Base
    var file: Option<Json>       // the configuration on disk
    var running: Option<Json>    // what the service runs, if it is up
    const service: bool          // a service is configured

    constructor (apiPort: int, base: Base, file: Option<Json>, running: Option<Json>, service: bool)
      ensures this.apiPort == apiPort && this.base == base && this.file == file && this.running == running
      ensures this.service == service
    {
      this.apiPort, this.base, this.file, this.running, this.service := apiPort, base, file, running, service;
    }

    // The renderer stops on these accounts.
    ghost predicate Panics(accounts: seq<Inbound>)
      reads this
    {
      CanRender(accounts, apiPort) && base == Parsed(Null)
    }

    // The service is up and runs the file on disk.
    ghost predicate InStep()
      reads this
    {
      service && file.Some? && running == file
    }

    ghost predicate Accepts(accounts: seq<Inbound>)
      reads this
    {
      CanRender(accounts, apiPort) && UsableBase(base)
    }

    ghost function Target(accounts: seq<Inbound>): Json
      requires Renderable(accounts)
      reads this
    {
      Obj(Render(Inbounds(accounts, apiPort), SectionsOf(base)))
    }

    method RestartAndVerify(r: Restart) returns (ok: bool)
      modifies this`running
      ensures ok <==> r.Starts?
      ensures ok ==> running == file
      ensures running == file || running == None
    {
      ok := r.Starts?;
      running := if ok || r.left then file else None;
    }

    /** Puts the previous bytes back, clears the start limit, restarts. */
    method RollBack(previous: Json, f: Faults) returns (r: Applied)
      modifies this`file, this`running
      ensures r == if Recovers(f) then RolledBack else Stuck
      ensures r.RolledBack? ==> file == Some(previous) && running == file
    {
      if !f.restore {
        return Stuck;
      }
      file := Some(previous);
      if !f.clear {
        return Stuck;
      }
      var ok := RestartAndVerify(f.again);
      r := if ok then RolledBack else Stuck;
    }

    /** Applies the accounts, or leaves everything as it was, or says it is stuck. */
    method Apply(accounts: seq<Inbound>, f: Faults) returns (r: Applied)
      modifies this`file, this`running
      ensures r.Panicked? <==> Panics(accounts)
      ensures r.Done? ==> Accepts(accounts) && file == Some(Target(accounts))
      ensures r.Done? && old(InStep()) ==> InStep()
      ensures r.Rejected? || r.Panicked? ==> file == old(file) && running == old(running)
      ensures r.RolledBack? ==> file == old(file) && InStep()
      ensures r.Stuck? ==> service && !f.restart.Starts? && (old(running).None? || old(file).None? || !Recovers(f))
      ensures f == NO_FAULTS && Accepts(accounts) ==> r.Done?
    {
      var rendering := BuildConfigWithBase(accounts, apiPort, base);
      if rendering.Panics? {
        return Panicked;
      }
      if !rendering.Rendered? || !f.prepare || !f.valid || !f.readable {
        return Rejected;
      }
      var config := rendering.config;
      var previous := file;
      if previous == Some(config) {
        if !service || running.Some? {
          return Done;
        }
        var ok := RestartAndVerify(f.restart);
        return if ok then Done else Stuck;
      }
      if !f.rename {
        return Rejected;
      }
      file := Some(config);
      if !service {
        return Done;
      }
      var ok := RestartAndVerify(f.restart);
      if ok {
        return Done;
      }
      if previous.None? {
        return Stuck;
      }
      r := RollBack(previous.value, f);
    }

    /** The port is kept if it was applied, and where a panic skips the step
        that would put the former one back. */
    method ApplyWithAPIPort(accounts: seq<Inbound>, port: int, f: Faults) returns (r: Applied)
      modifies this`apiPort, this`file, this`running
      ensures apiPort == if r.Done? || r.Panicked? then port else old(apiPort)
      ensures r.Panicked? <==> CanRender(accounts, port) && base == Parsed(Null)
      ensures f == NO_FAULTS && CanRender(accounts, port) && UsableBase(base) ==> r.Done?
      ensures r.Done? ==> Accepts(accounts) && file == Some(Target(accounts))
      ensures r.Done? && old(InStep()) ==> InStep()
      ensures r.Rejected? || r.Panicked? ==> file == old(file) && running == old(running)
      ensures r.RolledBack? ==> file == old(file) && InStep()
      ensures r.Stuck? ==> service && !f.restart.Starts? && (old(running).None? || old(file).None? || !Recovers(f))
    {
      var previous := apiPort;
      apiPort := port;
      r := Apply(accounts, f);
      if !r.Done? && !r.Panicked? {
        apiPort := previous;
      }
    }

    /** The candidate base is kept if it was applied, or if it is the `null` the
        renderer panics on. */
    method ApplyWithBase(accounts: seq<Inbound>, candidate: Base, f: Faults) returns (r: Applied)
      modifies this`base, this`file, this`running
      ensures base == if r.Done? || r.Panicked? then candidate else old(base)
      ensures r.Panicked? <==> CanRender(accounts, apiPort) && candidate == Parsed(Null)
      ensures f == NO_FAULTS && CanRender(accounts, apiPort) && UsableBase(candidate) ==> r.Done?
      ensures r.Done? ==> Accepts(accounts) && file == Some(Target(accounts))
      ensures r.Done? && old(InStep()) ==> InStep()
      ensures r.Rejected? || r.Panicked? ==> file == old(file) && running == old(running)
      ensures r.RolledBack? ==> file == old(file) && InStep()
      ensures r.Stuck? ==> service && !f.restart.Starts? && (old(running).None? || old(file).None? || !Recovers(f))
    {
      var previous := base;
      base := candidate;
      r := Apply(accounts, f);
      if !r.Done? && !r.Panicked? {
        base := previous;
      }
    }

    // ----- What the outside sees -----

    // The inbounds Xray has open are exactly those of the enabled accounts.
    ghost predicate Live(accounts: seq<Inbound>)
      reads this
    {
      InStep() && Accepts(accounts) && Exposes(file.value, EntriesOf(accounts))
    }

    lemma AppliedIsLive(accounts: seq<Inbound>)
      requires InStep() && Accepts(accounts) && file == Some(Target(accounts))
      ensures Live(accounts)
    {
      ConfigExposes(accounts, apiPort, SectionsOf(base));
    }

    lemma ReorderedIsLive(accounts: seq<Inbound>, others: seq<Inbound>)
      requires Live(accounts)
      requires forall x :: x in accounts <==> x in others
      requires forall i, j :: 0 <= i < j < |others| ==> others[i] != others[j]
      ensures Live(others)
    {
      OrderIrrelevant(accounts, others, apiPort);
    }
  }
}
