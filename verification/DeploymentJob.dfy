/** One run of the deployment job: the restart-only recursion, the rolling update with its rollback, and the row it
    writes. */
module DeploymentJob {
  import opened DeploymentStatus

  /** The exception code of a deployment cancelled by the user. */
  const CANCELLED_CODE := 69420

  datatype Result = Normal | Threw(code: int)

  datatype BuildPack = DockerImage | DockerfilePack | DockerCompose | Static | Nixpacks | Railpack | Unsupported

  /** What one docker inspect reports; anything but the two decisive answers keeps the loop going. */
  datatype Inspection = Healthy | Unhealthy | Starting | Other

  /** The settings that choose branches. pinned: host ports, a custom network alias or a fixed address. fixedName: the
      container name does not change between deployments. */
  datatype Application = Application(
    buildPack: BuildPack, dockerfile: bool, pullRequest: bool, forceRebuild: bool, additionalServer: bool,
    noHealthcheck: bool, retries: nat, pinned: bool, fixedName: bool)

  predicate Rolls(app: Application) {
    !app.pinned && !app.fixedName && !app.pullRequest
  }

  /** Some attempt within the limit reports healthy, and no attempt before it reports unhealthy. */
  ghost predicate Passes(inspect: nat -> Inspection, retries: nat) {
    exists k :: 1 <= k <= retries && inspect(k) == Healthy && forall j :: 1 <= j < k ==> inspect(j) != Unhealthy
  }

  /** The commands that touch containers: docker stop, docker rm -f and docker compose up. */
  datatype Command = Stop(container: string) | Rm(container: string) | Up

  /** What a command does: it may work even if it is reported as failed. */
  datatype Effect = Effect(works: bool, raises: bool)

  /** Everything the job does not decide: whether it finds the row cancelled the n-th time it looks, how the n-th
      harmless command ends, what the n-th command on containers does, and the other answers. code is the code of a
      failing harmless command. */
  datatype World = World(
    cancels: nat -> bool, fails: nat -> bool, code: int, effect: nat -> Effect,
    functional: bool, listable: bool, imageExists: bool, requiresBuild: bool)

  /** Nobody cancels, and every command works. */
  ghost predicate Calm(world: World) {
    && (forall n :: !world.cancels(n)) && (forall n :: !world.fails(n))
    && (forall n :: world.effect(n) == Effect(true, false))
    && world.functional && world.listable
  }

  /* What the log of commands says, from some position on. */

  /** The containers a stop was sent for. */
  ghost function Stops(log: seq<Command>, from: nat): set<string> {
    if |log| <= from then {}
    else
      var last := log[|log| - 1];
      Stops(log[..|log| - 1], from) + (if last.Stop? then {last.container} else {})
  }

  /** The containers a stop or a removal was sent for. */
  ghost function Touched(log: seq<Command>, from: nat): set<string> {
    if |log| <= from then {}
    else
      var last := log[|log| - 1];
      Touched(log[..|log| - 1], from) + (if last.Up? then {} else {last.container})
  }

  /** The containers that some stop or removal really took away. */
  ghost function Hits(effect: nat -> Effect, log: seq<Command>, from: nat): set<string> {
    if |log| <= from then {}
    else
      var n := |log| - 1;
      Hits(effect, log[..n], from) + (if log[n].Up? || !effect(n).works then {} else {log[n].container})
  }

  ghost function Ups(log: seq<Command>): nat {
    if log == [] then 0 else Ups(log[..|log| - 1]) + (if log[|log| - 1].Up? then 1 else 0)
  }

  lemma LogGrows(effect: nat -> Effect, log: seq<Command>, c: Command, from: nat)
    ensures from <= |log| ==> Stops(log + [c], from) == Stops(log, from) + (if c.Stop? then {c.container} else {})
    ensures from <= |log| ==> Touched(log + [c], from) == Touched(log, from) + (if c.Up? then {} else {c.container})
    ensures from <= |log| ==>
              Hits(effect, log + [c], from)
              == Hits(effect, log, from) + (if c.Up? || !effect(|log|).works then {} else {c.container})
    ensures Ups(log + [c]) == Ups(log) + (if c.Up? then 1 else 0)
  {
    assert (log + [c])[..|log|] == log;
  }

  /** What two stretches of the log say together. */
  lemma {:induction false} LogSplits(effect: nat -> Effect, log: seq<Command>, from: nat, middle: nat)
    requires from <= middle <= |log|
    ensures Stops(log, from) == Stops(log[..middle], from) + Stops(log, middle)
    ensures Touched(log, from) == Touched(log[..middle], from) + Touched(log, middle)
    ensures Hits(effect, log, from) == Hits(effect, log[..middle], from) + Hits(effect, log, middle)
    decreases |log|
  {
    if middle == |log| {
      assert log[..middle] == log;
    } else {
      var n := |log| - 1;
      assert log[..n][..middle] == log[..middle];
      LogSplits(effect, log[..n], from, middle);
    }
  }

  lemma AfterUp(effect: nat -> Effect, log: seq<Command>)
    requires [Up] <= log
    ensures Stops(log, 0) == Stops(log, 1) && Touched(log, 0) == Touched(log, 1)
    ensures Hits(effect, log, 0) == Hits(effect, log, 1)
  {
    LogSplits(effect, log, 0, 1);
    assert log[..1] == [Up] && [Up][..0] == [];
  }

  lemma {:induction false} HitsAreTouched(effect: nat -> Effect, log: seq<Command>, from: nat)
    ensures Hits(effect, log, from) <= Touched(log, from)
    ensures Stops(log, from) <= Touched(log, from)
    ensures (forall n :: effect(n).works) ==> Hits(effect, log, from) == Touched(log, from)
  {
    if |log| > from {
      HitsAreTouched(effect, log[..|log| - 1], from);
    }
  }

  /** The first decisive answer decides, if it comes within the limit. */
  lemma FirstDecisive(inspect: nat -> Inspection, retries: nat, d: nat)
    requires d >= 1 && forall j :: 1 <= j < d ==> inspect(j) != Healthy && inspect(j) != Unhealthy
    ensures inspect(d) == Healthy ==> (Passes(inspect, retries) <==> d <= retries)
    ensures inspect(d) == Unhealthy || d > retries ==> !Passes(inspect, retries)
  {
  }

  class DeploymentJob {
    const app: Application
    const name: string
    const inspect: nat -> Inspection
    const world: World
    /** The containers of the application that run at the start, and those of them that do not have the new name. */
    ghost const start: set<string>
    ghost const olds: set<string>

    var row: Row
    var restartOnly: bool
    var skipBuild: bool
    var imageFound: bool
    var newVersionIsHealthy: bool
    /** The setting that the container keeps its name; a pull request turns it on in the loaded settings. */
    var fixedName: bool
    var running: set<string>
    /** The commands sent so far, and how often the job has asked the world anything else. */
    var sent: seq<Command>
    var clock: nat
    /** The running containers after each step. */
    ghost var trace: seq<set<string>>

    constructor (app: Application, name: string, inspect: nat -> Inspection, world: World, row: Row, restartOnly: bool,
                 running: set<string>)
      requires !Terminal(row.status) && row.successes == 0 && row.failures == 0
      ensures Fresh() && this.app == app && this.name == name && this.inspect == inspect && this.world == world
      ensures this.row == row && this.running == start == running && sent == [] && trace == [running]
      ensures this.restartOnly == (restartOnly && app.buildPack != DockerImage && app.buildPack != DockerfilePack)
    {
      this.app, this.name, this.inspect, this.world, this.row, this.running := app, name, inspect, world, row, running;
      this.restartOnly := restartOnly && app.buildPack != DockerImage && app.buildPack != DockerfilePack;
      skipBuild, imageFound, newVersionIsHealthy, fixedName := false, false, false, app.fixedName;
      sent, clock := [], 0;
      start, olds, trace := running, running - {name}, [running];
    }

    /* What holds between the steps. */

    /** The deployment goes through the rolling branch. */
    predicate Watched() {
      Rolls(app) && app.buildPack != DockerCompose
    }

    /** All the old containers run, or the new one does. */
    ghost predicate Serving(now: set<string>) {
      olds <= now || name in now
    }

    ghost predicate Safe()
      reads `running, `trace
    {
      name !in olds && (Watched() ==> Serving(running) && forall i :: 0 <= i < |trace| ==> Serving(trace[i]))
    }

    ghost predicate Ok()
      reads this
    {
      Safe() && Sound(State(row, true, 0))
    }

    function Effects(): nat
      reads this
    {
      row.successes + row.failures
    }

    /** Nothing is rolled out yet. */
    ghost predicate Fresh()
      reads this
    {
      && Ok() && sent == [] && Effects() == 0
      && running == start && olds == start - {name} && (fixedName <==> app.fixedName)
      && (Rolls(app) ==> !newVersionIsHealthy)
    }

    ghost predicate Verdict() {
      app.noHealthcheck || Passes(inspect, app.retries)
    }

    /** The containers that are to be stopped before the start, where the rolling branch is not taken. */
    ghost function Replaced(): set<string> {
      if app.fixedName || (app.pullRequest && app.buildPack != DockerCompose) then {name}
      else if !world.listable then {}
      else if app.pullRequest then start else olds
    }

    /** The containers to be stopped in the rolling branch. */
    ghost function Retired(): set<string> {
      if !Verdict() then {name} else if world.listable then olds else {}
    }

    /** What was sent and what runs after a start behind the containers it retires. */
    ghost predicate Rolled(uncancelled: bool)
      reads this
    {
      && [Up] <= sent && Touched(sent, 0) <= Retired() && (uncancelled ==> Stops(sent, 0) == Retired())
      && running == olds + {name} - Hits(world.effect, sent, 0)
    }

    /** What was sent and what runs after a start that was preceded by stops. */
    ghost predicate Forced(uncancelled: bool)
      reads this
    {
      && sent != [] && sent[|sent| - 1] == Up
      && Touched(sent, 0) <= Replaced() && (uncancelled ==> Stops(sent, 0) == Replaced())
      && running == start - Hits(world.effect, sent, 0) + {name}
    }

    /** A restart of a compose deployment may take either branch. */
    ghost predicate Replacement(uncancelled: bool)
      reads this
    {
      && Ups(sent) == 1
      && (Watched() ==> Rolled(uncancelled))
      && (!Rolls(app) && app.buildPack != DockerCompose ==> Forced(uncancelled))
    }

    /** One rollout happened; only a rollback has decided the deployment. */
    ghost predicate RolledOut()
      reads this
    {
      && Ok() && row.successes == 0 && Replacement(row.status != Cancelled)
      && (Watched() ==> newVersionIsHealthy == Verdict() && row.failures == if Verdict() then 0 else 1)
      && (!Rolls(app) ==> row.failures == 0)
    }

    /** One rollout and one terminal transition happened, and they fit. */
    ghost predicate Completed()
      reads this
    {
      && Ok() && Effects() == 1 && Replacement(true)
      && (Watched() ==> newVersionIsHealthy == Verdict() && row.successes == if Verdict() then 1 else 0)
      && (!Rolls(app) ==> row.successes == 1)
    }

    /** An exception left the deployment; unless it was cancelled the old containers were not touched. */
    ghost predicate Broken(r: Result)
      reads this
    {
      && Ok() && Ups(sent) <= 1 && r.Threw?
      && (Watched() && r.code != CANCELLED_CODE ==> olds <= running && Touched(sent, 0) == {})
    }

    /* The row. */

    /** Another process may have cancelled the deployment when the job looks. */
    method Refresh()
      modifies `row, `clock
      ensures row == if world.cancels(old(clock)) then Overwritten(old(row)) else old(row)
    {
      if world.cancels(clock) {
        row := Overwritten(row);
      }
      clock := clock + 1;
    }

    method CheckForCancellation() returns (r: Result)
      modifies `row, `clock
      ensures row == if world.cancels(old(clock)) then Overwritten(old(row)) else old(row)
      ensures r == if row.status == Cancelled then Threw(CANCELLED_CODE) else Normal
    {
      Refresh();
      return if row.status == Cancelled then Threw(CANCELLED_CODE) else Normal;
    }

    method TransitionToStatus(to: Status) returns (r: Result)
      requires to == Finished || to == Failed
      requires Sound(State(row, true, 0))
      modifies `row, `clock
      ensures Sound(State(row, true, 0))
      ensures row == Transitioned(old(row), to) || row == Overwritten(old(row))
      ensures if r.Threw? then r.code == CANCELLED_CODE && row.status == Cancelled && row == Overwritten(old(row))
              else Effects() == 1 && row.status != Cancelled && old(row).status != Cancelled
      ensures Calm(world) && old(row).status != Cancelled ==> r.Normal?
    {
      Refresh();
      if row.status == Finished || row.status == Failed { return Normal; }
      if row.status == Cancelled { return Threw(CANCELLED_CODE); }
      row := Transitioned(row, to);
      return Normal;
    }

    /* Commands. */

    /** A remote command without effect on the application's containers. */
    method Remote() returns (r: Result)
      modifies `row, `clock
      ensures row == old(row) || row == Overwritten(old(row))
      ensures r.Threw? && r.code == CANCELLED_CODE ==> row.status == Cancelled
      ensures r.Normal? ==> row.status != Cancelled
      ensures Calm(world) && old(row).status != Cancelled ==> r.Normal? && row == old(row)
    {
      r := CheckForCancellation();
      if r.Normal? && world.fails(clock) && world.code != CANCELLED_CODE {
        r := Threw(world.code);
      }
    }

    /** docker stop, docker rm or docker compose up, unless the deployment is found cancelled. */
    method Send(command: Command) returns (r: Result)
      requires Safe()
      requires Watched() && !command.Up? ==> if command.container == name then olds <= running else name in running
      modifies `row, `running, `trace, `sent, `clock
      ensures Safe()
      ensures row == old(row) || row == Overwritten(old(row))
      ensures if row.status == Cancelled
              then r == Threw(CANCELLED_CODE) && sent == old(sent) && running == old(running)
              else r == (if world.effect(|old(sent)|).raises then Threw(1) else Normal) && sent == old(sent) + [command]
      ensures row.status != Cancelled ==>
                running == if !world.effect(|old(sent)|).works then old(running)
                           else if command.Up? then old(running) + {name} else old(running) - {command.container}
      ensures Calm(world) && old(row).status != Cancelled ==> r.Normal? && row == old(row)
    {
      r := CheckForCancellation();
      if r.Threw? { return; }
      var effect := world.effect(|sent|);
      sent := sent + [command];
      if effect.works {
        running := if command.Up? then running + {name} else running - {command.container};
      }
      trace := trace + [running];
      if effect.raises {
        r := Threw(1);
      }
    }

    /** graceful_shutdown_container: a stop, and a removal unless the stop raises; no exception leaves. */
    method GracefulShutdown(container: string)
      requires Safe()
      requires Watched() ==> if container == name then olds <= running else name in running
      modifies `row, `running, `trace, `sent, `clock
      ensures Safe()
      ensures old(sent) <= sent <= old(sent) + [Stop(container)] + [Rm(container)]
      ensures row.status != Cancelled ==>
                sent == old(sent) + [Stop(container)]
                        + (if world.effect(|old(sent)|).raises then [] else [Rm(container)])
      ensures running == old(running) - Hits(world.effect, sent, |old(sent)|)
      ensures Ups(sent) == Ups(old(sent)) && Touched(sent, |old(sent)|) <= {container}
      ensures row.status != Cancelled ==> Stops(sent, |old(sent)|) == {container}
      ensures row == old(row) || row == Overwritten(old(row))
      ensures Calm(world) && old(row).status != Cancelled ==> row == old(row)
    {
      ghost var before := |sent|;
      LogGrows(world.effect, sent, Stop(container), before);
      LogGrows(world.effect, sent + [Stop(container)], Rm(container), before);
      var r := Send(Stop(container));
      if r.Normal? {
        r := Send(Rm(container));
      }
    }

    method StartByComposeFile() returns (r: Result)
      requires Safe()
      modifies `row, `running, `trace, `sent, `clock
      ensures Safe()
      ensures sent == old(sent) || sent == old(sent) + [Up]
      ensures old(running) <= running <= old(running) + {name}
      ensures r.Normal? ==> sent == old(sent) + [Up] && running == old(running) + {name} && row == old(row)
      ensures r.Normal? ==> row.status != Cancelled
      ensures r.Threw? && r.code == CANCELLED_CODE ==> row.status == Cancelled
      ensures row == old(row) || row == Overwritten(old(row))
      ensures Calm(world) && old(row).status != Cancelled ==> r.Normal?
    {
      r := Remote();
      if r.Threw? { return; }
      if app.buildPack == DockerImage {
        r := Remote();
        if r.Threw? { return; }
      }
      var position := |sent|;
      r := Send(Up);
      // A start that does nothing is reported as failed.
      if r.Normal? && !world.effect(position).works {
        r := Threw(1);
      }
    }

    /* The rolling update. */

    method HealthCheck() returns (r: Result)
      requires !newVersionIsHealthy
      modifies `row, `newVersionIsHealthy, `clock
      ensures row == old(row) || row == Overwritten(old(row))
      ensures r.Normal? ==> newVersionIsHealthy == Verdict()
      ensures r.Threw? ==> !newVersionIsHealthy
      ensures app.noHealthcheck ==> r.Normal? && newVersionIsHealthy && clock == old(clock)
      ensures !app.noHealthcheck && r.Normal? ==> newVersionIsHealthy == Passes(inspect, app.retries)
      ensures r.Threw? && r.code == CANCELLED_CODE ==> row.status == Cancelled
      ensures Calm(world) && old(row).status != Cancelled ==> r.Normal? && row == old(row)
    {
      if app.noHealthcheck {
        newVersionIsHealthy := true;
        return Normal;
      }
      var counter := 1;
      while counter <= app.retries
        invariant 1 <= counter <= app.retries + 1
        invariant !newVersionIsHealthy
        invariant row == old(row) || row == Overwritten(old(row))
        invariant Calm(world) && old(row).status != Cancelled ==> row == old(row)
        invariant forall k :: 1 <= k < counter ==> inspect(k) != Healthy && inspect(k) != Unhealthy
      {
        r := Remote();
        if r.Threw? { return; }
        r := Remote();
        if r.Threw? { return; }
        if inspect(counter) == Healthy {
          newVersionIsHealthy := true;
          return Normal;
        } else if inspect(counter) == Unhealthy {
          r := Remote();
          return;
        }
        counter := counter + 1;
      }
      if app.retries > 0 && inspect(app.retries) == Starting {
        r := Remote();
      } else {
        r := Normal;
      }
    }

    /** The running containers in some order, or a failure to list them. */
    method CurrentContainers() returns (listed: bool, containers: seq<string>)
      ensures listed == world.listable && forall c :: c in containers <==> c in running
    {
      listed := world.listable;
      containers := [];
      var rest := running;
      while rest != {}
        invariant rest <= running
        invariant forall c :: c in containers <==> c in running - rest
      {
        var c :| c in rest;
        containers := containers + [c];
        rest := rest - {c};
      }
    }

    /** The containers one call is to stop. */
    ghost function Targets(force: bool): set<string>
      reads this
    {
      if !(newVersionIsHealthy || force) || fixedName then {name}
      else if !world.listable then {}
      else if app.pullRequest then running else running - {name}
    }

    method StopRunningContainer(force: bool) returns (r: Result)
      requires Ok() && (Watched() ==> !force && !fixedName && name in running && olds <= running)
      modifies `row, `running, `trace, `sent, `clock
      ensures Ok() && Ups(sent) == Ups(old(sent)) && old(sent) <= sent
      ensures running == old(running) - Hits(world.effect, sent, |old(sent)|)
      ensures Touched(sent, |old(sent)|) <= old(Targets(force))
      ensures r.Normal? && row.status != Cancelled ==> Stops(sent, |old(sent)|) == old(Targets(force))
      ensures newVersionIsHealthy || force ==> r.Normal? && (row == old(row) || row == Overwritten(old(row)))
      ensures !(newVersionIsHealthy || force) ==>
                if r.Normal? then Effects() == 1 && old(row).status != Cancelled
                else r.code == CANCELLED_CODE && row.status == Cancelled && Effects() == old(Effects())
      ensures !(newVersionIsHealthy || force) && r.Normal? && old(Effects()) == 0 ==> row.failures == 1
      ensures r.Threw? ==> sent == old(sent)
      ensures Calm(world) && old(row).status != Cancelled ==> r.Normal? && row.status != Cancelled
      ensures Calm(world) && (newVersionIsHealthy || force) && old(row).status != Cancelled ==> row == old(row)
    {
      if newVersionIsHealthy || force {
        if fixedName {
          GracefulShutdown(name);
        } else {
          var listed, containers := CurrentContainers();
          if listed {
            ShutDownAll(containers);
          } else {
            NothingSent(|sent|);
          }
        }
        return Normal;
      }
      NothingSent(|sent|);
      r := TransitionToStatus(Failed);
      if r.Threw? { return; }
      GracefulShutdown(name);
    }

    lemma NothingSent(from: nat)
      requires from == |sent|
      ensures Stops(sent, from) == Touched(sent, from) == Hits(world.effect, sent, from) == {}
    {
    }

    /** The loop over the listed containers, sparing the new one outside pull requests. */
    method ShutDownAll(containers: seq<string>)
      requires Safe() && (Watched() ==> name in running)
      requires forall c :: c in containers <==> c in running
      modifies `row, `running, `trace, `sent, `clock
      ensures Safe() && Ups(sent) == Ups(old(sent)) && old(sent) <= sent
      ensures running == old(running) - Hits(world.effect, sent, |old(sent)|)
      ensures Touched(sent, |old(sent)|) <= if app.pullRequest then old(running) else old(running) - {name}
      ensures row.status != Cancelled ==>
                Stops(sent, |old(sent)|) == if app.pullRequest then old(running) else old(running) - {name}
      ensures row == old(row) || row == Overwritten(old(row))
      ensures Calm(world) && old(row).status != Cancelled ==> row == old(row)
    {
      ghost var before := |sent|;
      NothingSent(before);
      hide Safe, Stops, Touched, Hits, Ups, Calm, Spared;
      assert containers[..0] == [] && Spared([]) == {} by {
        NothingSpared();
      }
      for i := 0 to |containers|
        invariant Safe() && (Watched() ==> name in running) && Ups(sent) == Ups(old(sent)) && old(sent) <= sent
        invariant running == old(running) - Hits(world.effect, sent, before)
        invariant Touched(sent, before) <= Spared(containers[..i])
        invariant row.status != Cancelled ==> Stops(sent, before) == Spared(containers[..i])
        invariant row == old(row) || row == Overwritten(old(row))
        invariant Calm(world) && old(row).status != Cancelled ==> row == old(row)
      {
        assert containers[..i + 1] == containers[..i] + [containers[i]];
        SparedGrows(containers[..i], containers[i]);
        ghost var middle := sent;
        if app.pullRequest || containers[i] != name {
          GracefulShutdown(containers[i]);
          assert sent[..|middle|] == middle;
          HitsAreTouched(world.effect, sent, |middle|);
          LogSplits(world.effect, sent, before, |middle|);
        }
      }
      assert containers[..|containers|] == containers;
      AllSpared(containers, old(running));
    }

    lemma NothingSpared()
      ensures Spared([]) == {}
    {
    }

    lemma SparedGrows(containers: seq<string>, c: string)
      ensures Spared(containers + [c]) == Spared(containers) + (if app.pullRequest || c != name then {c} else {})
    {
    }

    lemma AllSpared(containers: seq<string>, all: set<string>)
      requires forall c :: c in containers <==> c in all
      ensures Spared(containers) == if app.pullRequest then all else all - {name}
    {
    }

    /** The listed containers without the new one, which only pull requests stop. */
    ghost function Spared(containers: seq<string>): set<string> {
      set c | c in containers && (app.pullRequest || c != name)
    }

    /** The rolling branch: an old or the new container runs after every step. A healthy new version stays and the old
        ones are shut down; otherwise the old ones are untouched and the row is failed. */
    method Replace() returns (r: Result)
      requires Fresh() && Rolls(app)
      modifies `row, `running, `trace, `sent, `clock, `newVersionIsHealthy
      ensures if r.Normal? then RolledOut() else Broken(r) && Effects() == 0
      ensures Calm(world) && old(row).status != Cancelled ==> r.Normal? && row.status != Cancelled
    {
      hide Verdict, Stops, Touched, Hits, Ups, Safe, Calm, Passes;
      NothingSent(0);
      NoUps();
      LogGrows(world.effect, [], Up, 0);
      assert [] + [Up] == [Up];
      r := StartByComposeFile();
      if r.Threw? { return; }
      r := HealthCheck();
      if r.Threw? { return; }
      r := StopRunningContainer(false);
      AfterUp(world.effect, sent);
    }

    /** rolling_update. Where it is not supported the old containers are stopped first, for a pull request only the one
        it names. */
    method RollingUpdate() returns (r: Result)
      requires Fresh()
      modifies `row, `running, `trace, `sent, `clock, `newVersionIsHealthy, `fixedName
      ensures if r.Normal? then RolledOut() else Broken(r) && Effects() == 0
      ensures Calm(world) && old(row).status != Cancelled ==> r.Normal? && row.status != Cancelled
    {
      hide Verdict;
      r := CheckForCancellation();
      if r.Threw? { return; }
      if Rolls(app) {
        r := Replace();
      } else {
        if app.pullRequest {
          fixedName := true;
        }
        r := StopThenStart();
      }
    }

    /** The containers are stopped first, and then the new one is started. */
    method StopThenStart() returns (r: Result)
      requires Ok() && sent == [] && Effects() == 0 && !Watched()
      modifies `row, `running, `trace, `sent, `clock
      ensures Ok() && Effects() == 0 && Ups(sent) <= 1
      ensures r.Normal? ==> row.status != Cancelled && Ups(sent) == 1 && sent[|sent| - 1] == Up
      ensures r.Normal? ==> running == old(running) - Hits(world.effect, sent, 0) + {name}
      ensures r.Normal? ==> Stops(sent, 0) == old(Targets(true)) && Touched(sent, 0) <= old(Targets(true))
      ensures Calm(world) && old(row).status != Cancelled ==> r.Normal?
    {
      hide Stops, Touched, Hits, Ups, Safe, Calm, Targets;
      NoUps();
      r := StopRunningContainer(true);
      ghost var stopped := sent;
      LogGrows(world.effect, stopped, Up, 0);
      r := StartByComposeFile();
    }

    lemma NoUps()
      ensures Ups([]) == 0
    {
    }

    /* The deployment around it. */

    method CheckImage() returns (r: Result)
      modifies `row, `imageFound, `clock
      ensures row == old(row) || row == Overwritten(old(row))
      ensures old(imageFound) ==> imageFound
      ensures r.Normal? ==> imageFound == (old(imageFound) || world.imageExists)
      ensures old(Fresh()) ==> Fresh() && (r.Threw? ==> Broken(r))
      ensures Calm(world) && old(row).status != Cancelled ==> r.Normal? && row.status != Cancelled
    {
      r := Remote();
      if r.Threw? { return; }
      // The saved output accumulates.
      imageFound := imageFound || world.imageExists;
    }

    /** Building, pushing and writing configuration: none of it touches the application's containers. */
    method Prepare() returns (r: Result)
      modifies `row, `clock
      ensures row == old(row) || row == Overwritten(old(row))
      ensures old(Fresh()) ==> Fresh() && (r.Threw? ==> Broken(r))
      ensures Calm(world) && old(row).status != Cancelled ==> r.Normal? && row.status != Cancelled
    {
      r := Remote();
      if r.Threw? { return; }
      r := Remote();
    }

    /** should_skip_build: rolls out an image that is already there, or, when only a restart was asked for, gives that
        up and starts over with a full deployment. */
    method ShouldSkipBuild() returns (r: Result, skipped: bool)
      requires Fresh()
      modifies this
      ensures r.Threw? ==> Broken(r)
      ensures r.Normal? && skipped ==> RolledOut() && skipBuild && imageFound && restartOnly == old(restartOnly)
      ensures !old(restartOnly) ==> !restartOnly
      ensures r.Normal? && !skipped ==> !restartOnly && if old(restartOnly) then Completed() else Fresh()
      ensures r.Normal? && !old(restartOnly) ==>
                skipped == (imageFound && (app.additionalServer || !world.requiresBuild))
      ensures Calm(world) && old(row).status != Cancelled && app.buildPack != Unsupported ==>
                r.Normal? && row.status != Cancelled
      decreases restartOnly, 0
    {
      skipped := false;
      if imageFound {
        if app.additionalServer || !world.requiresBuild {
          skipBuild := true;
          r := Prepare();
          if r.Threw? { return; }
          r := RollingUpdate();
          return r, true;
        }
      }
      r := Normal;
      if restartOnly {
        restartOnly := false;
        r := DecideWhatToDo();
      }
    }

    method JustRestart() returns (r: Result)
      requires Fresh() && restartOnly
      modifies this
      ensures if r.Normal? then Completed() else Broken(r)
      ensures !old(restartOnly) ==> !restartOnly
      ensures Calm(world) && old(row).status != Cancelled && app.buildPack != Unsupported ==>
                r.Normal? && row.status != Cancelled
      decreases restartOnly, 1
    {
      hide Fresh, Broken, RolledOut, Completed;
      r := Prepare();
      if r.Threw? { return; }
      r := CheckImage();
      if r.Threw? { return; }
      var skipped: bool;
      r, skipped := ShouldSkipBuild();
      if r.Threw? { return; }
      r := CompleteDeployment();
    }

    /** completeDeployment, before or after the deployment is decided. */
    method CompleteDeployment() returns (r: Result)
      requires RolledOut() || Completed()
      modifies `row, `clock
      ensures if r.Normal? then Completed() else r.code == CANCELLED_CODE && Broken(r)
      ensures Calm(world) && old(row).status != Cancelled ==> r.Normal? && row.status != Cancelled
    {
      r := TransitionToStatus(Finished);
    }

    /** Build packs that look for an existing image first: dockerfile, nixpacks, railpack and static. */
    method DeployUnlessImageFound() returns (r: Result)
      requires Fresh() && !restartOnly
      modifies this
      ensures if r.Normal? then RolledOut() else Broken(r)
      ensures !old(restartOnly) ==> !restartOnly
      ensures Calm(world) && old(row).status != Cancelled && app.buildPack != Unsupported ==>
                r.Normal? && row.status != Cancelled
      decreases restartOnly, 1
    {
      hide Fresh, Broken, RolledOut, Completed;
      r := Prepare();
      if r.Threw? { return; }
      if !app.forceRebuild {
        r := CheckImage();
        if r.Threw? { return; }
        var skipped: bool;
        r, skipped := ShouldSkipBuild();
        if r.Threw? || skipped { return; }
      }
      r := Prepare();
      if r.Threw? { return; }
      r := RollingUpdate();
    }

    /** Docker images, simple dockerfiles and pull requests. */
    method DeployAlways() returns (r: Result)
      requires Fresh()
      modifies `row, `running, `trace, `sent, `clock, `newVersionIsHealthy, `fixedName
      ensures if r.Normal? then RolledOut() else Broken(r)
      ensures Calm(world) && old(row).status != Cancelled ==> r.Normal? && row.status != Cancelled
    {
      if app.pullRequest && app.buildPack != DockerImage {
        newVersionIsHealthy := true;
      }
      r := Prepare();
      if r.Threw? { return; }
      r := RollingUpdate();
    }

    /** Docker compose replaces the containers without the rolling branch. */
    method DeployCompose() returns (r: Result)
      requires Fresh() && app.buildPack == DockerCompose
      ensures r.Normal? ==> Forced(row.status != Cancelled)
      modifies `row, `running, `trace, `sent, `clock, `newVersionIsHealthy, `fixedName
      ensures if r.Normal? then RolledOut() else Broken(r)
      ensures Calm(world) && old(row).status != Cancelled ==> r.Normal? && row.status != Cancelled
    {
      r := Prepare();
      if r.Threw? { return; }
      r := StopThenStart();
    }

    /** decide_what_to_do: at most one level of re-entry, and when it returns normally exactly one rollout and exactly
        one terminal transition have happened, although a restart that turned into a rebuild completes the deployment
        twice. */
    method DecideWhatToDo() returns (r: Result)
      requires Fresh()
      modifies this
      ensures if r.Normal? then Completed() else Broken(r)
      ensures !old(restartOnly) ==> !restartOnly
      ensures Calm(world) && old(row).status != Cancelled && app.buildPack != Unsupported ==>
                r.Normal? && row.status != Cancelled
      decreases restartOnly, 2
    {
      if restartOnly {
        r := JustRestart();
        return;
      } else if app.buildPack == DockerImage {
        r := DeployAlways();
      } else if app.pullRequest {
        if app.buildPack == DockerCompose {
          r := DeployCompose();
        } else {
          r := DeployAlways();
        }
      } else if app.dockerfile {
        r := DeployAlways();
      } else if app.buildPack == DockerCompose {
        r := DeployCompose();
      } else if app.buildPack != Unsupported {
        r := DeployUnlessImageFound();
      } else {
        r := Threw(0);
      }
      if r.Threw? { return; }
      r := CompleteDeployment();
    }

    /** The failure handler: fails the row and removes the new container, unless the deployment was cancelled, or the
        container is one that ran before. */
    method FailedHandler(cause: Result)
      requires Broken(cause)
      modifies this
      ensures Ok() && Ups(sent) == Ups(old(sent)) <= 1
      ensures Effects() == 1 || row.status == Cancelled
      ensures old(Effects()) == 1 ==> row.successes == old(row.successes) && row.failures == old(row.failures)
      ensures var removes := app.buildPack != DockerCompose && cause.code != CANCELLED_CODE && !old(fixedName)
                             && !app.pullRequest;
              && (sent == old(sent) || (removes && sent == old(sent) + [Rm(name)]))
              && (removes && row.status != Cancelled ==> sent == old(sent) + [Rm(name)])
      ensures running == old(running) - Hits(world.effect, sent, |old(sent)|)
    {
      hide Stops, Touched, Hits, Ups, Safe, Calm, Verdict;
      NothingSent(|sent|);
      LogGrows(world.effect, sent, Rm(name), |sent|);
      var r := TransitionToStatus(Failed);
      if r.Threw? { return; }
      if app.buildPack != DockerCompose && cause.code != CANCELLED_CODE && !fixedName && !app.pullRequest {
        r := Send(Rm(name));
      }
    }

    /** Every command works, whatever it reports. */
    ghost predicate AllWork() {
      forall n :: world.effect(n).works
    }

    /** What a decided deployment sent, and what runs when every command works. In the rolling branch the start comes
        first and then the old containers, or after a rollback the new one, are stopped; else the start comes last. */
    ghost predicate Carried(before: set<string>)
      reads this
    {
      && (!app.pinned && !app.fixedName && !app.pullRequest && app.buildPack != DockerCompose ==>
            && [Up] <= sent
            && (Verdict() && world.listable ==> Stops(sent, 0) == before - {name})
            && (!Verdict() ==> Stops(sent, 0) == {name})
            && (AllWork() && world.listable ==> running == if Verdict() then {name} else before - {name}))
      && ((app.pinned || app.fixedName || app.pullRequest) && app.buildPack != DockerCompose ==>
            && sent != [] && sent[|sent| - 1] == Up
            && (app.fixedName || app.pullRequest ==> Stops(sent, 0) == {name})
            && (!app.fixedName && !app.pullRequest && world.listable ==> Stops(sent, 0) == before - {name})
            && (AllWork() ==> running == before - Stops(sent, 0) + {name}))
    }

    lemma CompletedIsCarried()
      requires Completed() && olds == start - {name}
      ensures Carried(start)
    {
      HitsAreTouched(world.effect, sent, 0);
      hide Stops, Touched, Hits, Ups, Safe, Verdict, Sound, Ok;
      if AllWork() && app.buildPack != DockerCompose && (Verdict() ==> world.listable || !Rolls(app)) {
        assert Hits(world.effect, sent, 0) == Stops(sent, 0);
      }
    }

    /** handle. decided: the deployment ran to its end without an exception. */
    method Handle() returns (decided: bool)
      requires Fresh() && !Terminal(row.status)
      modifies this
      ensures Ok() && Ups(sent) <= 1
      ensures decided ==> Completed()
      ensures !decided ==> Effects() == 1 || row.status == Cancelled
      ensures Calm(world) && app.buildPack != Unsupported ==> decided
      ensures decided ==> Carried(old(running))
    {
      hide Carried;
      NoUps();
      NothingSent(0);
      decided := false;
      Refresh();
      if row.status == Cancelled { return; }
      row := Begun(row);
      if !world.functional {
        FailedHandler(Threw(0));
        return;
      }
      var r := Prepare();
      if r.Normal? {
        r := DecideWhatToDo();
      }
      if r.Threw? {
        FailedHandler(r);
      } else {
        decided := true;
        CompletedIsCarried();
      }
    }
  }
}
