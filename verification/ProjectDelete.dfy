/**
 * Checkpointed teardown of a project, apps/control-plane/src/jobs/handlers/project-delete.ts,
 * over the calls of docker/dockerode-driver.ts and storage/datastore.ts.
 *
 * Every await and every checkpoint is a step of its own, so that an attempt can crash between
 * any two of them, and a stalled attempt can still be running when the next one starts.
 */
module ProjectDelete {
  import opened Bytes

  type Name = string
  type Attempt = nat
  type Instance = string

  datatype PhysicalNames = PhysicalNames(container: Name, volume: Name, network: Name, backupVolume: Name)

  datatype Row = Row(ref: string, names: PhysicalNames, containerId: Option<Name>, hostPort: Option<int>,
                     deletedAt: Option<int>)

  /** `mounts` and `networks` name what the container uses. */
  datatype Container = Container(name: Name, running: bool, mounts: set<Name>, networks: set<Name>)

  datatype Docker = Docker(containers: map<Name, Container>, volumes: set<Name>, networks: set<Name>)

  /** `dataVolumeName`. */
  function DataVolumeName(ref: string): Name { "jp-" + ref + "-data" }

  /** What an attempt does next. */
  datatype Phase =
    | Stopping | RemovingContainer | RemovingData | RemovingBackups | RemovingNetwork
    | Saving(step: nat)
    | Retiring
    | Over

  /**
   * `worker` is its instance, `resumed` the step the attempt began at, and `row` the project
   * as it read it then.
   */
  datatype Progress = Progress(worker: Instance, row: Row, resumed: nat, phase: Phase)

  /** The project row, the job's saved `completedSteps` and owner, and every attempt so far. */
  datatype World = World(project: Option<Row>, docker: Docker, saved: Option<nat>, owner: Option<Instance>,
                         attempts: map<Attempt, Progress>)

  /** `createDataStore`'s two kinds. */
  datatype Store = DockerVolumes | CopyOnWrite

  datatype Event =
    | Claims(a: Attempt, worker: Instance)
    | Acts(a: Attempt, now: int)
    | Throws(a: Attempt, done: bool)
    | Crashes(a: Attempt)

  // ---------- Docker

  function StopContainer(d: Docker, id: Name): Docker {
    if id in d.containers then d.(containers := d.containers[id := d.containers[id].(running := false)]) else d
  }

  /** Docker keeps a volume that any container mounts, `force` or not. */
  predicate VolumeBusy(d: Docker, v: Name) {
    v in d.volumes && exists id :: id in d.containers && v in d.containers[id].mounts
  }

  /** Docker keeps a network that a running container is attached to. */
  predicate NetworkBusy(d: Docker, n: Name) {
    n in d.networks && exists id :: id in d.containers && d.containers[id].running && n in d.containers[id].networks
  }

  /** What a phase asks of Docker, had it gone through. */
  function Effect(d: Docker, row: Row, p: Phase): Docker {
    match p
    case Stopping => if row.containerId.Some? then StopContainer(d, row.containerId.value) else d
    case RemovingContainer => WithoutContainer(d, row)
    case RemovingData => d.(volumes := d.volumes - {DataVolumeName(row.ref)})
    case RemovingBackups => d.(volumes := d.volumes - {row.names.backupVolume})
    case RemovingNetwork => d.(networks := d.networks - {row.names.network})
    case _ => d
  }

  function WithoutContainer(d: Docker, row: Row): Docker {
    if row.containerId.Some? then d.(containers := d.containers - {row.containerId.value}) else d
  }

  /**
   * What the driver rethrows. Stopping forgives only a container that is already stopped;
   * removing forgives only what is already gone.
   */
  predicate Refuses(d: Docker, row: Row, p: Phase) {
    match p
    case Stopping => row.containerId.Some? && row.containerId.value !in d.containers
    case RemovingData => VolumeBusy(d, DataVolumeName(row.ref))
    case RemovingBackups => VolumeBusy(d, row.names.backupVolume)
    case RemovingNetwork => NetworkBusy(d, row.names.network)
    case _ => false
  }

  /** The copy-on-write store reports a failed removal as a finished one. */
  predicate Swallows(store: Store, p: Phase) { store.CopyOnWrite? && p.RemovingData? }

  /** Docker after a phase's call, and whether the call returned rather than threw. */
  function Outcome(d: Docker, row: Row, store: Store, p: Phase): (Docker, bool) {
    if Refuses(d, row, p) then (d, Swallows(store, p)) else (Effect(d, row, p), true)
  }

  // ---------- The handler

  /** The first guarded block an attempt at `step` enters. */
  function FirstPhase(step: nat): Phase {
    if step < 1 then Stopping
    else if step < 2 then RemovingContainer
    else if step < 3 then RemovingData
    else if step < 4 then RemovingNetwork
    else Retiring
  }

  function NextPhase(p: Phase): Phase {
    match p
    case Stopping => Saving(1)
    case RemovingContainer => Saving(2)
    case RemovingData => RemovingBackups
    case RemovingBackups => Saving(3)
    case RemovingNetwork => Saving(4)
    case Saving(step) => FirstPhase(step)
    case Retiring => Over
    case Over => Over
  }

  function Retired(row: Row, now: int): Row {
    row.(deletedAt := Some(now), containerId := None, hostPort := None)
  }

  /** `queue.checkpoint` writes only for the instance that owns the job. */
  function Saved(w: World, x: Progress): Option<nat> {
    if x.phase.Saving? && w.owner == Some(x.worker) then Some(x.phase.step) else w.saved
  }

  /** One phase of attempt `a`; a call that throws ends the attempt. */
  function Act(w: World, store: Store, a: Attempt, now: int): World
    requires a in w.attempts
  {
    var x := w.attempts[a];
    var (docker, ok) := Outcome(w.docker, x.row, store, x.phase);
    World(if x.phase.Retiring? && w.project.Some? then Some(Retired(w.project.value, now)) else w.project,
          docker, Saved(w, x), w.owner,
          w.attempts[a := x.(phase := if ok then NextPhase(x.phase) else Over)])
  }

  /** Read the row; an attempt that finds nothing to delete is over at once. */
  function Begin(w: World, a: Attempt, worker: Instance): World {
    if w.project.None? || w.project.value.deletedAt.Some? then w.(owner := Some(worker))
    else
      w.(owner := Some(worker),
         attempts := w.attempts[a := Progress(worker, w.project.value, SavedSteps(w), FirstPhase(SavedSteps(w)))])
  }

  function SavedSteps(w: World): nat { if w.saved.Some? then w.saved.value else 0 }

  /** A call fails for a reason of its own, before or after its effect. */
  function Fail(w: World, store: Store, a: Attempt, done: bool): World
    requires a in w.attempts
  {
    var x := w.attempts[a];
    w.(docker := if done then Outcome(w.docker, x.row, store, x.phase).0 else w.docker,
       attempts := w.attempts[a := x.(phase := if Swallows(store, x.phase) then NextPhase(x.phase) else Over)])
  }

  function Step(w: World, store: Store, e: Event): World {
    if e.Claims? then (if e.a in w.attempts then w else Begin(w, e.a, e.worker))
    else if e.a !in w.attempts then w
    else
      match e
      case Acts(a, now) => Act(w, store, a, now)
      case Throws(a, done) => Fail(w, store, a, done)
      case Crashes(a) => w.(attempts := w.attempts[a := w.attempts[a].(phase := Over)])
      case _ => w
  }

  function Run(w: World, store: Store, events: seq<Event>): World
    decreases |events|
  {
    if events == [] then w else Run(Step(w, store, events[0]), store, events[1..])
  }

  function Start(row: Row, docker: Docker): World { World(Some(row), docker, None, None, map[]) }

  // ---------- What is left to remove

  /** The row knows its container by id, and the data volume it had is the one named after its ref. */
  predicate Identified(row: Row, d: Docker) {
    && (forall id :: id in d.containers && d.containers[id].name == row.names.container ==> row.containerId == Some(id))
    && (row.names.volume in d.volumes ==> row.names.volume in {DataVolumeName(row.ref), row.names.backupVolume})
  }

  predicate ContainerGone(d: Docker, row: Row) {
    forall id :: id in d.containers ==> d.containers[id].name != row.names.container
  }

  predicate NothingLeft(d: Docker, row: Row) {
    && ContainerGone(d, row)
    && row.names.volume !in d.volumes && row.names.backupVolume !in d.volumes
    && row.names.network !in d.networks
  }

  /** Docker once a row's teardown is complete: those objects gone, every other one as it was. */
  function Emptied(d: Docker, row: Row): Docker {
    Docker(if row.containerId.Some? then d.containers - {row.containerId.value} else d.containers,
           d.volumes - {DataVolumeName(row.ref), row.names.backupVolume},
           d.networks - {row.names.network})
  }

  /** A finished teardown leaves nothing behind exactly when the row named everything it owned. */
  lemma EmptiedLeavesNothingIff(d: Docker, row: Row)
    ensures NothingLeft(Emptied(d, row), row) <==> Identified(row, d)
  {
    var e := Emptied(d, row);
    assert forall id :: id in d.containers && row.containerId != Some(id) ==> id in e.containers;
  }

  /** The effects of the steps up to `k` have happened to what was `d0`. */
  predicate DoneThrough(d: Docker, d0: Docker, row: Row, k: nat) {
    var e := Emptied(d0, row);
    && (k >= 2 ==> d.containers == e.containers)
    && (k >= 3 ==> d.volumes == e.volumes)
    && (k >= 4 ==> d.networks == e.networks)
  }

  /** The step whose block a phase belongs to, less one: everything before it is done. */
  function StepsBefore(p: Phase): nat {
    match p
    case Stopping => 0
    case RemovingContainer => 1
    case RemovingData => 2
    case RemovingBackups => 2
    case RemovingNetwork => 3
    case Saving(step) => step
    case Retiring => 4
    case Over => 0
  }

  /** Objects go away only, none but this project's, and each only after those before it. */
  predicate Shrinks(d: Docker, d0: Docker, row: Row) {
    var e := Emptied(d0, row);
    && (forall id :: id in e.containers ==> id in d.containers && d.containers[id] == e.containers[id])
    && (forall id :: id in d.containers ==> id in d0.containers && d.containers[id].name == d0.containers[id].name)
    && e.volumes <= d.volumes <= d0.volumes
    && e.networks <= d.networks <= d0.networks
    && (d.volumes != d0.volumes ==> d.containers == e.containers)
    && (d.networks != d0.networks ==> d.volumes == e.volumes)
  }

  predicate AttemptOk(x: Progress, d: Docker, d0: Docker, row: Row) {
    && x.row == row
    && DoneThrough(d, d0, row, StepsBefore(x.phase))
    && (x.phase.RemovingBackups? ==> DataVolumeName(row.ref) !in d.volumes)
  }

  ghost predicate Inv(w: World, d0: Docker, row: Row) {
    && w.project.Some? && w.project.value.names == row.names
    && (w.project.value.deletedAt.None? ==> w.project.value == row)
    && (w.project.value.deletedAt.Some? ==> DoneThrough(w.docker, d0, row, 4))
    && Shrinks(w.docker, d0, row)
    && (w.saved.Some? ==> DoneThrough(w.docker, d0, row, w.saved.value))
    && (forall a :: a in w.attempts ==> AttemptOk(w.attempts[a], w.docker, d0, row))
  }

  /** A done step stays done under any phase's effect. */
  lemma EffectKeepsDone(d: Docker, d0: Docker, row: Row, p: Phase, k: nat)
    requires Shrinks(d, d0, row) && DoneThrough(d, d0, row, k)
    ensures DoneThrough(Effect(d, row, p), d0, row, k)
  {
    var e := Effect(d, row, p);
    if k >= 2 && row.containerId.Some? { assert row.containerId.value !in d.containers; }
    assert k >= 2 ==> e.containers == d.containers;
  }

  lemma EffectShrinks(d: Docker, d0: Docker, row: Row, p: Phase)
    requires Shrinks(d, d0, row) && DoneThrough(d, d0, row, StepsBefore(p))
    ensures Shrinks(Effect(d, row, p), d0, row)
  {
  }

  lemma NextIsOk(x: Progress, d: Docker, d0: Docker, row: Row)
    requires Shrinks(d, d0, row) && AttemptOk(x, d, d0, row)
    ensures AttemptOk(x.(phase := NextPhase(x.phase)), Effect(d, row, x.phase), d0, row)
  {
  }

  lemma OthersStayOk(x: Progress, d: Docker, d0: Docker, row: Row, p: Phase)
    requires Shrinks(d, d0, row) && AttemptOk(x, d, d0, row)
    ensures AttemptOk(x, Effect(d, row, p), d0, row)
  {
    EffectKeepsDone(d, d0, row, p, StepsBefore(x.phase));
  }

  /** One phase's effect on the state of everything but the attempt that caused it. */
  lemma EffectKeepsInv(w: World, d0: Docker, row: Row, p: Phase)
    requires Inv(w, d0, row) && DoneThrough(w.docker, d0, row, StepsBefore(p))
    ensures Inv(w.(docker := Effect(w.docker, row, p)), d0, row)
  {
    EffectShrinks(w.docker, d0, row, p);
    if w.project.value.deletedAt.Some? { EffectKeepsDone(w.docker, d0, row, p, 4); }
    if w.saved.Some? { EffectKeepsDone(w.docker, d0, row, p, w.saved.value); }
    forall a | a in w.attempts ensures AttemptOk(w.attempts[a], Effect(w.docker, row, p), d0, row) {
      OthersStayOk(w.attempts[a], w.docker, d0, row, p);
    }
  }

  lemma ActKeepsInv(w: World, store: Store, a: Attempt, now: int, d0: Docker, row: Row)
    requires Inv(w, d0, row) && store.DockerVolumes? && a in w.attempts
    ensures Inv(Act(w, store, a, now), d0, row)
  {
    var x := w.attempts[a];
    if !Refuses(w.docker, x.row, x.phase) {
      EffectKeepsInv(w, d0, row, x.phase);
      NextIsOk(x, w.docker, d0, row);
      EffectKeepsDone(w.docker, d0, row, x.phase, StepsBefore(x.phase));
    }
  }

  lemma FailKeepsInv(w: World, store: Store, a: Attempt, done: bool, d0: Docker, row: Row)
    requires Inv(w, d0, row) && store.DockerVolumes? && a in w.attempts
    ensures Inv(Fail(w, store, a, done), d0, row)
  {
    EffectKeepsInv(w, d0, row, w.attempts[a].phase);
  }

  lemma StepKeepsInv(w: World, store: Store, e: Event, d0: Docker, row: Row)
    requires Inv(w, d0, row) && store.DockerVolumes?
    ensures Inv(Step(w, store, e), d0, row)
  {
    if e.a in w.attempts {
      match e
      case Acts(a, now) => ActKeepsInv(w, store, a, now, d0, row);
      case Throws(a, done) => FailKeepsInv(w, store, a, done, d0, row);
      case _ =>
    }
  }

  lemma {:induction false} RunKeepsInv(w: World, store: Store, events: seq<Event>, d0: Docker, row: Row)
    requires Inv(w, d0, row) && store.DockerVolumes?
    ensures Inv(Run(w, store, events), d0, row)
    decreases |events|
  {
    if events != [] {
      StepKeepsInv(w, store, events[0], d0, row);
      RunKeepsInv(Step(w, store, events[0]), store, events[1..], d0, row);
    }
  }

  /**
   * Across any number of crashes, failed calls, resumes and overlapping attempts, a retired row
   * means that Docker has lost this project's objects and nothing else.
   */
  lemma RetiredMeansEmptied(row: Row, d0: Docker, store: Store, events: seq<Event>)
    requires store.DockerVolumes? && row.deletedAt.None?
    ensures var w := Run(Start(row, d0), store, events);
            && w.project.Some?
            && (w.project.value.deletedAt.Some? ==>
                  w.docker == Emptied(d0, row) && (NothingLeft(w.docker, row) <==> Identified(row, d0)))
  {
    RunKeepsInv(Start(row, d0), store, events, d0, row);
    EmptiedLeavesNothingIff(d0, row);
  }

  /** The data goes only once the container that holds it is gone, and the network only after both. */
  lemma DataGoesAfterContainer(row: Row, d0: Docker, store: Store, events: seq<Event>)
    requires store.DockerVolumes? && row.deletedAt.None? && Identified(row, d0)
    ensures var d := Run(Start(row, d0), store, events).docker;
            && (d.volumes != d0.volumes ==> ContainerGone(d, row))
            && (d.networks != d0.networks ==> row.names.volume !in d.volumes && row.names.backupVolume !in d.volumes)
  {
    RunKeepsInv(Start(row, d0), store, events, d0, row);
    EmptiedLeavesNothingIff(d0, row);
  }

  // ---------- What every run keeps until the row is retired

  predicate IsRetired(w: World) { w.project.Some? && w.project.value.deletedAt.Some? }

  predicate Live(w: World, a: Attempt) { a in w.attempts && !w.attempts[a].phase.Over? }

  predicate Gone(d: Docker, row: Row) { row.containerId.Some? ==> row.containerId.value !in d.containers }

  /** Rows as read, steps in range, and the container gone once two steps are done or saved. */
  ghost predicate Tracked(w: World, row: Row) {
    && w.project == Some(row) && row.deletedAt.None?
    && SavedSteps(w) <= 4 && (SavedSteps(w) >= 2 ==> Gone(w.docker, row))
    && (forall a :: a in w.attempts ==>
          && w.attempts[a].row == row && StepsBefore(w.attempts[a].phase) <= 4
          && (StepsBefore(w.attempts[a].phase) >= 2 ==> Gone(w.docker, row)))
  }

  lemma GoneStays(d: Docker, row: Row, store: Store, p: Phase)
    requires Gone(d, row)
    ensures Gone(Outcome(d, row, store, p).0, row)
  {
  }

  lemma ActKeepsTracked(w: World, store: Store, a: Attempt, now: int, row: Row)
    requires Tracked(w, row) && a in w.attempts
    ensures IsRetired(Act(w, store, a, now)) || Tracked(Act(w, store, a, now), row)
  {
    var x := w.attempts[a];
    if Gone(w.docker, row) { GoneStays(w.docker, row, store, x.phase); }
  }

  lemma FailKeepsTracked(w: World, store: Store, a: Attempt, done: bool, row: Row)
    requires Tracked(w, row) && a in w.attempts
    ensures Tracked(Fail(w, store, a, done), row)
  {
    if Gone(w.docker, row) { GoneStays(w.docker, row, store, w.attempts[a].phase); }
  }

  lemma StepKeepsTracked(w: World, store: Store, e: Event, row: Row)
    requires IsRetired(w) || Tracked(w, row)
    ensures IsRetired(Step(w, store, e)) || Tracked(Step(w, store, e), row)
  {
    if !IsRetired(w) && e.a in w.attempts {
      match e
      case Acts(a, now) => ActKeepsTracked(w, store, a, now, row);
      case Throws(a, done) => FailKeepsTracked(w, store, a, done, row);
      case _ =>
    }
  }

  lemma {:induction false} RunKeepsTracked(w: World, store: Store, events: seq<Event>, row: Row)
    requires IsRetired(w) || Tracked(w, row)
    ensures IsRetired(Run(w, store, events)) || Tracked(Run(w, store, events), row)
    decreases |events|
  {
    if events != [] {
      StepKeepsTracked(w, store, events[0], row);
      RunKeepsTracked(Step(w, store, events[0]), store, events[1..], row);
    }
  }

  lemma LargerThanAll(s: set<nat>) returns (n: nat)
    ensures forall a :: a in s ==> a < n
    decreases |s|
  {
    n := 0;
    if s != {} {
      var a :| a in s;
      var m := LargerThanAll(s - {a});
      assert forall b :: b in s ==> b == a || b in s - {a};
      n := if m > a then m else a + 1;
    }
  }

  // ---------- When saved steps are repeated

  /** Every live attempt of the job's owner is at least as far as what is saved. */
  ghost predicate NoneLags(w: World) {
    && SavedSteps(w) <= 4
    && (forall a :: Live(w, a) ==>
          && w.attempts[a].resumed <= StepsBefore(w.attempts[a].phase) <= 4
          && (w.owner == Some(w.attempts[a].worker) ==> SavedSteps(w) <= StepsBefore(w.attempts[a].phase)))
  }

  /** Some live attempt of this instance, other than `but`, has not got as far as `step`. */
  predicate HasLaggard(w: World, worker: Instance, step: nat, but: Option<Attempt>) {
    exists b :: b in w.attempts && Live(w, b) && Some(b) != but && w.attempts[b].worker == worker
                && StepsBefore(w.attempts[b].phase) < step
  }

  /** An instance with a laggard takes the job, or a checkpoint of the owner overtakes a laggard of its own. */
  predicate Overtakes(w: World, e: Event) {
    match e
    case Claims(a, worker) => a !in w.attempts && HasLaggard(w, worker, SavedSteps(w), None)
    case Acts(a, _) =>
      a in w.attempts && w.attempts[a].phase.Saving? && w.owner == Some(w.attempts[a].worker)
      && HasLaggard(w, w.attempts[a].worker, w.attempts[a].phase.step, Some(a))
    case _ => false
  }

  lemma FirstPhaseIs(step: nat)
    requires step <= 4
    ensures StepsBefore(FirstPhase(step)) == step && !FirstPhase(step).Over?
  {
  }

  lemma NextIsFurther(p: Phase)
    requires !p.Over? && StepsBefore(p) <= 4
    ensures NextPhase(p).Over? || StepsBefore(p) <= StepsBefore(NextPhase(p)) <= 4
  {
  }

  /** An attempt that moves on, or ends, without saving. */
  lemma MoveKeepsPace(w: World, a: Attempt, p: Phase, v: World)
    requires NoneLags(w) && a in w.attempts
    requires p.Over? || (Live(w, a) && StepsBefore(w.attempts[a].phase) <= StepsBefore(p) <= 4)
    requires v.attempts == w.attempts[a := w.attempts[a].(phase := p)] && v.owner == w.owner && v.saved == w.saved
    ensures NoneLags(v)
  {
    forall b | Live(v, b)
      ensures v.attempts[b].resumed <= StepsBefore(v.attempts[b].phase) <= 4
      ensures v.owner == Some(v.attempts[b].worker) ==> SavedSteps(v) <= StepsBefore(v.attempts[b].phase)
    {
      assert Live(w, b);
    }
  }

  lemma SaveLagsIff(w: World, store: Store, a: Attempt, now: int)
    requires NoneLags(w) && a in w.attempts && w.attempts[a].phase.Saving? && w.owner == Some(w.attempts[a].worker)
    ensures NoneLags(Act(w, store, a, now)) <==> !Overtakes(w, Acts(a, now))
    ensures SavedSteps(w) <= SavedSteps(Act(w, store, a, now))
  {
    var v, x := Act(w, store, a, now), w.attempts[a];
    assert Live(w, a);
    FirstPhaseIs(x.phase.step);
    assert v.attempts == w.attempts[a := x.(phase := FirstPhase(x.phase.step))] && v.saved == Some(x.phase.step);
    forall b | Live(v, b) && b != a ensures Live(w, b) && v.attempts[b] == w.attempts[b] {
    }
    if Overtakes(w, Acts(a, now)) {
      var b :| b in w.attempts && Live(w, b) && Some(b) != Some(a) && w.attempts[b].worker == x.worker
               && StepsBefore(w.attempts[b].phase) < x.phase.step;
      assert Live(v, b);
    }
  }

  lemma ActLagsIff(w: World, store: Store, a: Attempt, now: int)
    requires NoneLags(w) && a in w.attempts
    ensures NoneLags(Act(w, store, a, now)) <==> !Overtakes(w, Acts(a, now))
    ensures SavedSteps(w) <= SavedSteps(Act(w, store, a, now))
  {
    var v, x := Act(w, store, a, now), w.attempts[a];
    if x.phase.Saving? && w.owner == Some(x.worker) {
      SaveLagsIff(w, store, a, now);
    } else {
      if Live(w, a) { NextIsFurther(x.phase); }
      MoveKeepsPace(w, a, v.attempts[a].phase, v);
    }
  }

  lemma ClaimLagsIff(w: World, store: Store, a: Attempt, worker: Instance)
    requires NoneLags(w) && a !in w.attempts
    ensures NoneLags(Begin(w, a, worker)) <==> !Overtakes(w, Claims(a, worker))
  {
    var v := Begin(w, a, worker);
    FirstPhaseIs(SavedSteps(w));
    assert SavedSteps(v) == SavedSteps(w);
    forall b | Live(v, b) && b != a ensures Live(w, b) && v.attempts[b] == w.attempts[b] {
    }
    if Overtakes(w, Claims(a, worker)) {
      var b :| b in w.attempts && Live(w, b) && Some(b) != None && w.attempts[b].worker == worker
               && StepsBefore(w.attempts[b].phase) < SavedSteps(w);
      assert Live(v, b) && v.attempts[b] == w.attempts[b];
    }
  }

  /** A turn lets the owner fall behind what is saved exactly when it overtakes a laggard. */
  lemma LagsIff(w: World, store: Store, e: Event)
    requires NoneLags(w)
    ensures NoneLags(Step(w, store, e)) <==> !Overtakes(w, e)
    ensures SavedSteps(w) <= SavedSteps(Step(w, store, e))
  {
    if e.a !in w.attempts {
      if e.Claims? { ClaimLagsIff(w, store, e.a, e.worker); }
    } else {
      match e
      case Claims(_, _) =>
      case Acts(a, now) => ActLagsIff(w, store, a, now);
      case Throws(a, done) =>
        if Live(w, a) { NextIsFurther(w.attempts[a].phase); }
        MoveKeepsPace(w, a, Step(w, store, e).attempts[a].phase, Step(w, store, e));
      case Crashes(a) => MoveKeepsPace(w, a, Over, Step(w, store, e));
    }
  }

  /** No turn of the run overtakes a laggard. */
  ghost predicate KeepsPace(w: World, store: Store, events: seq<Event>)
    decreases |events|
  {
    events == [] || (!Overtakes(w, events[0]) && KeepsPace(Step(w, store, events[0]), store, events[1..]))
  }

  lemma ResumedStays(w: World, store: Store, e: Event, a: Attempt)
    requires a in Step(w, store, e).attempts
    ensures Step(w, store, e).attempts[a].resumed == if a in w.attempts then w.attempts[a].resumed else SavedSteps(w)
  {
  }

  lemma {:induction false} RunKeepsPace(w: World, store: Store, events: seq<Event>, a: Attempt, floor: nat)
    requires NoneLags(w) && KeepsPace(w, store, events) && floor <= SavedSteps(w)
    requires a in w.attempts ==> floor <= w.attempts[a].resumed
    ensures var v := Run(w, store, events);
            NoneLags(v) && SavedSteps(w) <= SavedSteps(v) && (a in v.attempts ==> floor <= v.attempts[a].resumed)
    decreases |events|
  {
    if events != [] {
      LagsIff(w, store, events[0]);
      if a in Step(w, store, events[0]).attempts { ResumedStays(w, store, events[0], a); }
      RunKeepsPace(Step(w, store, events[0]), store, events[1..], a, floor);
    }
  }

  /** Attempt `a`, claimed after `w`, is about to do a step that is saved in `w`. */
  predicate Repeats(w: World, store: Store, later: seq<Event>, a: Attempt) {
    var v := Run(w, store, later);
    a !in w.attempts && Live(v, a) && StepsBefore(v.attempts[a].phase) < SavedSteps(w)
  }

  /**
   * On a run that keeps pace, what is saved only grows, and an attempt claimed once step `k` is
   * saved is never about to do any of the steps 1 to `k`.
   */
  lemma SavedStepsAreNotRepeated(row: Row, d0: Docker, store: Store, before: seq<Event>, later: seq<Event>, a: Attempt)
    requires row.deletedAt.None?
    requires KeepsPace(Start(row, d0), store, before) && KeepsPace(Run(Start(row, d0), store, before), store, later)
    ensures var w := Run(Start(row, d0), store, before);
            SavedSteps(w) <= SavedSteps(Run(w, store, later)) && !Repeats(w, store, later, a)
  {
    var w := Run(Start(row, d0), store, before);
    RunKeepsPace(Start(row, d0), store, before, a, 0);
    RunKeepsPace(w, store, later, a, if a in w.attempts then 0 else SavedSteps(w));
  }

  predicate Alive(w: World, worker: Instance) {
    exists a :: a in w.attempts && w.attempts[a].worker == worker && !w.attempts[a].phase.Over?
  }

  /** No instance claims the job again while an earlier attempt of its own is still running. */
  ghost predicate OneAtATime(w: World, store: Store, events: seq<Event>)
    decreases |events|
  {
    events == [] ||
    ((events[0].Claims? ==> !Alive(w, events[0].worker)) && OneAtATime(Step(w, store, events[0]), store, events[1..]))
  }

  ghost predicate OneEach(w: World) {
    forall a, b :: Live(w, a) && Live(w, b) && w.attempts[a].worker == w.attempts[b].worker ==> a == b
  }

  lemma StepKeepsOneEach(w: World, store: Store, e: Event)
    requires OneEach(w) && (e.Claims? ==> !Alive(w, e.worker))
    ensures OneEach(Step(w, store, e)) && !Overtakes(w, e)
  {
    var v := Step(w, store, e);
    forall a | Live(v, a) && a in w.attempts ensures Live(w, a) && v.attempts[a].worker == w.attempts[a].worker {
    }
  }

  /** In particular a run keeps pace if every instance runs one attempt at a time. */
  lemma {:induction false} OneAtATimeKeepsPace(w: World, store: Store, events: seq<Event>)
    requires OneEach(w) && OneAtATime(w, store, events)
    ensures KeepsPace(w, store, events)
    decreases |events|
  {
    if events != [] {
      StepKeepsOneEach(w, store, events[0]);
      OneAtATimeKeepsPace(Step(w, store, events[0]), store, events[1..]);
    }
  }

  lemma {:induction false} RunSnoc(w: World, store: Store, events: seq<Event>, e: Event)
    ensures Run(w, store, events + [e]) == Step(Run(w, store, events), store, e)
    decreases |events|
  {
    if events == [] {
      assert [] + [e] == [e] && [e][1..] == [];
    } else {
      assert (events + [e])[0] == events[0] && (events + [e])[1..] == events[1..] + [e];
      RunSnoc(Step(w, store, events[0]), store, events[1..], e);
    }
  }

  lemma ScriptOfSeven(s: World, store: Store, es: seq<Event>)
    requires |es| == 7
    ensures var w4 := Step(Step(Step(Step(s, store, es[0]), store, es[1]), store, es[2]), store, es[3]);
            Run(s, store, es) == Step(Step(Step(w4, store, es[4]), store, es[5]), store, es[6])
  {
    RunSnoc(s, store, [], es[0]);
    forall i | 0 < i < 7 ensures Run(s, store, es[..i + 1]) == Step(Run(s, store, es[..i]), store, es[i]) {
      assert es[..i + 1] == es[..i] + [es[i]];
      RunSnoc(s, store, es[..i], es[i]);
    }
    assert es[..1] == [] + [es[0]] && es[..7] == es;
    assert Run(s, store, es[..2]) == Step(Run(s, store, es[..1]), store, es[1]);
    assert Run(s, store, es[..3]) == Step(Run(s, store, es[..2]), store, es[2]);
    assert Run(s, store, es[..4]) == Step(Run(s, store, es[..3]), store, es[3]);
  }

  lemma ScriptOfThree(s: World, store: Store, es: seq<Event>)
    requires |es| >= 3
    ensures Run(s, store, es[..3]) == Step(Step(Step(s, store, es[0]), store, es[1]), store, es[2])
  {
    RunSnoc(s, store, [], es[0]);
    RunSnoc(s, store, es[..1], es[1]);
    RunSnoc(s, store, es[..2], es[2]);
    assert es[..1] == [] + [es[0]] && es[..2] == es[..1] + [es[1]] && es[..3] == es[..2] + [es[2]];
  }

  /** Attempt 1 of instance "a" has saved two steps while its stalled attempt 0 has yet to save one. */
  ghost predicate Lagging(w: World, row: Row) {
    && w.project == Some(row) && w.saved == Some(2) && w.owner == Some("a")
    && w.attempts == map[0 := Progress("a", row, 0, Saving(1)), 1 := Progress("a", row, 0, RemovingData)]
  }

  lemma LaggingRun(row: Row, d0: Docker, store: Store, before: seq<Event>)
    requires row.deletedAt.None? && (row.containerId.Some? ==> row.containerId.value in d0.containers)
    requires before == [Claims(0, "a"), Acts(0, 0), Claims(1, "a"), Acts(1, 0), Acts(1, 0), Acts(1, 0), Acts(1, 0)]
    ensures Lagging(Run(Start(row, d0), store, before), row)
  {
    ScriptOfSeven(Start(row, d0), store, before);
    var w2 := Step(Step(Start(row, d0), store, before[0]), store, before[1]);
    TwoAttempts(row, d0, store);
    var w4 := Step(Step(w2, store, before[2]), store, before[3]);
    LaterSaves(w4, row, store);
  }

  lemma TwoAttempts(row: Row, d0: Docker, store: Store)
    requires row.deletedAt.None? && (row.containerId.Some? ==> row.containerId.value in d0.containers)
    ensures var w2 := Step(Step(Start(row, d0), store, Claims(0, "a")), store, Acts(0, 0));
            var w4 := Step(Step(w2, store, Claims(1, "a")), store, Acts(1, 0));
            && w4.project == Some(row) && w4.saved.None? && w4.owner == Some("a")
            && w4.attempts == map[0 := Progress("a", row, 0, Saving(1)), 1 := Progress("a", row, 0, Saving(1))]
  {
    var w1 := Step(Start(row, d0), store, Claims(0, "a"));
    assert w1.attempts == map[0 := Progress("a", row, 0, Stopping)];
    var w3 := Step(Step(w1, store, Acts(0, 0)), store, Claims(1, "a"));
    assert w3.attempts == map[0 := Progress("a", row, 0, Saving(1)), 1 := Progress("a", row, 0, Stopping)];
    assert row.containerId.Some? ==> row.containerId.value in w3.docker.containers;
  }

  lemma LaterSaves(w: World, row: Row, store: Store)
    requires w.project == Some(row) && row.deletedAt.None? && w.saved.None? && w.owner == Some("a")
    requires w.attempts == map[0 := Progress("a", row, 0, Saving(1)), 1 := Progress("a", row, 0, Saving(1))]
    ensures Lagging(Step(Step(Step(w, store, Acts(1, 0)), store, Acts(1, 0)), store, Acts(1, 0)), row)
  {
    var w1 := Step(w, store, Acts(1, 0));
    assert w1.saved == Some(1) && w1.attempts[1] == Progress("a", row, 0, RemovingContainer);
    var w2 := Step(w1, store, Acts(1, 0));
    assert w2.saved == Some(1) && w2.attempts[1] == Progress("a", row, 0, Saving(2));
    var w3 := Step(w2, store, Acts(1, 0));
    assert w3.saved == Some(2) && w3.attempts[1] == Progress("a", row, 0, RemovingData);
    assert w3.attempts[0] == w.attempts[0] && w3.attempts.Keys == {0, 1};
  }

  /**
   * The condition is needed: an instance that claims the job again while its stalled attempt still
   * runs lets that attempt's late checkpoint pass the fence, and a saved step is done again.
   */
  lemma StaleSaveRepeats(row: Row, d0: Docker, store: Store)
    requires row.deletedAt.None? && (row.containerId.Some? ==> row.containerId.value in d0.containers)
    ensures var before := [Claims(0, "a"), Acts(0, 0), Claims(1, "a"), Acts(1, 0), Acts(1, 0), Acts(1, 0), Acts(1, 0)];
            var w := Run(Start(row, d0), store, before);
            var v := Run(w, store, [Acts(0, 0), Claims(2, "b")]);
            SavedSteps(w) == 2 && 2 !in w.attempts && 2 in v.attempts && v.attempts[2].phase == RemovingContainer
  {
    var before := [Claims(0, "a"), Acts(0, 0), Claims(1, "a"), Acts(1, 0), Acts(1, 0), Acts(1, 0), Acts(1, 0)];
    var w := Run(Start(row, d0), store, before);
    LaggingRun(row, d0, store, before);
    RunSnoc(w, store, [], Acts(0, 0));
    RunSnoc(w, store, [Acts(0, 0)], Claims(2, "b"));
    assert [] + [Acts(0, 0)] == [Acts(0, 0)] && [Acts(0, 0)] + [Claims(2, "b")] == [Acts(0, 0), Claims(2, "b")];
    assert Run(w, store, [Acts(0, 0)]).saved == Some(1);
  }

  // ---------- One attempt left alone

  /** Phases still ahead, the one at hand included. */
  function Remaining(p: Phase): nat {
    match p
    case Stopping => 10
    case Saving(step) => if step < 1 then 11 else if step < 2 then 9 else if step < 3 then 7 else if step < 4 then 4 else 2
    case RemovingContainer => 8
    case RemovingData => 6
    case RemovingBackups => 5
    case RemovingNetwork => 3
    case Retiring => 1
    case Over => 0
  }

  /** Attempt `a` goes on undisturbed until it is over. */
  function Alone(w: World, store: Store, a: Attempt, now: int): World
    requires a in w.attempts
    decreases Remaining(w.attempts[a].phase)
  {
    if w.attempts[a].phase.Over? then w else Alone(Act(w, store, a, now), store, a, now)
  }

  /**
   * Nothing stands in the way of an attempt at phase `p`: the container to be stopped is there,
   * and nobody but it uses the volumes and the network still to be removed.
   */
  predicate PathClear(d: Docker, row: Row, store: Store, p: Phase) {
    var step := StepsBefore(p);
    var left := if step < 2 then WithoutContainer(d, row) else d;
    && !p.Over?
    && (step < 1 && row.containerId.Some? ==> row.containerId.value in d.containers)
    && (step < 3 ==>
          && (p.RemovingBackups? || store.CopyOnWrite? || !VolumeBusy(left, DataVolumeName(row.ref)))
          && !VolumeBusy(left, row.names.backupVolume))
    && (step < 4 ==> !NetworkBusy(left, row.names.network))
  }

  /** The same, for an attempt that begins with `step` saved. */
  predicate Clear(d: Docker, row: Row, store: Store, step: nat) { PathClear(d, row, store, FirstPhase(step)) }

  lemma StoppedAndRemoved(d: Docker, row: Row)
    requires row.containerId.Some?
    ensures WithoutContainer(StopContainer(d, row.containerId.value), row) == WithoutContainer(d, row)
  {
    var id := row.containerId.value;
    assert StopContainer(d, id).containers - {id} == d.containers - {id};
  }

  /** Each phase's call goes through and leaves the path clear, exactly when the path was clear. */
  lemma PathStep(d: Docker, row: Row, store: Store, p: Phase)
    requires !p.Over? && !p.Retiring?
    ensures var (after, ok) := Outcome(d, row, store, p);
            PathClear(d, row, store, p) <==> ok && PathClear(after, row, store, NextPhase(p))
  {
    match p
    case Stopping => if row.containerId.Some? { StoppedAndRemoved(d, row); }
    case RemovingContainer =>
    case RemovingData => DataStep(d, row, store);
    case RemovingBackups =>
    case RemovingNetwork =>
    case Saving(step) =>
  }

  lemma DataStep(d: Docker, row: Row, store: Store)
    ensures var (after, ok) := Outcome(d, row, store, RemovingData);
            PathClear(d, row, store, RemovingData) <==> ok && PathClear(after, row, store, RemovingBackups)
  {
    var after := Outcome(d, row, store, RemovingData).0;
    assert after.containers == d.containers && after.networks == d.networks;
    assert VolumeBusy(after, row.names.backupVolume) <==>
           VolumeBusy(d, row.names.backupVolume) && (row.names.backupVolume in after.volumes);
  }

  lemma {:induction false} AloneRetiresIff(w: World, store: Store, a: Attempt, now: int)
    requires w.project.Some? && !IsRetired(w) && a in w.attempts
    ensures IsRetired(Alone(w, store, a, now)) <==>
            PathClear(w.docker, w.attempts[a].row, store, w.attempts[a].phase)
    decreases Remaining(w.attempts[a].phase)
  {
    var x := w.attempts[a];
    if !x.phase.Over? {
      var next := Act(w, store, a, now);
      if x.phase.Retiring? {
        assert Alone(next, store, a, now) == next;
      } else {
        PathStep(w.docker, x.row, store, x.phase);
        AloneRetiresIff(next, store, a, now);
      }
    }
  }

  lemma {:induction false} AloneKeepsInv(w: World, store: Store, a: Attempt, now: int, d0: Docker, row: Row)
    requires Inv(w, d0, row) && store.DockerVolumes? && a in w.attempts
    ensures Inv(Alone(w, store, a, now), d0, row)
    decreases Remaining(w.attempts[a].phase)
  {
    if !w.attempts[a].phase.Over? {
      ActKeepsInv(w, store, a, now, d0, row);
      AloneKeepsInv(Act(w, store, a, now), store, a, now, d0, row);
    }
  }

  /**
   * However often it was interrupted before, one attempt left alone retires the row exactly when
   * its path is clear: stopping not saved as done needs a container to stop, and the volumes and
   * network not yet removed must be free. What it then leaves is the same as without interruptions.
   */
  lemma NextAttemptFinishesIff(row: Row, d0: Docker, store: Store, events: seq<Event>, a: Attempt, worker: Instance, now: int)
    requires row.deletedAt.None?
    ensures var w := Run(Start(row, d0), store, events);
            a !in w.attempts && w.project.Some? && !IsRetired(w) ==>
              var v := Alone(Step(w, store, Claims(a, worker)), store, a, now);
              && (IsRetired(v) <==> Clear(w.docker, w.project.value, store, SavedSteps(w)))
              && (IsRetired(v) && store.DockerVolumes? ==> v.docker == Emptied(d0, row))
  {
    var w := Run(Start(row, d0), store, events);
    if a !in w.attempts && w.project.Some? && !IsRetired(w) {
      var begun := Step(w, store, Claims(a, worker));
      AloneRetiresIff(begun, store, a, now);
      if store.DockerVolumes? {
        RunKeepsInv(Start(row, d0), store, events, d0, row);
        StepKeepsInv(w, store, Claims(a, worker), d0, row);
        AloneKeepsInv(begun, store, a, now, d0, row);
      }
    }
  }

  /** `Alone` is a run like any other. */
  lemma {:induction false} AloneIsRun(s: World, w: World, store: Store, before: seq<Event>, a: Attempt, now: int)
    returns (events: seq<Event>)
    requires a in w.attempts && w == Run(s, store, before)
    ensures Run(s, store, events) == Alone(w, store, a, now)
    decreases Remaining(w.attempts[a].phase)
  {
    events := before;
    if !w.attempts[a].phase.Over? {
      RunSnoc(s, store, before, Acts(a, now));
      events := AloneIsRun(s, Act(w, store, a, now), store, before + [Acts(a, now)], a, now);
    }
  }

  // ---------- Exactly when a saved step can be repeated

  /** The step an attempt saves next; one that is past its last save has none. */
  function NextSave(p: Phase): nat {
    match p
    case Stopping => 1
    case RemovingContainer => 2
    case RemovingData => 3
    case RemovingBackups => 3
    case RemovingNetwork => 4
    case Saving(step) => step
    case _ => 5
  }

  /** The calls between phase `p` and the next save go through. */
  predicate Saves(d: Docker, row: Row, store: Store, p: Phase) {
    && !p.Over? && !p.Retiring?
    && (p.Stopping? ==> !Refuses(d, row, p))
    && (p.RemovingData? ==> store.CopyOnWrite? || !VolumeBusy(d, DataVolumeName(row.ref)))
    && (p.RemovingData? || p.RemovingBackups? ==> !VolumeBusy(d, row.names.backupVolume))
    && (p.RemovingNetwork? ==> !NetworkBusy(d, row.names.network))
  }

  /** Letting live attempt `b` go on to its next save takes back what is saved. */
  predicate Undoes(w: World, row: Row, store: Store, b: Attempt) {
    Live(w, b) && NextSave(w.attempts[b].phase) < SavedSteps(w) && Saves(w.docker, row, store, w.attempts[b].phase)
  }

  lemma SavesStep(d: Docker, row: Row, store: Store, p: Phase)
    requires !p.Over? && !p.Retiring? && !p.Saving?
    ensures var (after, ok) := Outcome(d, row, store, p);
            Saves(d, row, store, p) <==> ok && Saves(after, row, store, NextPhase(p))
    ensures NextSave(NextPhase(p)) == NextSave(p)
  {
    if p.RemovingData? {
      var after := Outcome(d, row, store, p).0;
      assert VolumeBusy(after, row.names.backupVolume) <==>
             VolumeBusy(d, row.names.backupVolume) && (row.names.backupVolume in after.volumes);
    }
  }

  /** No attempt's call makes way for another's. */
  lemma CallMakesNoWay(d: Docker, row: Row, store: Store, p: Phase, q: Phase)
    requires StepsBefore(q) >= 2 ==> Gone(d, row)
    ensures Saves(Outcome(d, row, store, p).0, row, store, q) ==> Saves(d, row, store, q)
    ensures PathClear(Outcome(d, row, store, p).0, row, store, q) ==> PathClear(d, row, store, q)
  {
    match p
    case Stopping => StopMakesNoWay(d, row, store, q);
    case RemovingContainer =>
      assert Gone(d, row) ==> WithoutContainer(d, row) == d;
      assert WithoutContainer(WithoutContainer(d, row), row) == WithoutContainer(d, row);
    case RemovingData => VolumeMakesNoWay(d, row, store, DataVolumeName(row.ref), q);
    case RemovingBackups => VolumeMakesNoWay(d, row, store, row.names.backupVolume, q);
    case RemovingNetwork =>
    case _ =>
  }

  lemma StopMakesNoWay(d: Docker, row: Row, store: Store, q: Phase)
    requires StepsBefore(q) >= 2 ==> Gone(d, row)
    ensures var after := Outcome(d, row, store, Stopping).0;
            && (Saves(after, row, store, q) ==> Saves(d, row, store, q))
            && (PathClear(after, row, store, q) ==> PathClear(d, row, store, q))
  {
    if row.containerId.Some? && !Gone(d, row) {
      var after := Outcome(d, row, store, Stopping).0;
      StoppedAndRemoved(d, row);
      assert after.containers.Keys == d.containers.Keys && after.volumes == d.volumes;
      assert q.RemovingData? || q.RemovingBackups? || q.RemovingNetwork? ==> StepsBefore(q) >= 2;
    }
  }

  lemma VolumeMakesNoWay(d: Docker, row: Row, store: Store, v: Name, q: Phase)
    ensures var after := if VolumeBusy(d, v) then d else d.(volumes := d.volumes - {v});
            && (Saves(after, row, store, q) ==> Saves(d, row, store, q))
            && (PathClear(after, row, store, q) ==> PathClear(d, row, store, q))
  {
    if !VolumeBusy(d, v) {
      var after := d.(volumes := d.volumes - {v});
      var left := WithoutContainer(d, row);
      assert forall u :: VolumeBusy(d, u) ==> VolumeBusy(after, u);
      assert forall u :: VolumeBusy(left, u) ==> VolumeBusy(d, u);
      assert forall u :: VolumeBusy(left, u) ==> VolumeBusy(WithoutContainer(after, row), u);
    }
  }

  ghost predicate NoneUndoes(v: World, row: Row, store: Store, floor: nat) {
    forall b :: Live(v, b) ==> Harmless(v.docker, row, store, v.attempts[b].phase, floor)
  }

  /** Nothing can take back the first `floor` steps, and nobody new has begun short of them. */
  ghost predicate Fixed(v: World, known: set<Attempt>, row: Row, store: Store, floor: nat) {
    && known <= v.attempts.Keys
    && (forall a :: Live(v, a) && a !in known ==> floor <= StepsBefore(v.attempts[a].phase) <= 4)
    && (!IsRetired(v) ==> Tracked(v, row) && floor <= SavedSteps(v) && NoneUndoes(v, row, store, floor))
  }

  predicate Harmless(d: Docker, row: Row, store: Store, p: Phase, floor: nat) {
    floor <= NextSave(p) || !Saves(d, row, store, p)
  }

  lemma CallKeepsHarmless(d: Docker, row: Row, store: Store, p: Phase, q: Phase, floor: nat)
    requires StepsBefore(q) >= 2 ==> Gone(d, row)
    requires Harmless(d, row, store, q, floor)
    ensures Harmless(Outcome(d, row, store, p).0, row, store, q, floor)
  {
    CallMakesNoWay(d, row, store, p, q);
  }

  /** An attempt that goes through one more call is as harmless as before. */
  lemma NextIsHarmless(d: Docker, row: Row, store: Store, p: Phase, floor: nat)
    requires Harmless(d, row, store, p, floor) && !p.Over? && floor <= 4 && StepsBefore(p) <= 4
    ensures var (after, ok) := Outcome(d, row, store, p);
            ok && !NextPhase(p).Over? ==> Harmless(after, row, store, NextPhase(p), floor)
  {
    if !p.Retiring? && !p.Saving? { SavesStep(d, row, store, p); }
  }

  lemma ActKeepsNoneUndoes(v: World, store: Store, a: Attempt, now: int, row: Row, floor: nat)
    requires Tracked(v, row) && floor <= SavedSteps(v) && NoneUndoes(v, row, store, floor) && Live(v, a)
    requires !v.attempts[a].phase.Retiring?
    ensures floor <= SavedSteps(Act(v, store, a, now)) && NoneUndoes(Act(v, store, a, now), row, store, floor)
  {
    var u, x := Act(v, store, a, now), v.attempts[a];
    assert Harmless(v.docker, row, store, x.phase, floor);
    NextIsHarmless(v.docker, row, store, x.phase, floor);
    forall b | Live(u, b) ensures Harmless(u.docker, row, store, u.attempts[b].phase, floor) {
      if b != a {
        assert Live(v, b) && u.attempts[b] == v.attempts[b];
        CallKeepsHarmless(v.docker, row, store, x.phase, v.attempts[b].phase, floor);
      }
    }
  }

  lemma FailKeepsNoneUndoes(v: World, store: Store, a: Attempt, done: bool, row: Row, floor: nat)
    requires Tracked(v, row) && floor <= SavedSteps(v) && NoneUndoes(v, row, store, floor) && Live(v, a)
    ensures NoneUndoes(Fail(v, store, a, done), row, store, floor)
  {
    var u, x := Fail(v, store, a, done), v.attempts[a];
    assert Harmless(v.docker, row, store, x.phase, floor);
    NextIsHarmless(v.docker, row, store, x.phase, floor);
    forall b | Live(u, b) ensures Harmless(u.docker, row, store, u.attempts[b].phase, floor) {
      if b != a {
        assert Live(v, b) && u.attempts[b] == v.attempts[b];
        CallKeepsHarmless(v.docker, row, store, x.phase, v.attempts[b].phase, floor);
      }
    }
  }

  lemma ClaimKeepsNoneUndoes(v: World, store: Store, a: Attempt, worker: Instance, row: Row, floor: nat)
    requires Tracked(v, row) && floor <= SavedSteps(v) && NoneUndoes(v, row, store, floor) && a !in v.attempts
    ensures NoneUndoes(Begin(v, a, worker), row, store, floor)
  {
    var u := Begin(v, a, worker);
    forall b | Live(u, b) ensures Harmless(u.docker, row, store, u.attempts[b].phase, floor) {
      if b != a { assert Live(v, b) && u.attempts[b] == v.attempts[b]; }
    }
  }

  lemma StepKeepsNoneUndoes(v: World, store: Store, e: Event, row: Row, floor: nat)
    requires Tracked(v, row) && floor <= SavedSteps(v) && NoneUndoes(v, row, store, floor)
    requires !IsRetired(Step(v, store, e))
    ensures floor <= SavedSteps(Step(v, store, e)) && NoneUndoes(Step(v, store, e), row, store, floor)
  {
    var u := Step(v, store, e);
    if e.a !in v.attempts {
      if e.Claims? { ClaimKeepsNoneUndoes(v, store, e.a, e.worker, row, floor); }
    } else if Live(v, e.a) && e.Acts? {
      ActKeepsNoneUndoes(v, store, e.a, e.now, row, floor);
    } else if Live(v, e.a) && e.Throws? {
      FailKeepsNoneUndoes(v, store, e.a, e.done, row, floor);
    } else {
      assert u.docker == v.docker && SavedSteps(u) == SavedSteps(v);
      forall b | Live(u, b) ensures Harmless(u.docker, row, store, u.attempts[b].phase, floor) {
        assert Live(v, b) && u.attempts[b] == v.attempts[b];
      }
    }
  }

  /** Attempts begun later start at what is saved then, and only move on. */
  lemma NewcomersStay(v: World, known: set<Attempt>, row: Row, store: Store, e: Event, floor: nat)
    requires Fixed(v, known, row, store, floor) && floor <= 4
    ensures var u := Step(v, store, e);
            && known <= u.attempts.Keys
            && forall a :: Live(u, a) && a !in known ==> floor <= StepsBefore(u.attempts[a].phase) <= 4
  {
    var u := Step(v, store, e);
    forall a | Live(u, a) && a !in known ensures floor <= StepsBefore(u.attempts[a].phase) <= 4 {
      if a !in v.attempts {
        FirstPhaseIs(SavedSteps(v));
      } else {
        assert Live(v, a);
        NextIsFurther(v.attempts[a].phase);
      }
    }
  }

  lemma {:induction false} RunStaysFixed(v: World, known: set<Attempt>, row: Row, store: Store, events: seq<Event>, floor: nat)
    requires Fixed(v, known, row, store, floor) && floor <= 4
    ensures Fixed(Run(v, store, events), known, row, store, floor)
    decreases |events|
  {
    if events != [] {
      var u := Step(v, store, events[0]);
      NewcomersStay(v, known, row, store, events[0], floor);
      StepKeepsTracked(v, store, events[0], row);
      if !IsRetired(u) { StepKeepsNoneUndoes(v, store, events[0], row, floor); }
      RunStaysFixed(u, known, row, store, events[1..], floor);
    }
  }

  /** An attempt whose calls go through reaches its next save and nothing else changes hands. */
  lemma {:induction false} ReachesSave(s: World, w: World, store: Store, before: seq<Event>, b: Attempt, row: Row)
    returns (events: seq<Event>, v: World)
    requires w == Run(s, store, before) && w.project == Some(row)
    requires Live(w, b) && w.attempts[b].row == row && Saves(w.docker, row, store, w.attempts[b].phase)
    ensures v == Run(s, store, events) && v.project == w.project && v.owner == w.owner
    ensures v.attempts == w.attempts[b := w.attempts[b].(phase := Saving(NextSave(w.attempts[b].phase)))]
    decreases Remaining(w.attempts[b].phase)
  {
    var x := w.attempts[b];
    events, v := before, w;
    if !x.phase.Saving? {
      SavesStep(w.docker, row, store, x.phase);
      RunSnoc(s, store, before, Acts(b, 0));
      events, v := ReachesSave(s, Act(w, store, b, 0), store, before + [Acts(b, 0)], b, row);
    }
  }

  /** The laggard's instance takes the job once more, the laggard saves, and the next claim begins there. */
  lemma UndoneRun(w: World, row: Row, store: Store, b: Attempt) returns (later: seq<Event>, a: Attempt)
    requires Tracked(w, row) && Undoes(w, row, store, b)
    ensures Repeats(w, store, later, a)
  {
    var worker, k := w.attempts[b].worker, NextSave(w.attempts[b].phase);
    var n := LargerThanAll(w.attempts.Keys);
    a := n + 1;
    var w1 := Step(w, store, Claims(n, worker));
    RunSnoc(w, store, [], Claims(n, worker));
    var events, v := ReachesSave(w, w1, store, [] + [Claims(n, worker)], b, row);
    RunSnoc(w, store, events, Acts(b, 0));
    later := events + [Acts(b, 0)] + [Claims(a, "")];
    RunSnoc(w, store, events + [Acts(b, 0)], Claims(a, ""));
    var saved := Act(v, store, b, 0);
    assert saved.saved == Some(k) && saved.project == Some(row) && a !in saved.attempts;
    FirstPhaseIs(k);
  }

  /**
   * From any reachable state, a saved step can be repeated exactly when some live attempt's next
   * save is below what is saved and the calls in front of that save go through.
   */
  lemma CanRepeatIff(row: Row, d0: Docker, store: Store, before: seq<Event>)
    requires row.deletedAt.None?
    ensures var w := Run(Start(row, d0), store, before);
            !IsRetired(w) ==>
              ((exists later, a :: Repeats(w, store, later, a)) <==> exists b :: Undoes(w, row, store, b))
  {
    var w := Run(Start(row, d0), store, before);
    RunKeepsTracked(Start(row, d0), store, before, row);
    if !IsRetired(w) {
      if b :| Undoes(w, row, store, b) {
        var later, a := UndoneRun(w, row, store, b);
      } else {
        forall b | Live(w, b) ensures Harmless(w.docker, row, store, w.attempts[b].phase, SavedSteps(w)) {
          assert !Undoes(w, row, store, b);
        }
        forall later, a ensures !Repeats(w, store, later, a) {
          RunStaysFixed(w, w.attempts.Keys, row, store, later, SavedSteps(w));
        }
      }
    }
  }

  // ---------- Exactly when a teardown can still complete

  /** Neither a fresh attempt nor any live one has a clear path. */
  ghost predicate NoWay(w: World, row: Row, store: Store) {
    && Tracked(w, row) && !Clear(w.docker, row, store, SavedSteps(w))
    && (forall a :: Live(w, a) ==> !PathClear(w.docker, row, store, w.attempts[a].phase))
  }

  lemma CallKeepsUnclear(d: Docker, row: Row, store: Store, p: Phase, step: nat)
    requires !Clear(d, row, store, step) && (step >= 2 ==> Gone(d, row)) && step <= 4
    ensures !Clear(Outcome(d, row, store, p).0, row, store, step)
  {
    FirstPhaseIs(step);
    CallMakesNoWay(d, row, store, p, FirstPhase(step));
  }

  lemma ActKeepsNoWay(w: World, store: Store, a: Attempt, now: int, row: Row)
    requires NoWay(w, row, store) && Live(w, a)
    ensures NoWay(Act(w, store, a, now), row, store)
  {
    var v, x := Act(w, store, a, now), w.attempts[a];
    assert !x.phase.Retiring?;
    ActKeepsTracked(w, store, a, now, row);
    PathStep(w.docker, row, store, x.phase);
    CallKeepsUnclear(w.docker, row, store, x.phase, SavedSteps(w));
    forall b | Live(v, b) ensures !PathClear(v.docker, row, store, v.attempts[b].phase) {
      if b != a {
        assert Live(w, b) && v.attempts[b] == w.attempts[b];
        CallMakesNoWay(w.docker, row, store, x.phase, w.attempts[b].phase);
      }
    }
  }

  lemma FailKeepsNoWay(w: World, store: Store, a: Attempt, done: bool, row: Row)
    requires NoWay(w, row, store) && Live(w, a)
    ensures NoWay(Fail(w, store, a, done), row, store)
  {
    var v, x := Fail(w, store, a, done), w.attempts[a];
    assert !x.phase.Retiring?;
    FailKeepsTracked(w, store, a, done, row);
    PathStep(w.docker, row, store, x.phase);
    CallKeepsUnclear(w.docker, row, store, x.phase, SavedSteps(w));
    forall b | Live(v, b) ensures !PathClear(v.docker, row, store, v.attempts[b].phase) {
      if b != a {
        assert Live(w, b) && v.attempts[b] == w.attempts[b];
        CallMakesNoWay(w.docker, row, store, x.phase, w.attempts[b].phase);
      }
    }
  }

  lemma StepKeepsNoWay(w: World, store: Store, e: Event, row: Row)
    requires NoWay(w, row, store)
    ensures NoWay(Step(w, store, e), row, store)
  {
    var v := Step(w, store, e);
    if Live(w, e.a) && e.Acts? {
      ActKeepsNoWay(w, store, e.a, e.now, row);
    } else if Live(w, e.a) && e.Throws? {
      FailKeepsNoWay(w, store, e.a, e.done, row);
    } else {
      StepKeepsTracked(w, store, e, row);
      assert v.docker == w.docker && v.project == w.project && SavedSteps(v) == SavedSteps(w);
      forall b | Live(v, b) ensures !PathClear(v.docker, row, store, v.attempts[b].phase) {
        if b in w.attempts { assert Live(w, b) && v.attempts[b] == w.attempts[b]; }
      }
    }
  }

  lemma {:induction false} NoWayForGood(w: World, store: Store, events: seq<Event>, row: Row)
    requires NoWay(w, row, store)
    ensures !IsRetired(Run(w, store, events))
    decreases |events|
  {
    if events != [] {
      StepKeepsNoWay(w, store, events[0], row);
      NoWayForGood(Step(w, store, events[0]), store, events[1..], row);
    }
  }

  /** Some attempt now running could retire the row if left alone. */
  ghost predicate OnItsWay(w: World, row: Row, store: Store) {
    exists a :: Live(w, a) && PathClear(w.docker, row, store, w.attempts[a].phase)
  }

  lemma RetiringRun(w: World, row: Row, store: Store) returns (later: seq<Event>)
    requires Tracked(w, row) && (Clear(w.docker, row, store, SavedSteps(w)) || OnItsWay(w, row, store))
    ensures IsRetired(Run(w, store, later))
  {
    if OnItsWay(w, row, store) {
      var a :| Live(w, a) && PathClear(w.docker, row, store, w.attempts[a].phase);
      AloneRetiresIff(w, store, a, 0);
      later := AloneIsRun(w, w, store, [], a, 0);
    } else {
      var a := LargerThanAll(w.attempts.Keys);
      var begun := Step(w, store, Claims(a, ""));
      RunSnoc(w, store, [], Claims(a, ""));
      AloneRetiresIff(begun, store, a, 0);
      later := AloneIsRun(w, begun, store, [] + [Claims(a, "")], a, 0);
    }
  }

  /**
   * From any reachable state, some continuation retires the row exactly when a fresh attempt
   * could do it alone or one that is already running could.
   */
  lemma CanStillRetireIff(row: Row, d0: Docker, store: Store, before: seq<Event>)
    requires row.deletedAt.None?
    ensures var w := Run(Start(row, d0), store, before);
            !IsRetired(w) ==>
              ((exists later :: IsRetired(Run(w, store, later))) <==>
               Clear(w.docker, row, store, SavedSteps(w)) || OnItsWay(w, row, store))
  {
    var w := Run(Start(row, d0), store, before);
    RunKeepsTracked(Start(row, d0), store, before, row);
    if !IsRetired(w) {
      if Clear(w.docker, row, store, SavedSteps(w)) || OnItsWay(w, row, store) {
        var later := RetiringRun(w, row, store);
        assert exists es :: IsRetired(Run(w, store, es));
      } else {
        forall later ensures !IsRetired(Run(w, store, later)) {
          NoWayForGood(w, store, later, row);
        }
      }
    }
  }

  /** In particular, from the start: exactly when the very first attempt could have done it alone. */
  lemma CanRetireIff(row: Row, d0: Docker, store: Store)
    requires row.deletedAt.None?
    ensures (exists events :: IsRetired(Run(Start(row, d0), store, events))) <==> Clear(d0, row, store, 0)
  {
    CanStillRetireIff(row, d0, store, []);
    assert Run(Start(row, d0), store, []) == Start(row, d0) && !OnItsWay(Start(row, d0), row, store);
  }

  /** Container `u`, not the one the row names, is running on network `n`. */
  predicate Joins(d: Docker, row: Row, u: Name, n: Name) {
    && n in d.networks && u in d.containers && row.containerId != Some(u)
    && d.containers[u].running && n in d.containers[u].networks
  }

  /** A PostgREST container left on the project's network is enough to keep the row `deleting`. */
  lemma RestContainerBlocks(row: Row, d0: Docker, store: Store, events: seq<Event>, rest: Name)
    requires row.deletedAt.None? && Joins(d0, row, rest, row.names.network)
    ensures !IsRetired(Run(Start(row, d0), store, events))
  {
    assert rest in WithoutContainer(d0, row).containers;
    CanRetireIff(row, d0, store);
  }

  /**
   * The lease passes to another instance before the stalled first attempt saves step 1, which is
   * fenced; the first attempt goes on to remove the container, and both die.
   */
  function StrandingRun(): seq<Event> {
    [Claims(0, "a"), Acts(0, 0), Claims(1, "b"), Acts(0, 0), Acts(0, 0), Crashes(0), Crashes(1)]
  }

  /**
   * Whatever the project, from a clear start this one run strands the teardown: a checkpoint is
   * refused by the fence, the container is gone with nothing saved, and no continuation whatever
   * retires the row, because each attempt has to stop a container that is not there.
   */
  lemma FencedSaveStrands(row: Row, d0: Docker, store: Store, id: Name)
    requires row.deletedAt.None? && row.containerId == Some(id) && Clear(d0, row, store, 0)
    ensures var fenced := Run(Start(row, d0), store, StrandingRun()[..3]);
            Live(fenced, 0) && fenced.attempts[0].phase == Saving(1) && fenced.owner == Some("b")
            && Step(fenced, store, StrandingRun()[3]).saved.None?
    ensures var w := Run(Start(row, d0), store, StrandingRun());
            && w.saved.None? && id !in w.docker.containers
            && forall later :: !IsRetired(Run(w, store, later))
  {
    var s, events := Start(row, d0), StrandingRun();
    ScriptOfSeven(s, store, events);
    ScriptOfThree(s, store, events);
    var w3 := Step(Step(Step(s, store, events[0]), store, events[1]), store, events[2]);
    Overtaken(row, d0, store, id);
    FencedOut(w3, row, store, id);
    var w := Run(s, store, events);
    forall later ensures !IsRetired(Run(w, store, later)) {
      NoWayForGood(w, store, later, row);
    }
  }

  /** The first attempt has stopped the container when another instance takes the job. */
  ghost predicate OvertakenAt(w: World, row: Row, id: Name) {
    && w.project == Some(row) && w.saved.None? && w.owner == Some("b") && id in w.docker.containers
    && w.attempts == map[0 := Progress("a", row, 0, Saving(1)), 1 := Progress("b", row, 0, Stopping)]
  }

  lemma Overtaken(row: Row, d0: Docker, store: Store, id: Name)
    requires row.deletedAt.None? && row.containerId == Some(id) && id in d0.containers
    ensures OvertakenAt(Step(Step(Step(Start(row, d0), store, Claims(0, "a")), store, Acts(0, 0)), store, Claims(1, "b")), row, id)
  {
    var w1 := Step(Start(row, d0), store, Claims(0, "a"));
    assert w1.attempts == map[0 := Progress("a", row, 0, Stopping)];
    var w2 := Step(w1, store, Acts(0, 0));
    assert w2.attempts == map[0 := Progress("a", row, 0, Saving(1))];
  }

  lemma FencedOut(w: World, row: Row, store: Store, id: Name)
    requires OvertakenAt(w, row, id) && row.containerId == Some(id) && row.deletedAt.None?
    ensures var v := Step(Step(w, store, Acts(0, 0)), store, Acts(0, 0));
            var u := Step(Step(v, store, Crashes(0)), store, Crashes(1));
            u.saved.None? && id !in u.docker.containers && NoWay(u, row, store)
  {
    var w1 := Step(w, store, Acts(0, 0));
    assert w1.saved.None? && w1.docker == w.docker && w1.attempts[0].phase == RemovingContainer;
    var v := Step(w1, store, Acts(0, 0));
    assert id !in v.docker.containers && v.saved.None? && v.project == Some(row);
    assert v.attempts.Keys == {0, 1} && v.attempts[0].row == row && v.attempts[1].row == row;
    BothCrash(v, row, store, id);
  }

  lemma BothCrash(v: World, row: Row, store: Store, id: Name)
    requires v.attempts.Keys == {0, 1} && v.attempts[0].row == row && v.attempts[1].row == row
    requires v.project == Some(row) && row.deletedAt.None? && row.containerId == Some(id)
    requires id !in v.docker.containers && v.saved.None?
    ensures var u := Step(Step(v, store, Crashes(0)), store, Crashes(1));
            u.saved.None? && id !in u.docker.containers && NoWay(u, row, store)
  {
    var u := Step(Step(v, store, Crashes(0)), store, Crashes(1));
    assert u.attempts.Keys == {0, 1} && u.attempts[0].phase == Over && u.attempts[1].phase == Over;
  }

  // ---------- A store that swallows failures

  predicate PastData(p: Phase) {
    p.RemovingBackups? || p.RemovingNetwork? || p.Retiring? || (p.Saving? && p.step >= 3) || p.Over?
  }

  lemma {:induction false} AloneLeavesData(w: World, store: Store, a: Attempt, now: int, row: Row)
    requires a in w.attempts && w.attempts[a].row == row && PastData(w.attempts[a].phase)
    requires row.names.backupVolume != DataVolumeName(row.ref)
    requires DataVolumeName(row.ref) in w.docker.volumes
    ensures DataVolumeName(row.ref) in Alone(w, store, a, now).docker.volumes
    decreases Remaining(w.attempts[a].phase)
  {
    if !w.attempts[a].phase.Over? { AloneLeavesData(Act(w, store, a, now), store, a, now, row); }
  }

  /** Whatever happens, a row is not retired while its data volume is on disk. */
  ghost predicate NeverClaimsTooMuch(row: Row, d0: Docker, store: Store) {
    forall events :: IsRetired(Run(Start(row, d0), store, events)) ==>
                       DataVolumeName(row.ref) !in Run(Start(row, d0), store, events).docker.volumes
  }

  /** Up to the removal of the data, which then fails and is reported as done. */
  function SwallowedOpening(): seq<Event> {
    [Claims(0, ""), Acts(0, 0), Acts(0, 0), Acts(0, 0), Acts(0, 0), Throws(0, false)]
  }

  lemma OpeningRun(row: Row, d0: Docker)
    requires row.deletedAt.None? && Clear(d0, row, CopyOnWrite, 0)
    ensures var w := Run(Start(row, d0), CopyOnWrite, SwallowedOpening());
            && w.project == Some(row) && w.attempts == map[0 := Progress("", row, 0, RemovingBackups)]
            && w.docker.volumes == d0.volumes && PathClear(w.docker, row, CopyOnWrite, RemovingBackups)
  {
    var s := Start(row, d0);
    var es := SwallowedOpening();
    ScriptOfSeven(s, CopyOnWrite, es + [Claims(0, "")]);
    RunSnoc(s, CopyOnWrite, es, Claims(0, ""));
    var w1 := Step(s, CopyOnWrite, es[0]);
    assert Solo(w1, row, Stopping);
    var w3 := Step(Step(w1, CopyOnWrite, es[1]), CopyOnWrite, es[2]);
    CallThenSave(w1, row, Stopping);
    CallThenSave(w3, row, RemovingContainer);
    DataSwallowed(Step(Step(w3, CopyOnWrite, es[3]), CopyOnWrite, es[4]), row);
  }

  lemma DataSwallowed(w: World, row: Row)
    requires Solo(w, row, RemovingData)
    ensures var v := Step(w, CopyOnWrite, Throws(0, false));
            && v.project == Some(row) && v.attempts == map[0 := Progress("", row, 0, RemovingBackups)]
            && v.docker == w.docker && PathClear(v.docker, row, CopyOnWrite, RemovingBackups)
  {
  }

  /** Only attempt 0 exists; it is at phase `p` and its path is clear. */
  ghost predicate Solo(w: World, row: Row, p: Phase) {
    && w.project == Some(row) && w.attempts == map[0 := Progress("", row, 0, p)]
    && PathClear(w.docker, row, CopyOnWrite, p)
  }

  lemma CallThenSave(w: World, row: Row, p: Phase)
    requires Solo(w, row, p) && (p.Stopping? || p.RemovingContainer?)
    ensures var v := Step(Step(w, CopyOnWrite, Acts(0, 0)), CopyOnWrite, Acts(0, 0));
            Solo(v, row, NextPhase(NextPhase(p))) && v.docker.volumes == w.docker.volumes
  {
    var u := Step(w, CopyOnWrite, Acts(0, 0));
    PathStep(w.docker, row, CopyOnWrite, p);
    PathStep(u.docker, row, CopyOnWrite, NextPhase(p));
    assert u.attempts == map[0 := Progress("", row, 0, NextPhase(p))];
  }

  lemma SwallowedRun(row: Row, d0: Docker) returns (events: seq<Event>)
    requires row.deletedAt.None? && row.names.backupVolume != DataVolumeName(row.ref)
    requires DataVolumeName(row.ref) in d0.volumes && Clear(d0, row, CopyOnWrite, 0)
    ensures var w := Run(Start(row, d0), CopyOnWrite, events);
            IsRetired(w) && DataVolumeName(row.ref) in w.docker.volumes
  {
    var s := Start(row, d0);
    var w := Run(s, CopyOnWrite, SwallowedOpening());
    OpeningRun(row, d0);
    AloneRetiresIff(w, CopyOnWrite, 0, 0);
    AloneLeavesData(w, CopyOnWrite, 0, 0, row);
    events := AloneIsRun(s, w, CopyOnWrite, SwallowedOpening(), 0, 0);
  }

  /** The promise holds exactly of the store that reports its failures, or where nothing can complete. */
  lemma PromiseNeedsAnHonestStore(row: Row, d0: Docker, store: Store)
    requires row.deletedAt.None? && row.names.backupVolume != DataVolumeName(row.ref)
    requires DataVolumeName(row.ref) in d0.volumes
    ensures NeverClaimsTooMuch(row, d0, store) <==> store.DockerVolumes? || !Clear(d0, row, store, 0)
  {
    if store.DockerVolumes? {
      forall events | IsRetired(Run(Start(row, d0), store, events))
        ensures DataVolumeName(row.ref) !in Run(Start(row, d0), store, events).docker.volumes
      {
        RetiredMeansEmptied(row, d0, store, events);
      }
    } else if Clear(d0, row, store, 0) {
      var events := SwallowedRun(row, d0);
    } else {
      CanRetireIff(row, d0, store);
      forall events ensures !IsRetired(Run(Start(row, d0), store, events)) {
      }
    }
  }

  // ---------- The handler's own form

  datatype Report = AlreadyGone | AlreadyDeleted | Deleted | Threw

  class DeleteHandler {
    const store: Store
    const instance: Instance
    var project: Option<Row>
    var docker: Docker
    var saved: Option<nat>
    var owner: Option<Instance>
    ghost var attempts: map<Attempt, Progress>

    constructor (store: Store, instance: Instance, w: World)
      ensures View() == w && this.store == store && this.instance == instance
    {
      this.store, this.instance := store, instance;
      project, docker, saved, owner, attempts := w.project, w.docker, w.saved, w.owner, w.attempts;
    }

    ghost function View(): World
      reads this
    {
      World(project, docker, saved, owner, attempts)
    }

    /** One call to Docker or the data store, recorded as attempt `a`'s phase. */
    method Call(a: Attempt, now: int, row: Row, p: Phase) returns (ok: bool)
      requires a in attempts && attempts[a].phase == p && attempts[a].row == row && !p.Saving? && !p.Retiring?
      modifies this
      ensures View() == Act(old(View()), store, a, now)
      ensures Alone(View(), store, a, now) == Alone(old(View()), store, a, now)
      ensures !ok ==> View() == Alone(View(), store, a, now)
      ensures project == old(project) && ok == Outcome(old(docker), row, store, p).1
      ensures a in attempts && attempts[a] == old(attempts[a]).(phase := if ok then NextPhase(p) else Over)
    {
      if Refuses(docker, row, p) {
        ok := Swallows(store, p);
      } else {
        docker, ok := Effect(docker, row, p), true;
      }
      attempts := attempts[a := attempts[a].(phase := if ok then NextPhase(p) else Over)];
    }

    method Checkpoint(a: Attempt, now: int, step: nat)
      requires a in attempts && attempts[a].phase == Saving(step) && attempts[a].worker == instance
      modifies this
      ensures View() == Act(old(View()), store, a, now)
      ensures Alone(View(), store, a, now) == Alone(old(View()), store, a, now) && project == old(project)
      ensures a in attempts && attempts[a] == old(attempts[a]).(phase := FirstPhase(step))
    {
      if owner == Some(instance) { saved := Some(step); }
      attempts := attempts[a := attempts[a].(phase := FirstPhase(step))];
    }

    method RetireRow(a: Attempt, now: int)
      requires a in attempts && attempts[a].phase == Retiring
      modifies this
      ensures View() == Act(old(View()), store, a, now) && View() == Alone(old(View()), store, a, now)
      ensures old(project).Some? ==> IsRetired(View())
    {
      if project.Some? {
        project := Some(project.value.(deletedAt := Some(now), containerId := None, hostPort := None));
      }
      attempts := attempts[a := attempts[a].(phase := Over)];
    }

    /** One uninterrupted execution of `run`: it deletes exactly when nothing is in its way. */
    method Execute(a: Attempt, now: int) returns (r: Report)
      requires a !in attempts
      modifies this
      ensures old(project).None? ==> r == AlreadyGone
      ensures old(project).Some? && old(project).value.deletedAt.Some? ==> r == AlreadyDeleted
      ensures old(project).Some? && old(project).value.deletedAt.None? ==>
                r == if Clear(old(docker), old(project).value, store, SavedSteps(old(View()))) then Deleted else Threw
      ensures var w := Step(old(View()), store, Claims(a, instance));
              View() == if r.Deleted? || r.Threw? then Alone(w, store, a, now) else w
    {
      owner := Some(instance);
      if project.None? { return AlreadyGone; }
      var row := project.value;
      if row.deletedAt.Some? { return AlreadyDeleted; }
      var step := if saved.Some? then saved.value else 0;
      attempts := attempts[a := Progress(instance, row, step, FirstPhase(step))];
      AloneRetiresIff(View(), store, a, now);
      r := CarryOn(a, now, row, step);
    }

    /** The guarded blocks, entered at the first one whose step is not yet done. */
    method CarryOn(a: Attempt, now: int, row: Row, from: nat) returns (r: Report)
      requires a in attempts && attempts[a].row == row && attempts[a].worker == instance
      requires attempts[a].phase == FirstPhase(from) && project.Some? && project.value.deletedAt.None?
      modifies this
      ensures View() == Alone(old(View()), store, a, now)
      ensures r == if IsRetired(View()) then Deleted else Threw
    {
      hide Alone, Act, Outcome;
      var step := from;
      if step < 1 {
        var stopped := Call(a, now, row, Stopping);
        if !stopped { return Threw; }
        step := 1;
        Checkpoint(a, now, step);
      }
      assert Alone(old(View()), store, a, now) == Alone(View(), store, a, now);
      if step < 2 {
        var removed := Call(a, now, row, RemovingContainer);
        if !removed { return Threw; }
        step := 2;
        Checkpoint(a, now, step);
      }
      assert Alone(old(View()), store, a, now) == Alone(View(), store, a, now);
      if step < 3 {
        var data := Call(a, now, row, RemovingData);
        if !data { return Threw; }
        var backups := Call(a, now, row, RemovingBackups);
        if !backups { return Threw; }
        step := 3;
        Checkpoint(a, now, step);
      }
      assert Alone(old(View()), store, a, now) == Alone(View(), store, a, now);
      if step < 4 {
        var network := Call(a, now, row, RemovingNetwork);
        if !network { return Threw; }
        step := 4;
        Checkpoint(a, now, step);
      }
      assert Alone(old(View()), store, a, now) == Alone(View(), store, a, now);
      RetireRow(a, now);
      return Deleted;
    }
  }
}
