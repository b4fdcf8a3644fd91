/** One turn of a project's teardown at a time, in the fields of the row, the job and Docker. */
module DeleteLaws {
  import opened Bytes
  import opened ProjectDelete

  // ---------------------------------------------------------------------------
  // The order of the calls

  /** The phases of an undisturbed attempt that resumes behind `step` saved steps. */
  function Schedule(step: nat): seq<Phase> {
    (if step < 1 then [Stopping, Saving(1)] else [])
    + (if step < 2 then [RemovingContainer, Saving(2)] else [])
    + (if step < 3 then [RemovingData, RemovingBackups, Saving(3)] else [])
    + (if step < 4 then [RemovingNetwork, Saving(4)] else [])
    + [Retiring, Over]
  }

  function PhaseAt(step: nat, k: nat): Phase {
    if k == 0 then FirstPhase(step) else NextPhase(PhaseAt(step, k - 1))
  }

  lemma ScheduleFrom(step: nat)
    ensures step == 0 ==> Schedule(step) == [Stopping, Saving(1), RemovingContainer, Saving(2), RemovingData,
                                             RemovingBackups, Saving(3), RemovingNetwork, Saving(4), Retiring, Over]
    ensures step == 1 ==> Schedule(step) == [RemovingContainer, Saving(2), RemovingData, RemovingBackups, Saving(3),
                                             RemovingNetwork, Saving(4), Retiring, Over]
    ensures step == 2 ==> Schedule(step) == [RemovingData, RemovingBackups, Saving(3), RemovingNetwork, Saving(4),
                                             Retiring, Over]
    ensures step == 3 ==> Schedule(step) == [RemovingNetwork, Saving(4), Retiring, Over]
    ensures step >= 4 ==> Schedule(step) == [Retiring, Over]
  {
  }

  /** Container, data, network, row: in this order, each saved before the next is begun. */
  lemma {:induction false} CallsInOrder(step: nat, k: nat)
    requires k < |Schedule(step)|
    ensures PhaseAt(step, k) == Schedule(step)[k]
    decreases k
  {
    ScheduleFrom(step);
    if k > 0 { CallsInOrder(step, k - 1); }
  }

  // ---------------------------------------------------------------------------
  // What one turn changes

  /** A claim takes the job over; only a project that is still there gets an attempt, at its saved step. */
  lemma ClaimInFields(w: World, store: Store, a: Attempt, worker: Instance)
    requires a !in w.attempts
    ensures var v := Step(w, store, Claims(a, worker));
            && v.owner == Some(worker) && v.project == w.project && v.docker == w.docker && v.saved == w.saved
            && (if w.project.Some? && w.project.value.deletedAt.None? then
                  var from := if w.saved.Some? then w.saved.value else 0;
                  v.attempts == w.attempts[a := Progress(worker, w.project.value, from, Schedule(from)[0])]
                else v.attempts == w.attempts)
  {
    CallsInOrder(SavedSteps(w), 0);
  }

  /** A checkpoint is written by the job's present owner, and only by it. */
  lemma SavedInFields(w: World, store: Store, e: Event)
    ensures Step(w, store, e).saved ==
            if e.Acts? && e.a in w.attempts && w.attempts[e.a].phase.Saving? && w.owner == Some(w.attempts[e.a].worker)
            then Some(w.attempts[e.a].phase.step) else w.saved
    ensures !e.Claims? ==> Step(w, store, e).owner == w.owner
  {
  }

  /** The row changes in one way only: retired, with its time, without its container and its port. */
  lemma RowInFields(w: World, store: Store, e: Event)
    ensures Step(w, store, e).project ==
            if e.Acts? && e.a in w.attempts && w.attempts[e.a].phase == Retiring && w.project.Some?
            then Some(w.project.value.(deletedAt := Some(e.now), containerId := None, hostPort := None))
            else w.project
  {
  }

  ghost predicate RetiredFrom(w: World, row: Row) {
    && w.project.Some?
    && (w.project == Some(row)
        || w.project == Some(row.(deletedAt := w.project.value.deletedAt, containerId := None, hostPort := None)))
    && (w.project.value != row ==> w.project.value.deletedAt.Some?)
  }

  lemma {:induction false} RunRetiresOnly(w: World, store: Store, events: seq<Event>, row: Row)
    requires RetiredFrom(w, row)
    ensures RetiredFrom(Run(w, store, events), row)
    decreases |events|
  {
    if events != [] {
      RowInFields(w, store, events[0]);
      hide Step;
      RunRetiresOnly(Step(w, store, events[0]), store, events[1..], row);
    }
  }

  /** On every run the row is as it was, or retired: no container, no port, its names kept. */
  lemma RowIsKeptOrRetired(row: Row, d0: Docker, store: Store, events: seq<Event>)
    requires row.deletedAt.None?
    ensures var w := Run(Start(row, d0), store, events);
            && w.project.Some?
            && (w.project.value.deletedAt.None? ==> w.project.value == row)
            && (w.project.value.deletedAt.Some? ==>
                  && w.project.value.containerId.None? && w.project.value.hostPort.None?
                  && w.project.value.ref == row.ref && w.project.value.names == row.names)
  {
    RunRetiresOnly(Start(row, d0), store, events, row);
  }

  /** A stopped container is still there, stopped; nothing else in Docker has moved. */
  lemma StopInFields(w: World, store: Store, a: Attempt, now: int, id: Name)
    requires a in w.attempts && w.attempts[a].phase == Stopping && w.attempts[a].row.containerId == Some(id)
    requires id in w.docker.containers
    ensures var v := Step(w, store, Acts(a, now));
            && v.docker == w.docker.(containers := w.docker.containers[id := w.docker.containers[id].(running := false)])
            && v.attempts == w.attempts[a := w.attempts[a].(phase := Saving(1))]
  {
  }

  /** Removing takes the row's container, whether or not it is there and running. */
  lemma RemoveInFields(w: World, store: Store, a: Attempt, now: int)
    requires a in w.attempts && w.attempts[a].phase == RemovingContainer
    ensures var v := Step(w, store, Acts(a, now));
            var id := w.attempts[a].row.containerId;
            && v.docker == w.docker.(containers := if id.Some? then w.docker.containers - {id.value} else w.docker.containers)
            && v.attempts == w.attempts[a := w.attempts[a].(phase := Saving(2))]
  {
  }

  /** A volume goes unless a container mounts it; with a truthful store a mounted one ends the attempt. */
  lemma VolumeInFields(w: World, store: Store, a: Attempt, now: int)
    requires a in w.attempts && w.attempts[a].phase in {RemovingData, RemovingBackups}
    ensures var x, v := w.attempts[a], Step(w, store, Acts(a, now));
            var data := x.phase == RemovingData;
            var volume := if data then "jp-" + x.row.ref + "-data" else x.row.names.backupVolume;
            var mounted := volume in w.docker.volumes
                           && exists id :: id in w.docker.containers && volume in w.docker.containers[id].mounts;
            && v.docker == (if mounted then w.docker else w.docker.(volumes := w.docker.volumes - {volume}))
            && v.attempts[a].phase ==
               if mounted && !(data && store == CopyOnWrite) then Over
               else if data then RemovingBackups else Saving(3)
  {
  }

  /** A network goes unless a running container is attached to it. */
  lemma NetworkInFields(w: World, store: Store, a: Attempt, now: int)
    requires a in w.attempts && w.attempts[a].phase == RemovingNetwork
    ensures var x, v := w.attempts[a], Step(w, store, Acts(a, now));
            var network := x.row.names.network;
            var attached := network in w.docker.networks
                            && exists id :: id in w.docker.containers && w.docker.containers[id].running
                                            && network in w.docker.containers[id].networks;
            && v.docker == (if attached then w.docker else w.docker.(networks := w.docker.networks - {network}))
            && v.attempts[a].phase == if attached then Over else Saving(4)
  {
  }

  /** A call that throws ends its attempt, with or without its effect, and saves nothing. */
  lemma ThrowInFields(w: World, store: Store, a: Attempt, done: bool)
    requires a in w.attempts
    ensures var v := Step(w, store, Throws(a, done));
            && v.project == w.project && v.saved == w.saved && v.owner == w.owner
            && v.attempts[a].phase ==
               (if store == CopyOnWrite && w.attempts[a].phase == RemovingData then RemovingBackups else Over)
            && v.docker == (if done then Step(w, store, Acts(a, 0)).docker else w.docker)
            && (forall b :: b != a ==> (b in v.attempts <==> b in w.attempts))
            && (forall b :: b != a && b in w.attempts ==> v.attempts[b] == w.attempts[b])
  {
  }

  /** A crash loses the attempt and nothing else. */
  lemma CrashInFields(w: World, store: Store, a: Attempt)
    requires a in w.attempts
    ensures Step(w, store, Crashes(a)) == w.(attempts := w.attempts[a := w.attempts[a].(phase := Over)])
  {
  }
}
