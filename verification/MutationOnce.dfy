/** The executor is not started twice for one job: proof of the write-ahead discipline, and the condition it
    depends on. */
module MutationOnce {
  import opened Common
  import opened Jobs
  import opened LeaseProtocol
  import opened RemediationWorker
  import Gate

  // ---------------------------------------------------------------- what single moves do to the store

  /** The record under `id` is the only one that may differ. */
  ghost predicate OnlyJob(before: Store, after: Store, id: Id) {
    && id in before && id in after
    && after == before[id := after[id]]
  }

  /** What a guarded mark of a running copy does: nothing, or the holder's job runs on in that phase. */
  lemma MarkEffect(w: World, owner: Id, phase: Phase, progress: int)
    requires Inv(w) && owner in w.copies && w.copies[owner].status.Running?
    ensures var id, next := w.copies[owner].id, EditAndSave(w, owner, Mark(phase, progress));
      && Inv(next) && next.clock == w.clock && next.lease == w.lease
      && next.copies.Keys == w.copies.Keys
      && (forall o :: o in w.copies && o != owner ==> next.copies[o] == w.copies[o])
      && next.copies[owner].status.Running? && next.copies[owner].id == id
      && if SaveAccepted(EditedWorld(w, owner, Mark(phase, progress)), owner)
         then Holds(w, id, owner) && OnlyJob(w.store, next.store, id) && Holds(next, id, owner) &&
           next.store[id].currentPhase == Some(phase)
         else next.store == w.store
  {
    var edited := EditedWorld(w, owner, Mark(phase, progress));
    StepKeepsInv(w, EditCopy(owner, Mark(phase, progress)));
    StepKeepsInv(edited, SaveCopy(owner));
    assert CopyOk(w, owner);
    FencedSave(edited, owner);
  }

  /** What a guarded failure does: nothing, or the holder's job leaves running. */
  lemma FailEffect(w: World, owner: Id, message: string, retryable: bool, category: FailureCategory)
    requires Inv(w) && owner in w.copies
    ensures var id, edit := w.copies[owner].id, Fail(message, retryable, category);
      var edited, next := EditedWorld(w, owner, edit), EditAndSave(w, owner, edit);
      && Inv(next) && next.clock == w.clock && next.lease == w.lease
      && next.copies.Keys == w.copies.Keys
      && (forall o :: o in w.copies && o != owner ==> next.copies[o] == w.copies[o])
      && next.copies[owner].id == id
      && if SaveAccepted(edited, owner)
         then Holds(w, id, owner) && OnlyJob(w.store, next.store, id)
              && next.store[id].status == edited.copies[owner].status
              && (next.store[id].status.Failed? || (retryable && next.store[id].status.Queued?))
         else next.store == w.store
  {
    var edit := Fail(message, retryable, category);
    var edited := EditedWorld(w, owner, edit);
    StepKeepsInv(w, EditCopy(owner, edit));
    StepKeepsInv(edited, SaveCopy(owner));
    assert CopyOk(w, owner);
  }

  lemma CompleteEffect(w: World, owner: Id)
    requires Inv(w) && owner in w.copies
    ensures var id, next := w.copies[owner].id, EditAndSave(w, owner, Complete(map[]));
      && Inv(next) && next.clock == w.clock && next.lease == w.lease
      && next.copies.Keys == w.copies.Keys
      && (forall o :: o in w.copies && o != owner ==> next.copies[o] == w.copies[o])
      && next.copies[owner].id == id
      && (next.store == w.store ||
          (Holds(w, id, owner) && OnlyJob(w.store, next.store, id) && next.store[id].status.Completed?))
  {
    var edited := EditedWorld(w, owner, Complete(map[]));
    StepKeepsInv(w, EditCopy(owner, Complete(map[])));
    StepKeepsInv(edited, SaveCopy(owner));
    assert CopyOk(w, owner);
  }

  lemma BeatEffect(w: World, owner: Id)
    requires Inv(w) && owner in w.copies
    ensures var id, next := w.copies[owner].id, Apply(w, Beat(owner));
      && Inv(next) && next.clock == w.clock && next.lease == w.lease && next.copies == w.copies
      && if LeaseProved(w, owner)
         then Holds(w, id, owner) && OnlyJob(w.store, next.store, id) && Holds(next, id, owner)
              && next.store[id].currentPhase == w.store[id].currentPhase && next.store[id].result == w.store[id].result
         else next.store == w.store
  {
    StepKeepsInv(w, Beat(owner));
    assert CopyOk(w, owner);
  }

  // ---------------------------------------------------------------- the invariant

  /** The write-ahead marker of the executor has been accepted. */
  predicate Armed(point: Point) {
    point.AnsibleAssert? || point.ReadyToLaunch? || point.Ran? || point.HealthMark? || point.HealthRun? ||
      point.Conclude?
  }

  predicate PastLaunch(point: Point) {
    point.Ran? || point.HealthMark? || point.HealthRun? || point.Conclude? || point.Finished?
  }

  predicate Launched(s: System, owner: Id) {
    exists k :: 0 <= k < |s.launches| && s.launches[k].owner == owner
  }

  /** A worker that may have changed the host, or still may, and has not been put back in the queue. */
  predicate Live(s: System, owner: Id) {
    owner in s.points && owner !in s.retried && (Armed(s.points[owner]) || Launched(s, owner))
  }

  /** Nobody will start the executor for this job any more: it has ended, or it is stuck in an uncertain
      phase with a holder that is dead or about to stop. */
  ghost predicate Doomed(s: System, id: Id) {
    && id in s.world.store
    && var job := s.world.store[id];
       || Terminal(job.status)
       || (&& job.status.Running? && Gate.Uncertain(job.currentPhase) && !SafeRecoveredPhase(job)
           && job.leaseOwner.Some? && job.leaseOwner.value in s.points && job.leaseOwner.value in s.world.copies
           && (s.points[job.leaseOwner.value].Finished?
               || (s.points[job.leaseOwner.value].StaleCheck? && Stops(s.world.copies[job.leaseOwner.value]))))
  }

  /** A live worker either still holds its job, in a phase that says so, or the job is doomed. */
  ghost predicate Secure(s: System, id: Id, owner: Id) {
    (Holds(s.world, id, owner) && Gate.Uncertain(s.world.store[id].currentPhase)) || Doomed(s, id)
  }

  predicate HarmlessRetry(report: Report) {
    !report.success && !report.changed && !report.nonRetryable && report.snapshot.None?
  }

  ghost predicate OwnerOk(s: System, owner: Id)
    requires owner in s.points && owner in s.world.copies
  {
    var point := s.points[owner];
    && (!point.Finished? ==> s.world.copies[owner].status.Running?)
    && (owner in s.retried ==> point.Finished? && HarmlessRetry(s.retried[owner]))
    && (Launched(s, owner) ==> PastLaunch(point))
    && ((point.HealthMark? || point.HealthRun?) ==> point.report.success)
    && ((point.Ran? || point.Conclude?) && point.report.snapshot.Some? && !point.report.success ==>
          point.report.snapshot.value in {Gate.SnapshotCreated, Gate.RolledBack, Gate.RollbackFailedState})
    && (Live(s, owner) ==> Secure(s, s.world.copies[owner].id, owner))
  }

  ghost predicate Shape(s: System) {
    && Inv(s.world)
    && s.points.Keys == s.world.copies.Keys
    && s.retried.Keys <= s.points.Keys
    && (forall k :: 0 <= k < |s.launches| ==>
          s.launches[k].owner in s.world.copies && s.world.copies[s.launches[k].owner].id == s.launches[k].job)
  }

  ghost predicate Exclusive(s: System)
    requires Shape(s)
  {
    forall a, b :: Live(s, a) && Live(s, b) && a != b ==> s.world.copies[a].id != s.world.copies[b].id
  }

  /** Between two launches for one job lies an orderly retry of a run that changed nothing. */
  ghost predicate LaunchesOk(s: System) {
    forall i, j :: 0 <= i < j < |s.launches| && s.launches[i].job == s.launches[j].job ==>
      s.launches[i].owner != s.launches[j].owner && s.launches[i].owner in s.retried
  }

  ghost predicate Sound(s: System) {
    && Shape(s)
    && (forall owner :: owner in s.points ==> OwnerOk(s, owner))
    && Exclusive(s)
    && LaunchesOk(s)
  }

  /** A doomed job stays doomed. */
  ghost predicate DoomKept(s: System, t: System) {
    forall id :: Doomed(s, id) ==> Doomed(t, id)
  }

  // ---------------------------------------------------------------- framing

  /** A move that touches at most one job and one worker of that job. */
  ghost predicate Local(s: System, t: System, id: Id, owner: Id) {
    && Shape(s) && Inv(t.world)
    && (t.world.store == s.world.store || OnlyJob(s.world.store, t.world.store, id))
    && owner in t.world.copies && t.world.copies[owner].id == id
    && t.world.copies.Keys == s.world.copies.Keys + {owner}
    && (owner in s.world.copies ==> s.world.copies[owner].id == id)
    && (forall o :: o in s.world.copies && o != owner ==> t.world.copies[o] == s.world.copies[o])
    && owner in t.points && t.points == s.points[owner := t.points[owner]]
    && (t.launches == s.launches || t.launches == s.launches + [Launch(id, owner)])
    && (t.retried == s.retried || (owner in t.retried && t.retried == s.retried[owner := t.retried[owner]]))
  }

  /** Who holds a job has a local record of that job. */
  lemma HolderServes(w: World, id: Id)
    requires Inv(w) && id in w.store && w.store[id].status.Running?
    ensures w.store[id].leaseOwner.Some? && w.store[id].leaseOwner.value in w.copies
    ensures w.copies[w.store[id].leaseOwner.value].id == id
  {
    assert JobOk(w, id);
  }

  lemma LaunchedAfter(s: System, t: System, launch: Launch, o: Id)
    requires t.launches == s.launches || t.launches == s.launches + [launch]
    ensures Launched(t, o) <==> Launched(s, o) || (t.launches != s.launches && o == launch.owner)
  {
    if t.launches != s.launches {
      assert t.launches[|s.launches|] == launch;
      if Launched(s, o) {
        var k :| 0 <= k < |s.launches| && s.launches[k].owner == o;
        assert t.launches[k].owner == o;
      }
    }
  }

  lemma LocalShape(s: System, t: System, id: Id, owner: Id)
    requires Local(s, t, id, owner)
    ensures Shape(t)
    ensures forall o :: o != owner ==> (Launched(t, o) <==> Launched(s, o))
    ensures forall o :: o != owner ==> (Live(t, o) <==> Live(s, o))
    ensures Launched(t, owner) <==> Launched(s, owner) || t.launches != s.launches
  {
    hide Inv, OnlyJob;
    forall o ensures Launched(t, o) <==> Launched(s, o) || (t.launches != s.launches && o == owner) {
      LaunchedAfter(s, t, Launch(id, owner), o);
    }
    hide Launched;
  }

  /** Such a move leaves what is known about every other job as it was. */
  lemma OtherJobsKept(s: System, t: System, id: Id, owner: Id, other: Id)
    requires Local(s, t, id, owner) && other != id
    ensures Doomed(s, other) ==> Doomed(t, other)
    ensures forall o :: Secure(s, other, o) ==> Secure(t, other, o)
  {
    hide Inv, Launched, Stops, Gate.Uncertain, SafeRecoveredPhase;
    if other in s.world.store && s.world.store[other].status.Running? {
      HolderServes(s.world, other);
    }
  }

  lemma OtherOwnerKept(s: System, t: System, id: Id, owner: Id, o: Id)
    requires Sound(s) && Local(s, t, id, owner) && o in s.points && o != owner
    requires s.world.copies[o].id == id && Live(s, o) ==> Secure(t, id, o)
    ensures o in t.points && o in t.world.copies && OwnerOk(t, o)
  {
    LocalShape(s, t, id, owner);
    assert OwnerOk(s, o);
    if Live(s, o) && s.world.copies[o].id != id {
      OtherJobsKept(s, t, id, owner, s.world.copies[o].id);
    }
    hide Inv, Launched, Secure, Doomed, OnlyJob, Exclusive, LaunchesOk, Live;
  }

  lemma ExclusiveKept(s: System, t: System, id: Id, owner: Id)
    requires Sound(s) && Local(s, t, id, owner) && Shape(t)
    requires Live(t, owner) && !Live(s, owner) ==>
      forall o :: o in s.points && o != owner && s.world.copies[o].id == id ==> !Live(s, o)
    ensures Exclusive(t)
  {
    LocalShape(s, t, id, owner);
    hide Inv, OwnerOk, OnlyJob, LaunchesOk;
    forall a, b | Live(t, a) && Live(t, b) && a != b ensures t.world.copies[a].id != t.world.copies[b].id {
      if a != owner && b != owner {
        assert Live(s, a) && Live(s, b);
      } else {
        var o := if a == owner then b else a;
        assert Live(s, o) && o in s.points;
      }
    }
  }

  lemma LaunchesKept(s: System, t: System, id: Id, owner: Id)
    requires LaunchesOk(s) && Local(s, t, id, owner)
    requires t.launches != s.launches ==>
      forall k :: 0 <= k < |s.launches| && s.launches[k].job == id ==>
        s.launches[k].owner != owner && s.launches[k].owner in t.retried
    ensures LaunchesOk(t)
  {
    hide Inv, OnlyJob;
    forall i, j | 0 <= i < j < |t.launches| && t.launches[i].job == t.launches[j].job
      ensures t.launches[i].owner != t.launches[j].owner && t.launches[i].owner in t.retried
    {
      assert t.launches[i] == s.launches[i];
    }
  }

  /** To prove a local move sound it is enough to look at the workers of that job. */
  lemma LocalSound(s: System, t: System, id: Id, owner: Id)
    requires Sound(s) && Local(s, t, id, owner)
    requires Shape(t) && OwnerOk(t, owner)
    requires forall o :: o in s.points && o != owner && s.world.copies[o].id == id && Live(s, o) ==> Secure(t, id, o)
    requires Live(t, owner) && !Live(s, owner) ==>
      forall o :: o in s.points && o != owner && s.world.copies[o].id == id ==> !Live(s, o)
    requires t.launches != s.launches ==>
      forall k :: 0 <= k < |s.launches| && s.launches[k].job == id ==>
        s.launches[k].owner != owner && s.launches[k].owner in t.retried
    requires Doomed(s, id) ==> Doomed(t, id)
    ensures Sound(t) && DoomKept(s, t)
  {
    LocalShape(s, t, id, owner);
    forall other ensures Doomed(s, other) ==> Doomed(t, other) {
      if other != id {
        OtherJobsKept(s, t, id, owner, other);
      }
    }
    ExclusiveKept(s, t, id, owner);
    LaunchesKept(s, t, id, owner);
    forall o | o in t.points ensures OwnerOk(t, o) {
      if o != owner {
        OtherOwnerKept(s, t, id, owner, o);
      }
    }
    hide Inv, OwnerOk, OnlyJob, LaunchesOk, Exclusive, Live, Secure, Doomed;
  }

  // ---------------------------------------------------------------- the moves of one worker

  /** The holder of a job that is past the stale check is the only live worker of it, and the job is
      not doomed. */
  lemma HolderIsAlone(s: System, id: Id, owner: Id)
    requires Sound(s) && Holds(s.world, id, owner) && owner in s.points
    requires !s.points[owner].StaleCheck? && !s.points[owner].Finished?
    ensures !Doomed(s, id)
    ensures forall o :: o in s.points && o != owner && s.world.copies[o].id == id ==> !Live(s, o)
  {
    forall o | o in s.points && o != owner && s.world.copies[o].id == id ensures !Live(s, o) {
      assert OwnerOk(s, o);
    }
  }

  /** Moving one worker on without touching the store keeps every job secure, provided a worker that
      leaves the stale check was not meant to stop. */
  lemma PointMoveSecure(s: System, t: System, id: Id, owner: Id)
    requires owner in s.points && owner in t.points && owner in s.world.copies
    requires t.world.store == s.world.store && t.points == s.points[owner := t.points[owner]]
    requires forall o :: o in s.world.copies ==>
      o in t.world.copies && (o != owner ==> t.world.copies[o] == s.world.copies[o])
    requires t.points[owner].Finished?
      || (!s.points[owner].Finished? && (s.points[owner].StaleCheck? ==> !Stops(s.world.copies[owner])))
    ensures forall o :: Secure(s, id, o) ==> Secure(t, id, o)
    ensures Doomed(s, id) ==> Doomed(t, id)
  {
  }

  /** The moved worker itself, when it stays clear of the armed points or finishes. */
  lemma MovedOwnerOk(s: System, t: System, owner: Id)
    requires owner in s.points && owner in s.world.copies && OwnerOk(s, owner)
    requires owner in t.points && owner in t.world.copies
    requires t.launches == s.launches && t.retried == s.retried && t.world.copies[owner].id == s.world.copies[owner].id
    requires t.points[owner].Finished?
      || (t.world.copies[owner].status.Running? && !s.points[owner].Finished? && !Armed(t.points[owner]) &&
          !Armed(s.points[owner]))
    requires Secure(s, s.world.copies[owner].id, owner) ==> Secure(t, s.world.copies[owner].id, owner)
    ensures OwnerOk(t, owner)
    ensures Live(t, owner) ==> Live(s, owner)
  {
  }

  lemma MoveSound(s: System, owner: Id, point: Point)
    requires Sound(s) && owner in s.points
    requires point.Finished? ||
      (!s.points[owner].Finished? && (s.points[owner].StaleCheck? ==> !Stops(s.world.copies[owner])))
    requires point.Finished? || (!Armed(point) && !Armed(s.points[owner]))
    ensures Sound(Moved(s, s.world, owner, point)) && DoomKept(s, Moved(s, s.world, owner, point))
  {
    var t, id := Moved(s, s.world, owner, point), s.world.copies[owner].id;
    assert forall o :: o in s.points ==> OwnerOk(s, o);
    assert OwnerOk(s, owner);
    PointMoveSecure(s, t, id, owner);
    MovedOwnerOk(s, t, owner);
    LocalMove(s, t, id, owner);
    LocalShape(s, t, id, owner);
    LocalSound(s, t, id, owner) by {
      hide Inv, Secure, Doomed, Launched, OnlyJob, Exclusive, LaunchesOk, Local, Sound, Shape;
    }
  }

  lemma LocalMove(s: System, t: System, id: Id, owner: Id)
    requires Shape(s) && owner in s.points && id == s.world.copies[owner].id
    requires owner in t.points && t == s.(points := s.points[owner := t.points[owner]])
    ensures Local(s, t, id, owner)
  {
  }

  /** The generic step: the other workers of the job stay secure, or there is no other live one. */
  lemma WorkerSound(s: System, t: System, id: Id, owner: Id)
    requires Sound(s) && Local(s, t, id, owner) && owner in s.points && t.launches == s.launches
    requires OwnerOk(t, owner)
    requires
      || (forall o :: o in s.points && o != owner && s.world.copies[o].id == id ==> !Live(s, o))
      || ((forall o :: Secure(s, id, o) ==> Secure(t, id, o)) && (Live(t, owner) ==> Live(s, owner)))
    requires Doomed(s, id) ==> Doomed(t, id)
    ensures Sound(t) && DoomKept(s, t)
  {
    assert forall o :: o in s.points ==> OwnerOk(s, o);
    LocalShape(s, t, id, owner);
    LocalSound(s, t, id, owner) by {
      hide Inv, Secure, Doomed, Launched, OnlyJob, Exclusive, LaunchesOk, Local, Sound, Shape;
    }
  }

  lemma MarkLocal(s: System, owner: Id, phase: Phase, progress: int, next: Point)
    requires Shape(s) && owner in s.points && s.world.copies[owner].status.Running?
    ensures Local(s, MarkPhase(s, owner, phase, progress, next), s.world.copies[owner].id, owner)
  {
    MarkEffect(s.world, owner, phase, progress);
    hide Inv, Apply;
  }

  /** A refused guarded write: the store is as it was and the worker is finished. */
  lemma RefusedSound(s: System, t: System, id: Id, owner: Id)
    requires Sound(s) && owner in s.points && id == s.world.copies[owner].id && Local(s, t, id, owner)
    requires t.world.store == s.world.store && t.points[owner].Finished? && t.launches == s.launches
    requires t.retried == s.retried
    ensures Sound(t) && DoomKept(s, t)
  {
    assert forall o :: o in s.points ==> OwnerOk(s, o);
    assert OwnerOk(s, owner);
    PointMoveSecure(s, t, id, owner);
    MovedOwnerOk(s, t, owner);
    WorkerSound(s, t, id, owner) by {
      hide Inv, Secure, Doomed, Launched, OnlyJob, Exclusive, LaunchesOk, Local, Sound, Shape;
    }
  }

  /** An accepted mark of the holder: the owner is secured by the phase it just wrote. */
  lemma MarkedOwnerOk(s: System, t: System, owner: Id, phase: Phase)
    requires owner in s.points && owner in s.world.copies && OwnerOk(s, owner) && !s.points[owner].Finished?
    requires owner in t.points && owner in t.world.copies && t.launches == s.launches && t.retried == s.retried
    requires t.world.copies[owner].status.Running?
    requires var id := t.world.copies[owner].id;
      Holds(t.world, id, owner) && t.world.store[id].currentPhase == Some(phase)
    requires var before, after := s.points[owner], t.points[owner];
      || (!Armed(before) && !Armed(after) && !PastLaunch(after))
      || (!Armed(before) && after.AnsibleAssert? && phase.AnsibleExecution?)
      || (before.HealthMark? && after == HealthRun(before.report) && phase.PostRebootHealthCheck?)
    ensures OwnerOk(t, owner)
  {
  }

  lemma MarkSound(s: System, owner: Id, phase: Phase, progress: int, next: Point)
    requires Sound(s) && owner in s.points && !s.points[owner].Finished? && !s.points[owner].StaleCheck?
    requires var before := s.points[owner];
      || (!Armed(before) && !Armed(next) && !PastLaunch(next))
      || (!Armed(before) && next.AnsibleAssert? && phase.AnsibleExecution?)
      || (before.HealthMark? && next == HealthRun(before.report) && phase.PostRebootHealthCheck?)
    ensures Sound(MarkPhase(s, owner, phase, progress, next)) && DoomKept(s, MarkPhase(s, owner, phase, progress, next))
  {
    var t, id := MarkPhase(s, owner, phase, progress, next), s.world.copies[owner].id;
    assert OwnerOk(s, owner);
    MarkLocal(s, owner, phase, progress, next);
    MarkEffect(s.world, owner, phase, progress);
    if SaveAccepted(EditedWorld(s.world, owner, Mark(phase, progress)), owner) {
      HolderIsAlone(s, id, owner);
      hide Inv, Apply, Secure, Doomed, Launched, OnlyJob, Exclusive, LaunchesOk, Local, Shape, Sound, OwnerOk;
      MarkedOwnerOk(s, t, owner, phase);
      WorkerSound(s, t, id, owner);
    } else {
      hide Inv, Apply, Secure, Doomed, Launched, OnlyJob, Exclusive, LaunchesOk, Local, Shape, Sound, OwnerOk;
      RefusedSound(s, t, id, owner);
    }
  }

  // ---------------------------------------------------------------- proving the lease

  lemma BeatLocal(s: System, owner: Id, next: Point)
    requires Shape(s) && owner in s.points
    ensures Local(s, AssertLease(s, owner, next), s.world.copies[owner].id, owner)
  {
    hide Inv, Apply, HoldsLease;
    BeatEffect(s.world, owner);
  }

  /** An accepted heartbeat changes neither holder nor phase, so everybody stays as secure as before. */
  lemma BeatSecure(s: System, owner: Id, next: Point)
    requires Shape(s) && owner in s.points && LeaseProved(s.world, owner)
    requires next == s.points[owner] || (!s.points[owner].Finished? && !s.points[owner].StaleCheck?)
    ensures forall o :: Secure(s, s.world.copies[owner].id, o) ==>
      Secure(AssertLease(s, owner, next), s.world.copies[owner].id, o)
    ensures Doomed(s, s.world.copies[owner].id) ==> Doomed(AssertLease(s, owner, next), s.world.copies[owner].id)
  {
    BeatEffect(s.world, owner);
    hide Inv, Apply;
  }

  lemma BeatOwnerOk(s: System, t: System, owner: Id)
    requires owner in s.points && owner in s.world.copies && OwnerOk(s, owner) && !s.points[owner].Finished?
    requires owner in t.points && t.world.copies == s.world.copies && t.launches == s.launches && t.retried == s.retried
    requires Secure(s, s.world.copies[owner].id, owner) ==> Secure(t, s.world.copies[owner].id, owner)
    requires var before, after := s.points[owner], t.points[owner];
      || after == before
      || (!Armed(before) && !Armed(after) && !PastLaunch(after))
      || (before.AnsibleAssert? && after.ReadyToLaunch?)
      || (before.Ran? && after == if before.report.success && before.report.snapshot.Some?
          then HealthMark(before.report) else Conclude(before.report))
      || (before.HealthRun? && after.Conclude?
          && (after.report.success || (after.report.snapshot.Some? &&
                                       after.report.snapshot.value in {Gate.RolledBack, Gate.RollbackFailedState})))
    ensures OwnerOk(t, owner)
    ensures Live(t, owner) ==> Live(s, owner)
  {
  }

  lemma BeatSound(s: System, owner: Id, next: Point)
    requires Sound(s) && owner in s.points && !s.points[owner].Finished?
    requires var before := s.points[owner];
      || next == before
      || (!Armed(before) && !Armed(next) && !PastLaunch(next) && !before.StaleCheck?)
      || (before.AnsibleAssert? && next.ReadyToLaunch?)
      || (before.Ran? && next == if before.report.success && before.report.snapshot.Some? then HealthMark(before.report)
          else Conclude(before.report))
      || (before.HealthRun? && next.Conclude?
          && (next.report.success || (next.report.snapshot.Some? &&
                                      next.report.snapshot.value in {Gate.RolledBack, Gate.RollbackFailedState})))
    ensures Sound(AssertLease(s, owner, next)) && DoomKept(s, AssertLease(s, owner, next))
  {
    var t, id := AssertLease(s, owner, next), s.world.copies[owner].id;
    assert OwnerOk(s, owner);
    BeatLocal(s, owner, next);
    BeatEffect(s.world, owner);
    if LeaseProved(s.world, owner) {
      BeatSecure(s, owner, next);
      hide Inv, Apply, Secure, Doomed, Launched, OnlyJob, Exclusive, LaunchesOk, Local, Shape, Sound, OwnerOk;
      BeatOwnerOk(s, t, owner);
      WorkerSound(s, t, id, owner);
    } else {
      hide Inv, Apply, Secure, Doomed, Launched, OnlyJob, Exclusive, LaunchesOk, Local, Shape, Sound, OwnerOk;
      RefusedSound(s, t, id, owner);
    }
  }

  // ---------------------------------------------------------------- ending

  /** The finished worker itself, once its job has ended or it has been recorded as retried. */
  lemma EndedOwnerOk(s: System, t: System, id: Id, owner: Id)
    requires owner in s.points && owner in s.world.copies && OwnerOk(s, owner)
    requires owner in t.points && owner in t.world.copies && t.points[owner].Finished? && t.launches == s.launches
    requires id == t.world.copies[owner].id && id in t.world.store
    requires
      || (t.retried == s.retried && (Terminal(t.world.store[id].status) || !Live(s, owner)))
      || (owner in t.retried && HarmlessRetry(t.retried[owner]))
    ensures OwnerOk(t, owner)
    ensures Live(t, owner) ==> Live(s, owner)
  {
  }

  /** A guarded write ended the job for good: everybody is secure. */
  lemma FinalSound(s: System, t: System, id: Id, owner: Id)
    requires Sound(s) && owner in s.points && id == s.world.copies[owner].id && Local(s, t, id, owner)
    requires t.launches == s.launches
    requires t.points[owner].Finished? && id in t.world.store && t.retried == s.retried
    requires Terminal(t.world.store[id].status)
    ensures Sound(t) && DoomKept(s, t)
  {
    assert OwnerOk(s, owner);
    assert Doomed(t, id);
    EndedOwnerOk(s, t, id, owner);
    hide Inv, Doomed, Launched, OnlyJob, Exclusive, LaunchesOk, Local, Shape, Sound, OwnerOk;
    WorkerSound(s, t, id, owner);
  }

  /** The holder put its job back into the queue: it was the only live worker, and now there is none. */
  lemma ReleasedSound(s: System, t: System, id: Id, owner: Id)
    requires Sound(s) && owner in s.points && id == s.world.copies[owner].id && Local(s, t, id, owner)
    requires t.launches == s.launches
    requires t.points[owner].Finished? && id in t.world.store && owner in t.retried && HarmlessRetry(t.retried[owner])
    requires Holds(s.world, id, owner) && !s.points[owner].StaleCheck? && !s.points[owner].Finished?
    ensures Sound(t) && DoomKept(s, t)
  {
    assert OwnerOk(s, owner);
    HolderIsAlone(s, id, owner);
    EndedOwnerOk(s, t, id, owner);
    hide Inv, Secure, Doomed, Launched, OnlyJob, Exclusive, LaunchesOk, Local, Shape, Sound, OwnerOk;
    WorkerSound(s, t, id, owner);
  }

  lemma FailLocal(s: System, t: System, owner: Id, message: string, retryable: bool, category: FailureCategory)
    requires Shape(s) && owner in s.points
    requires t.world == EditAndSave(s.world, owner, Fail(message, retryable, category))
    requires owner in t.points && t.points == s.points[owner := t.points[owner]] && t.launches == s.launches
    requires t.retried == s.retried || (owner in t.retried && t.retried == s.retried[owner := t.retried[owner]])
    ensures Local(s, t, s.world.copies[owner].id, owner)
  {
    FailEffect(s.world, owner, message, retryable, category);
    hide Inv, Apply, EditAndSave;
  }

  lemma AbandonSound(s: System, owner: Id)
    requires Sound(s) && owner in s.points
    ensures Sound(Abandon(s, owner)) && DoomKept(s, Abandon(s, owner))
  {
    var t, id, category := Abandon(s, owner), s.world.copies[owner].id, OtherCategory(SAFETY_VALIDATION);
    FailLocal(s, t, owner, STALE_UNCERTAIN_MESSAGE, false, category);
    FailEffect(s.world, owner, STALE_UNCERTAIN_MESSAGE, false, category);
    hide Inv, Apply, EditAndSave, Local, Sound, OnlyJob;
    if t.world.store == s.world.store {
      RefusedSound(s, t, id, owner);
    } else {
      FinalSound(s, t, id, owner);
    }
  }

  /** The outcome table lets a run be retried only if it changed nothing and no snapshot was taken. */
  lemma RetriedIsHarmless(report: Report)
    requires !Outcome(report).jobCompleted && Outcome(report).decision.retryable
    requires report.snapshot.Some? && !report.success ==>
      report.snapshot.value in {Gate.SnapshotCreated, Gate.RolledBack, Gate.RollbackFailedState}
    ensures HarmlessRetry(report)
  {
  }

  lemma FinishLocal(s: System, owner: Id)
    requires Shape(s) && owner in s.points
    ensures Local(s, FinishJob(s, owner), s.world.copies[owner].id, owner)
  {
    CompleteEffect(s.world, owner);
    hide Inv, Apply, EditAndSave;
  }

  lemma FinishSound(s: System, owner: Id)
    requires Sound(s) && owner in s.points
    ensures Sound(FinishJob(s, owner)) && DoomKept(s, FinishJob(s, owner))
  {
    var t, id := FinishJob(s, owner), s.world.copies[owner].id;
    FinishLocal(s, owner);
    CompleteEffect(s.world, owner);
    hide Inv, Apply, EditAndSave, Local, Sound, OnlyJob;
    if t.world.store == s.world.store {
      RefusedSound(s, t, id, owner);
    } else {
      FinalSound(s, t, id, owner);
    }
  }

  lemma GiveUpLocal(s: System, owner: Id, report: Report)
    requires Shape(s) && owner in s.points
    ensures Local(s, GiveUp(s, owner, report), s.world.copies[owner].id, owner)
  {
    var edit := FailureEdit(report);
    hide Inv, Apply, EditAndSave, EditedWorld, SaveAccepted, Outcome, Local;
    FailLocal(s, GiveUp(s, owner, report), owner, edit.message, edit.retryable, edit.category);
  }

  /** The three ways a failed run can end: refused, failed for good, or put back into the queue. */
  ghost predicate GiveUpCases(s: System, t: System, id: Id, owner: Id, report: Report) {
    && t.launches == s.launches && owner in t.points && t.points[owner].Finished? && id in t.world.store
    && (|| (t.world.store == s.world.store && t.retried == s.retried)
        || (t.retried == s.retried && t.world.store[id].status.Failed?)
        || (Holds(s.world, id, owner) && t.retried == s.retried[owner := report]
            && !Outcome(report).jobCompleted && Outcome(report).decision.retryable))
  }

  lemma GiveUpEffect(s: System, owner: Id, report: Report)
    requires Shape(s) && owner in s.points && owner in s.world.copies && !Outcome(report).jobCompleted
    ensures GiveUpCases(s, GiveUp(s, owner, report), s.world.copies[owner].id, owner, report)
  {
    var edit := FailureEdit(report);
    FailEffect(s.world, owner, edit.message, edit.retryable, edit.category);
    assert CopyOk(s.world, owner);
    hide Inv, Apply, EditAndSave, EditedWorld, CopyOk, SaveAccepted;
  }

  lemma GiveUpSound(s: System, owner: Id, report: Report)
    requires Sound(s) && owner in s.points && s.points[owner] == Conclude(report) && !Outcome(report).jobCompleted
    ensures Sound(GiveUp(s, owner, report)) && DoomKept(s, GiveUp(s, owner, report))
  {
    var t, id := GiveUp(s, owner, report), s.world.copies[owner].id;
    assert OwnerOk(s, owner);
    GiveUpLocal(s, owner, report);
    GiveUpEffect(s, owner, report);
    if Outcome(report).decision.retryable {
      RetriedIsHarmless(report);
    }
    hide Inv, GiveUp, Local, Sound, OwnerOk, HarmlessRetry, Outcome, Shape, Holds, DoomKept;
    if t.world.store == s.world.store && t.retried == s.retried {
      RefusedSound(s, t, id, owner);
    } else if t.retried == s.retried && t.world.store[id].status.Failed? {
      FinalSound(s, t, id, owner);
    } else {
      ReleasedSound(s, t, id, owner);
    }
  }

  // ---------------------------------------------------------------- launching

  function LaunchedBy(s: System, owner: Id, seen: Report): System
    requires owner in s.world.copies
  {
    Moved(s, s.world, owner, Ran(seen)).(launches := s.launches + [Launch(s.world.copies[owner].id, owner)])
  }

  lemma LaunchLocal(s: System, owner: Id, seen: Report)
    requires Shape(s) && owner in s.points
    ensures Local(s, LaunchedBy(s, owner, seen), s.world.copies[owner].id, owner)
  {
    hide Inv;
  }

  lemma LauncherOk(s: System, t: System, owner: Id, seen: Report)
    requires owner in s.points && owner in s.world.copies && OwnerOk(s, owner) && s.points[owner].ReadyToLaunch?
    requires t == LaunchedBy(s, owner, seen) && seen.snapshot in {None, Some(Gate.SnapshotCreated)}
    requires Secure(s, s.world.copies[owner].id, owner) ==> Secure(t, s.world.copies[owner].id, owner)
    ensures OwnerOk(t, owner) && Live(s, owner)
  {
  }

  /** When a worker launches, everybody who launched for the job before it has been retried. */
  lemma EarlierLaunchesRetried(s: System, owner: Id)
    requires Sound(s) && owner in s.points && s.points[owner].ReadyToLaunch?
    ensures forall k :: 0 <= k < |s.launches| && s.launches[k].job == s.world.copies[owner].id ==>
      s.launches[k].owner != owner && s.launches[k].owner in s.retried
  {
    assert OwnerOk(s, owner) && Live(s, owner);
    forall k | 0 <= k < |s.launches| && s.launches[k].job == s.world.copies[owner].id
      ensures s.launches[k].owner != owner && s.launches[k].owner in s.retried
    {
      var other := s.launches[k].owner;
      assert Launched(s, other);
      assert Live(s, other) || other in s.retried;
    }
  }

  lemma LaunchSound(s: System, owner: Id, seen: Report)
    requires Sound(s) && owner in s.points && s.points[owner].ReadyToLaunch?
    requires seen.snapshot in {None, Some(Gate.SnapshotCreated)}
    ensures Sound(LaunchedBy(s, owner, seen)) && DoomKept(s, LaunchedBy(s, owner, seen))
  {
    var t, id := LaunchedBy(s, owner, seen), s.world.copies[owner].id;
    assert forall o :: o in s.points ==> OwnerOk(s, o);
    EarlierLaunchesRetried(s, owner);
    LaunchLocal(s, owner, seen);
    LocalShape(s, t, id, owner);
    PointMoveSecure(s, t, id, owner);
    hide Inv, Secure, Doomed, Launched, OnlyJob, Exclusive, LaunchesOk, Local, Shape, Sound;
    LauncherOk(s, t, owner, seen);
    LocalSound(s, t, id, owner);
  }

  lemma AdvanceSound(s: System, owner: Id, ok: bool, report: Report)
    requires Sound(s) && owner in s.points && owner in s.world.copies
    ensures Sound(Advanced(s, owner, ok, report)) && DoomKept(s, Advanced(s, owner, ok, report))
  {
    hide Sound, Inv, Apply, Moved, MarkPhase, AssertLease, Abandon, FinishJob, GiveUp, Outcome, Stops;
    match s.points[owner]
    case StaleCheck => if Stops(s.world.copies[owner]) { AbandonSound(s, owner); }
      else { MoveSound(s, owner, Admission); }
    case Admission => if ok { MoveSound(s, owner, DriftMark); } else { AbandonSound(s, owner); }
    case DriftMark => MarkSound(s, owner, StateDriftCheck, 10, Collecting);
    case Collecting => if ok { BeatSound(s, owner, SnapshotGate); } else { AbandonSound(s, owner); }
    case SnapshotGate => MoveSound(s, owner, if ok then SnapshotMark else FinalGate(false));
    case SnapshotMark => MarkSound(s, owner, SnapshotCreate, 25, SnapshotAssert);
    case SnapshotAssert => BeatSound(s, owner, Snapshotting);
    case Snapshotting => if ok { BeatSound(s, owner, FinalGate(true)); } else { AbandonSound(s, owner); }
    case FinalGate(guarded) => if ok { MoveSound(s, owner, AnsibleMark(guarded)); } else { AbandonSound(s, owner); }
    case AnsibleMark(guarded) => MarkSound(s, owner, AnsibleExecution, 30, AnsibleAssert(guarded));
    case AnsibleAssert(guarded) => BeatSound(s, owner, ReadyToLaunch(guarded));
    case ReadyToLaunch(guarded) =>
      LaunchSound(s, owner, report.(snapshot := if guarded then Some(Gate.SnapshotCreated) else None));
    case Ran(seen) =>
      BeatSound(s, owner, if seen.success && seen.snapshot.Some? then HealthMark(seen) else Conclude(seen));
    case HealthMark(seen) => MarkSound(s, owner, PostRebootHealthCheck, 80, HealthRun(seen));
    case HealthRun(seen) =>
      HealthFollows(s, owner);
      BeatSound(s, owner, Conclude(
        if ok then seen.(snapshot := Some(Gate.DeleteScheduled))
        else seen.(success := false,
                   snapshot := Some(if report.success then Gate.RolledBack else Gate.RollbackFailedState))));
    case Conclude(seen) => if Outcome(seen).jobCompleted { FinishSound(s, owner); }
      else { GiveUpSound(s, owner, seen); }
    case Finished =>
  }

  lemma HealthFollows(s: System, owner: Id)
    requires Sound(s) && owner in s.points && s.points[owner].HealthRun?
    ensures s.points[owner].report.success
  {
    assert OwnerOk(s, owner);
  }

  // ---------------------------------------------------------------- steps of the store alone

  lemma DoomedIsSecure(s: System, id: Id, owner: Id)
    requires Doomed(s, id)
    ensures Secure(s, id, owner)
  {
  }

  /** A step that only touches the store is sound if it keeps live workers secure. */
  lemma StoreSound(s: System, world: World)
    requires Sound(s) && Inv(world) && world.copies == s.world.copies
    requires forall o :: Live(s, o) ==> Secure(s.(world := world), s.world.copies[o].id, o)
    requires forall id :: Doomed(s, id) ==> Doomed(s.(world := world), id)
    ensures Sound(s.(world := world)) && DoomKept(s, s.(world := world))
  {
    var t := s.(world := world);
    assert forall o :: Launched(t, o) <==> Launched(s, o);
    assert forall o :: Live(t, o) <==> Live(s, o);
    hide Inv, Secure, Launched, Live;
    forall o | o in t.points ensures OwnerOk(t, o) {
      assert OwnerOk(s, o);
    }
  }

  /** A running job in an uncertain phase leaves it through the sweep only as a failed job. */
  lemma SweepFailsUncertain(store: Store, id: Id, now: Time)
    requires id in store && Stale(store[id], now) && Gate.Uncertain(store[id].currentPhase)
    ensures RecoverStore(store, BlockedIds(store, now), now)[id].status.Failed?
  {
    if store[id].attempts < store[id].maxAttempts {
      assert Swept(store[id], now).result.recoveredFromPhase == store[id].currentPhase;
      assert id in BlockedIds(store, now);
    }
  }

  /** What a job that is secured by its phase can become through a step of the store. */
  lemma SecureThroughStore(s: System, world: World, id: Id, owner: Id)
    requires Secure(s, id, owner) && id in world.store && world.copies == s.world.copies
    requires Terminal(s.world.store[id].status) ==> world.store[id] == s.world.store[id]
    requires world.store[id] == s.world.store[id] || Terminal(world.store[id].status)
    ensures Secure(s.(world := world), id, owner)
    ensures Doomed(s, id) ==> Doomed(s.(world := world), id)
  {
  }

  lemma RecoverSecure(s: System, id: Id, owner: Id)
    requires Inv(s.world) && Secure(s, id, owner)
    ensures Secure(Next(s, RecoverExpired), id, owner)
    ensures Doomed(s, id) ==> Doomed(Next(s, RecoverExpired), id)
  {
    var world := Apply(s.world, Sweep(BlockedIds(s.world.store, s.world.clock)));
    if Stale(s.world.store[id], s.world.clock) {
      SweepFailsUncertain(s.world.store, id, s.world.clock);
    }
    hide Inv, RecoveredJob, BlockedIds;
    SecureThroughStore(s, world, id, owner);
  }

  /** The common end of the two steps of the store: all that is left is to collect the pieces. */
  lemma StoreStepSound(s: System, world: World)
    requires Sound(s) && Inv(world) && world.copies == s.world.copies
    requires forall id, o :: Secure(s, id, o) ==> Secure(s.(world := world), id, o)
    requires forall id :: Doomed(s, id) ==> Doomed(s.(world := world), id)
    ensures Sound(s.(world := world)) && DoomKept(s, s.(world := world))
  {
    forall o | Live(s, o) ensures Secure(s.(world := world), s.world.copies[o].id, o) {
      assert OwnerOk(s, o);
    }
    hide Inv, Secure, Doomed, Live, Sound;
    StoreSound(s, world);
  }

  lemma RecoverSound(s: System)
    requires Sound(s)
    ensures Sound(Next(s, RecoverExpired)) && DoomKept(s, Next(s, RecoverExpired))
  {
    var step := Sweep(BlockedIds(s.world.store, s.world.clock));
    var world := Apply(s.world, step);
    StepKeepsInv(s.world, step);
    assert world.copies == s.world.copies;
    assert Next(s, RecoverExpired) == s.(world := world);
    assert Inv(s.world);
    hide Inv, Apply, Sound, Secure, Doomed, Next, DoomKept;
    forall id, o | Secure(s, id, o) ensures Secure(s.(world := world), id, o) {
      RecoverSecure(s, id, o);
    }
    forall id | Doomed(s, id) ensures Doomed(s.(world := world), id) {
      DoomedIsSecure(s, id, "");
      RecoverSecure(s, id, "");
    }
    StoreStepSound(s, world);
  }

  lemma EnvironmentSecure(s: System, step: Step, id: Id, owner: Id)
    requires Inv(s.world) && EnvironmentStep(step) && Secure(s, id, owner)
    ensures Secure(Next(s, Environment(step)), id, owner)
    ensures Doomed(s, id) ==> Doomed(Next(s, Environment(step)), id)
  {
    Keyed(s.world);
    JobAfter(s.world, step, id);
    assert Apply(s.world, step).copies == s.world.copies;
    assert s.world.store[id].status.Running? || Terminal(s.world.store[id].status);
    hide Inv, Apply, Secure, Doomed;
    assert Apply(s.world, step).store[id] == s.world.store[id];
    SecureThroughStore(s, Apply(s.world, step), id, owner);
  }

  lemma EnvironmentSound(s: System, step: Step)
    requires Sound(s) && EnvironmentStep(step)
    ensures Sound(Next(s, Environment(step))) && DoomKept(s, Next(s, Environment(step)))
  {
    var world := Apply(s.world, step);
    StepKeepsInv(s.world, step);
    assert world.copies == s.world.copies;
    assert Next(s, Environment(step)) == s.(world := world);
    assert Inv(s.world);
    hide Inv, Apply, Sound, Secure, Doomed, Next, DoomKept, EnvironmentStep;
    forall id, o | Secure(s, id, o) ensures Secure(s.(world := world), id, o) {
      EnvironmentSecure(s, step, id, o);
    }
    forall id | Doomed(s, id) ensures Doomed(s.(world := world), id) {
      DoomedIsSecure(s, id, "");
      EnvironmentSecure(s, step, id, "");
    }
    StoreStepSound(s, world);
  }

  // ---------------------------------------------------------------- claiming

  /** A granted claim: the job runs on under the new owner, whose copy equals it. */
  lemma ClaimEffect(w: World, id: Id, owner: Id)
    requires Inv(w) && owner !in w.copies
    ensures var next := Apply(w, ClaimBy(id, owner));
      && Inv(next)
      && if owner in next.copies
         then id in w.store && Claimable(w.store[id], w.clock)
              && next.copies == w.copies[owner := Claimed(w.store[id], owner, w.clock, w.clock + w.lease)]
              && next.store == w.store[id := next.copies[owner]] && next.copies[owner].id == id
         else next.copies == w.copies
              && (next.store == w.store
                  || (id in w.store && Stale(w.store[id], w.clock) &&
                      next.store == w.store[id := Terminalized(w.store[id], w.clock)]))
  {
    StepKeepsInv(w, ClaimBy(id, owner));
    if id in w.store {
      assert JobOk(w, id);
    }
  }

  /** The claimer of a job that others may have touched takes it over already marked to stop. */
  lemma ClaimDooms(s: System, t: System, id: Id, owner: Id)
    requires id in s.world.store && Claimable(s.world.store[id], s.world.clock)
    requires var job := Claimed(s.world.store[id], owner, s.world.clock, s.world.clock + s.world.lease);
      owner in t.world.copies && t.world.copies[owner] == job && id in t.world.store && t.world.store[id] == job
    requires owner in t.points && t.points[owner].StaleCheck?
    requires !MasksUncertainPhase(s.world.store[id], s.world.clock)
    requires s.world.store[id].status.Running? && Gate.Uncertain(s.world.store[id].currentPhase)
    ensures Doomed(t, id)
  {
    ReclaimStopsExactlyWhenUnmasked(s.world.store[id], owner, s.world.clock, s.world.clock + s.world.lease);
  }

  lemma GrantedLocal(s: System, id: Id, owner: Id)
    requires Shape(s) && owner !in s.world.copies && owner in Apply(s.world, ClaimBy(id, owner)).copies
    ensures Local(s, Next(s, Begin(id, owner)), id, owner)
  {
    hide Inv, Apply, Claimed;
    ClaimEffect(s.world, id, owner);
  }

  lemma NewOwnerOk(s: System, t: System, owner: Id)
    requires Shape(s) && owner !in s.points && t.launches == s.launches && t.retried == s.retried
    requires owner in t.points && t.points[owner].StaleCheck? && owner in t.world.copies
    requires t.world.copies[owner].status.Running?
    ensures OwnerOk(t, owner) && !Live(t, owner)
  {
    hide Inv;
  }

  lemma GrantedSecure(s: System, id: Id, owner: Id, o: Id)
    requires Inv(s.world) && owner !in s.world.copies && Unmasked(s, Begin(id, owner)) && Secure(s, id, o)
    requires owner in Apply(s.world, ClaimBy(id, owner)).copies
    ensures Secure(Next(s, Begin(id, owner)), id, o)
    ensures Doomed(s, id) ==> Doomed(Next(s, Begin(id, owner)), id)
  {
    ClaimEffect(s.world, id, owner);
    hide Inv, Apply;
    assert Unmasked(s, Begin(id, owner)) && id in s.world.store;
    ClaimDooms(s, Next(s, Begin(id, owner)), id, owner);
  }

  lemma GrantedSound(s: System, id: Id, owner: Id)
    requires Sound(s) && owner !in s.world.copies && Unmasked(s, Begin(id, owner))
    requires owner in Apply(s.world, ClaimBy(id, owner)).copies
    ensures Sound(Next(s, Begin(id, owner))) && DoomKept(s, Next(s, Begin(id, owner)))
  {
    var t := Next(s, Begin(id, owner));
    GrantedLocal(s, id, owner);
    LocalShape(s, t, id, owner);
    ClaimEffect(s.world, id, owner);
    hide Inv, Apply, Secure, Doomed, Launched, OnlyJob, Exclusive, LaunchesOk, Local, Claimable;
    NewOwnerOk(s, t, owner);
    forall o | o in s.points && o != owner && s.world.copies[o].id == id && Live(s, o) ensures Secure(t, id, o) {
      assert OwnerOk(s, o);
      GrantedSecure(s, id, owner, o);
    }
    assert Doomed(s, id) ==> Doomed(t, id) by {
      if Doomed(s, id) {
        DoomedIsSecure(s, id, "");
        GrantedSecure(s, id, owner, "");
      }
    }
    hide Sound, OwnerOk, Live, Unmasked;
    LocalSound(s, t, id, owner);
  }

  lemma RefusedClaimSecure(s: System, id: Id, owner: Id, other: Id, o: Id)
    requires Inv(s.world) && owner !in s.world.copies && Secure(s, other, o)
    requires owner !in Apply(s.world, ClaimBy(id, owner)).copies
    ensures Secure(Next(s, Begin(id, owner)), other, o)
    ensures Doomed(s, other) ==> Doomed(Next(s, Begin(id, owner)), other)
  {
    ClaimEffect(s.world, id, owner);
    hide Inv, Apply;
    SecureThroughStore(s, Apply(s.world, ClaimBy(id, owner)), other, o);
  }

  lemma RefusedClaimSound(s: System, id: Id, owner: Id)
    requires Sound(s) && owner !in s.world.copies
    requires owner !in Apply(s.world, ClaimBy(id, owner)).copies
    ensures Sound(Next(s, Begin(id, owner))) && DoomKept(s, Next(s, Begin(id, owner)))
  {
    var world := Apply(s.world, ClaimBy(id, owner));
    ClaimEffect(s.world, id, owner);
    assert Next(s, Begin(id, owner)) == s.(world := world);
    assert Inv(s.world);
    hide Inv, Apply, Sound, Secure, Doomed, Next, DoomKept, Claimed, Terminalized, Claimable;
    forall other, o | Secure(s, other, o) ensures Secure(s.(world := world), other, o) {
      RefusedClaimSecure(s, id, owner, other, o);
    }
    forall other | Doomed(s, other) ensures Doomed(s.(world := world), other) {
      DoomedIsSecure(s, other, "");
      RefusedClaimSecure(s, id, owner, other, "");
    }
    StoreStepSound(s, world);
  }

  lemma NextSound(s: System, event: Event)
    requires Sound(s) && Unmasked(s, event)
    ensures Sound(Next(s, event)) && DoomKept(s, Next(s, event))
  {
    match event
    case Begin(id, owner) =>
      if owner !in s.world.copies {
        if owner in Apply(s.world, ClaimBy(id, owner)).copies { GrantedSound(s, id, owner); }
          else { RefusedClaimSound(s, id, owner); }
      }
    case Advance(owner, ok, report) =>
      if owner in s.world.copies && owner in s.points { AdvanceSound(s, owner, ok, report); }
    case Heartbeat(owner) =>
      if owner in s.world.copies && owner in s.points && !s.points[owner].Finished? {
        BeatSound(s, owner, s.points[owner]);
      }
    case Die(owner) =>
      if owner in s.points { MoveSound(s, owner, Finished); }
    case RecoverExpired => RecoverSound(s);
    case Environment(step) => if EnvironmentStep(step) { EnvironmentSound(s, step); }
  }

  // ---------------------------------------------------------------- who can still launch

  /** The points of one worker under its own steps: arming takes an accepted mark. */
  lemma ArmingNeedsMark(s: System, owner: Id, ok: bool, report: Report)
    requires owner in s.world.copies && owner in s.points
    ensures Advanced(s, owner, ok, report).points.Keys == s.points.Keys
    ensures forall o :: o in s.points && o != owner ==> Advanced(s, owner, ok, report).points[o] == s.points[o]
    ensures Armed(Advanced(s, owner, ok, report).points[owner]) && !Armed(s.points[owner]) ==>
      s.points[owner].AnsibleMark? && SaveAccepted(EditedWorld(s.world, owner, Mark(AnsibleExecution, 30)), owner)
  {
    hide Apply, EditAndSave, EditedWorld, SaveAccepted, LeaseProved, Stops, Outcome;
    match s.points[owner]
    case StaleCheck =>
    case DriftMark =>
    case AnsibleMark(guarded) =>
    case Conclude(seen) =>
    case _ =>
  }

  /** A worker becomes armed only by an accepted mark, so only while it holds its job past the stale check. */
  lemma NewlyArmedHolds(s: System, event: Event, owner: Id)
    requires owner in Next(s, event).points && Armed(Next(s, event).points[owner])
    ensures owner in s.points
    ensures !Armed(s.points[owner]) ==>
      && s.points[owner].AnsibleMark? && owner in s.world.copies
      && SaveAccepted(EditedWorld(s.world, owner, Mark(AnsibleExecution, 30)), owner)
  {
    if event.Advance? && event.owner in s.world.copies && event.owner in s.points {
      ArmingNeedsMark(s, event.owner, event.ok, event.report);
    }
    hide Apply, EditedWorld, SaveAccepted, LeaseProved, Advanced;
  }

  /** Launches are only ever appended, one at a time, by an armed worker. */
  lemma LaunchesAppend(s: System, event: Event)
    requires Shape(s)
    ensures var t := Next(s, event);
      t.launches == s.launches
      || (event.Advance? && event.owner in s.points && Armed(s.points[event.owner])
          && t.launches == s.launches + [Launch(s.world.copies[event.owner].id, event.owner)])
  {
    hide Inv, Apply, EditAndSave, EditedWorld, SaveAccepted, LeaseProved, Stops, Outcome;
  }

  /** Nobody becomes armed for a doomed job. */
  lemma DoomedArmsNobody(s: System, event: Event, id: Id, owner: Id)
    requires Sound(s) && Doomed(s, id)
    requires owner in Next(s, event).points && Armed(Next(s, event).points[owner])
    requires owner in s.world.copies && s.world.copies[owner].id == id
    ensures owner in s.points && Armed(s.points[owner])
  {
    NewlyArmedHolds(s, event, owner);
    if !Armed(s.points[owner]) {
      assert OwnerOk(s, owner);
      MarkEffect(s.world, owner, AnsibleExecution, 30);
      HolderIsAlone(s, id, owner);
    }
  }

  /** Local records stay, with their job. */
  predicate RecordKept(before: World, after: World, owner: Id) {
    owner in before.copies ==> owner in after.copies && after.copies[owner].id == before.copies[owner].id
  }

  lemma SavedRecordKept(w: World, worker: Id, edit: Edit, owner: Id)
    ensures RecordKept(w, EditAndSave(w, worker, edit), owner)
  {
    if owner in w.copies {
      CopiesPersist(w, EditCopy(worker, edit), owner);
      CopiesPersist(EditedWorld(w, worker, edit), SaveCopy(worker), owner);
    }
  }

  lemma AdvancedRecordKept(s: System, worker: Id, ok: bool, report: Report, owner: Id)
    requires worker in s.world.copies && worker in s.points
    ensures RecordKept(s.world, Advanced(s, worker, ok, report).world, owner)
  {
    hide Apply, EditAndSave, EditedWorld, SaveAccepted, LeaseProved, Stops, Outcome, FailureEdit;
    if owner in s.world.copies {
      CopiesPersist(s.world, Beat(worker), owner);
    }
    assert RecordKept(s.world, s.world, owner) && RecordKept(s.world, Apply(s.world, Beat(worker)), owner);
    hide RecordKept;
    SavedRecordKept(s.world, worker, Fail(STALE_UNCERTAIN_MESSAGE, false, OtherCategory(SAFETY_VALIDATION)), owner);
    match s.points[worker]
    case DriftMark => SavedRecordKept(s.world, worker, Mark(StateDriftCheck, 10), owner);
    case SnapshotMark => SavedRecordKept(s.world, worker, Mark(SnapshotCreate, 25), owner);
    case AnsibleMark(guarded) => SavedRecordKept(s.world, worker, Mark(AnsibleExecution, 30), owner);
    case HealthMark(seen) => SavedRecordKept(s.world, worker, Mark(PostRebootHealthCheck, 80), owner);
    case Conclude(seen) =>
      SavedRecordKept(s.world, worker, Complete(map[]), owner);
      if !Outcome(seen).jobCompleted {
        SavedRecordKept(s.world, worker, FailureEdit(seen), owner);
      }
    case _ =>
  }

  lemma RecordsStay(s: System, event: Event, owner: Id)
    ensures RecordKept(s.world, Next(s, event).world, owner)
  {
    if event.Advance? && event.owner in s.world.copies && event.owner in s.points {
      AdvancedRecordKept(s, event.owner, event.ok, event.report, owner);
      hide Advanced;
    } else if owner in s.world.copies {
      match event
      case Begin(id, worker) => CopiesPersist(s.world, ClaimBy(id, worker), owner);
      case Heartbeat(worker) => CopiesPersist(s.world, Beat(worker), owner);
      case RecoverExpired => CopiesPersist(s.world, Sweep(BlockedIds(s.world.store, s.world.clock)), owner);
      case Environment(step) => CopiesPersist(s.world, step, owner);
      case _ =>
      hide Apply;
    }
  }

  lemma {:induction false} PlaySound(s: System, events: seq<Event>)
    requires Sound(s) && AllUnmasked(s, events)
    ensures Sound(Play(s, events))
    decreases |events|
  {
    hide Sound, Next, Unmasked;
    if events != [] {
      NextSound(s, events[0]);
      PlaySound(Next(s, events[0]), events[1..]);
    }
  }

  // ---------------------------------------------------------------- the theorems

  /** The host is not changed twice. In every run in which no claim takes over a job with a masked
      uncertain phase: when the executor has been started twice for one job, the two workers differ,
      and the earlier run had reported that it changed nothing, took no snapshot, and was put back into
      the queue by its own worker while it held the lease. Crashes, expired leases, direct re-claims
      and sweeps never lead to a second start. */
  lemma ExecutorNotRepeated(lease: nat, clock: Time, events: seq<Event>, i: nat, j: nat)
    requires lease >= 1 && AllUnmasked(Start(lease, clock), events)
    requires var end := Play(Start(lease, clock), events);
      i < j < |end.launches| && end.launches[i].job == end.launches[j].job
    ensures var end := Play(Start(lease, clock), events);
      && end.launches[i].owner != end.launches[j].owner
      && end.launches[i].owner in end.retried && HarmlessRetry(end.retried[end.launches[i].owner])
  {
    StartSound(lease, clock);
    PlaySound(Start(lease, clock), events);
    var end := Play(Start(lease, clock), events);
    assert OwnerOk(end, end.launches[i].owner);
  }

  lemma StartSound(lease: nat, clock: Time)
    requires lease >= 1
    ensures Sound(Start(lease, clock))
  {
    InitialInv(lease, clock);
  }

  lemma SweepLossDooms(s: System, id: Id)
    requires Inv(s.world) && id in s.world.store && s.world.store[id].status.Running?
    requires Gate.Uncertain(s.world.store[id].currentPhase)
    requires Next(s, RecoverExpired).world.store[id].leaseOwner != s.world.store[id].leaseOwner
    ensures Doomed(Next(s, RecoverExpired), id)
  {
    if Stale(s.world.store[id], s.world.clock) {
      SweepFailsUncertain(s.world.store, id, s.world.clock);
    }
    hide Inv, BlockedIds, RecoveredJob;
  }

  lemma ClaimLossDooms(s: System, id: Id, owner: Id)
    requires Inv(s.world) && Unmasked(s, Begin(id, owner)) && owner !in s.world.copies
    requires id in s.world.store && s.world.store[id].status.Running? && Gate.Uncertain(s.world.store[id].currentPhase)
    requires id in Next(s, Begin(id, owner)).world.store
    requires Next(s, Begin(id, owner)).world.store[id].leaseOwner != s.world.store[id].leaseOwner
    ensures Doomed(Next(s, Begin(id, owner)), id)
  {
    ClaimEffect(s.world, id, owner);
    hide Inv, Apply;
    if owner in Next(s, Begin(id, owner)).world.copies {
      assert Claimable(s.world.store[id], s.world.clock);
      ClaimDooms(s, Next(s, Begin(id, owner)), id, owner);
    }
  }

  /** Taking a job over from a worker in an uncertain phase, by a sweep or by a direct re-claim that
      nothing masks, dooms it. */
  lemma LossDooms(s: System, event: Event, id: Id)
    requires Sound(s) && Unmasked(s, event) && (event.Begin? || event.RecoverExpired?)
    requires id in s.world.store && s.world.store[id].status.Running? && Gate.Uncertain(s.world.store[id].currentPhase)
    requires id in Next(s, event).world.store
    requires Next(s, event).world.store[id].leaseOwner != s.world.store[id].leaseOwner
    ensures Doomed(Next(s, event), id)
  {
    if event.RecoverExpired? {
      SweepLossDooms(s, id);
    } else if event.owner !in s.world.copies {
      if event.id == id {
        ClaimLossDooms(s, id, event.owner);
      } else {
        ClaimEffect(s.world, event.id, event.owner);
        hide Inv, Apply, Doomed, Sound;
        assert false;
      }
    }
  }

  /** From a doomed job on, the executor is started for it at most by a worker that was armed already. */
  lemma {:induction false} DoomedLaunchesNothingNew(s: System, events: seq<Event>, id: Id, k: nat)
    requires Sound(s) && AllUnmasked(s, events) && Doomed(s, id)
    requires |s.launches| <= k < |Play(s, events).launches| && Play(s, events).launches[k].job == id
    ensures Play(s, events).launches[k].owner in s.points && Armed(s.points[Play(s, events).launches[k].owner])
    decreases |events|
  {
    if events != [] {
      assert Shape(s);
      hide Sound, Shape, Next, Unmasked, Inv, Doomed, Armed;
      var t, rest := Next(s, events[0]), events[1..];
      NextSound(s, events[0]);
      LaunchesAppend(s, events[0]);
      assert Play(s, events) == Play(t, rest);
      var owner := Play(t, rest).launches[k].owner;
      if k < |t.launches| {
        LaunchesKeep(t, rest);
        assert Play(t, rest).launches[k] == t.launches[k];
      } else {
        DoomedLaunchesNothingNew(t, rest, id, k);
        NewlyArmedHolds(s, events[0], owner);
        if !Armed(s.points[owner]) {
          RecordsStay(s, events[0], owner);
          PlayedLaunchRecord(t, rest, k);
          DoomedArmsNobody(s, events[0], id, owner);
        }
      }
    }
  }

  lemma {:induction false} LaunchesKeep(s: System, events: seq<Event>)
    requires Sound(s) && AllUnmasked(s, events)
    ensures |s.launches| <= |Play(s, events).launches| && Play(s, events).launches[..|s.launches|] == s.launches
    decreases |events|
  {
    if events != [] {
      assert Shape(s);
      hide Sound, Shape, Next, Unmasked, Inv;
      var t, rest := Next(s, events[0]), events[1..];
      NextSound(s, events[0]);
      LaunchesAppend(s, events[0]);
      LaunchesKeep(t, rest);
      assert Play(s, events) == Play(t, rest);
      assert s.launches == t.launches[..|s.launches|];
    }
  }

  /** A worker that has a record keeps it, so a launch it makes later is for the job of that record. */
  lemma {:induction false} PlayedLaunchRecord(s: System, events: seq<Event>, k: nat)
    requires Sound(s) && AllUnmasked(s, events) && k < |Play(s, events).launches|
    ensures var launch := Play(s, events).launches[k];
      launch.owner in s.world.copies ==> s.world.copies[launch.owner].id == launch.job
    decreases |events|
  {
    if events != [] {
      hide Sound, Next, Unmasked;
      NextSound(s, events[0]);
      RecordsStay(s, events[0], Play(s, events).launches[k].owner);
      PlayedLaunchRecord(Next(s, events[0]), events[1..], k);
    }
  }

  /** Once a worker loses its lease with the stored phase in snapshot creation, execution or the health
      check, no worker that claims the job later reaches the executor, however the run goes on. */
  lemma NoLaterExecution(lease: nat, clock: Time, before: seq<Event>, loss: Event, after: seq<Event>, id: Id, k: nat)
    requires lease >= 1 && AllUnmasked(Start(lease, clock), before)
    requires var s := Play(Start(lease, clock), before);
      && Unmasked(s, loss) && AllUnmasked(Next(s, loss), after) && (loss.Begin? || loss.RecoverExpired?)
      && id in s.world.store && s.world.store[id].status.Running? && Gate.Uncertain(s.world.store[id].currentPhase)
      && id in Next(s, loss).world.store && Next(s, loss).world.store[id].leaseOwner != s.world.store[id].leaseOwner
      && |Next(s, loss).launches| <= k < |Play(Next(s, loss), after).launches|
      && Play(Next(s, loss), after).launches[k].job == id
    ensures var s := Play(Start(lease, clock), before);
      Play(Next(s, loss), after).launches[k].owner in s.world.copies
  {
    StartSound(lease, clock);
    PlaySound(Start(lease, clock), before);
    var s := Play(Start(lease, clock), before);
    NextSound(s, loss);
    LossDooms(s, loss, id);
    DoomedLaunchesNothingNew(Next(s, loss), after, id, k);
    NewlyArmedHolds(s, loss, Play(Next(s, loss), after).launches[k].owner);
  }
}
