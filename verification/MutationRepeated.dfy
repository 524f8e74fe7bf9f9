/** What happens without the condition of `MutationOnce`: a masked re-claim does start the executor a
    second time, and a run that gets there exists. */
module MutationRepeated {
  import opened Common
  import opened Jobs
  import opened LeaseProtocol
  import opened RemediationWorker
  import opened MutationOnce
  import Gate

  // ---------------------------------------------------------------- one worker walks to the executor

  /** A worker at `point`, holding a live lease, past or about to pass the stale check. */
  ghost predicate Poised(s: System, id: Id, owner: Id, point: Point, recovered: Option<Phase>, spare: int) {
    && Inv(s.world) && Holds(s.world, id, owner)
    && owner in s.world.copies && s.world.copies[owner].id == id && s.world.copies[owner].status.Running?
    && s.world.store[id].leaseExpiresAt.Some? && s.world.clock < s.world.store[id].leaseExpiresAt.value
    && s.world.copies[owner].result.recoveredFromPhase == recovered
    && s.world.store[id].result.recoveredFromPhase == recovered
    && s.world.store[id].maxAttempts - s.world.store[id].attempts == spare
    && owner in s.points && s.points[owner] == point
    && (point.StaleCheck? ==> !Stops(s.world.copies[owner]))
    && (Armed(point) ==> s.world.store[id].currentPhase == Some(AnsibleExecution))
  }

  /** The unguarded way from the claim to the executor, one point at a time. */
  function Onward(point: Point): Point {
    match point
    case StaleCheck => Admission
    case Admission => DriftMark
    case DriftMark => Collecting
    case Collecting => SnapshotGate
    case SnapshotGate => FinalGate(false)
    case FinalGate(guarded) => AnsibleMark(guarded)
    case AnsibleMark(guarded) => AnsibleAssert(guarded)
    case AnsibleAssert(guarded) => ReadyToLaunch(guarded)
    case _ => point
  }

  function Distance(point: Point): nat {
    match point
    case StaleCheck => 8
    case Admission => 7
    case DriftMark => 6
    case Collecting => 5
    case SnapshotGate => 4
    case FinalGate(_) => 3
    case AnsibleMark(_) => 2
    case AnsibleAssert(_) => 1
    case _ => 0
  }

  const QUIET := Report(false, true, false, None)

  function Onwards(point: Point, owner: Id): Event {
    Advance(owner, !point.SnapshotGate?, QUIET)
  }

  function WalkFrom(point: Point, owner: Id): seq<Event>
    decreases Distance(point)
  {
    if Distance(point) == 0 then [Onwards(point, owner)] else [Onwards(point, owner)] + WalkFrom(Onward(point), owner)
  }

  lemma MarkGoesThrough(w: World, id: Id, owner: Id, phase: Phase, progress: int)
    requires Inv(w) && Holds(w, id, owner) && owner in w.copies && w.copies[owner].id == id
    requires w.copies[owner].status.Running?
    requires w.store[id].leaseExpiresAt.Some? && w.clock < w.store[id].leaseExpiresAt.value
    ensures SaveAccepted(EditedWorld(w, owner, Mark(phase, progress)), owner)
    ensures var next := EditAndSave(w, owner, Mark(phase, progress));
      && id in next.store && owner in next.copies
      && next.store[id].result == next.copies[owner].result == w.copies[owner].result
      && next.store[id].attempts == w.store[id].attempts && next.store[id].maxAttempts == w.store[id].maxAttempts
      && next.store[id].leaseExpiresAt.Some? && next.clock < next.store[id].leaseExpiresAt.value
  {
    assert JobOk(w, id) && CopyOk(w, owner);
    hide Inv;
  }

  lemma MarkAccepted(
    s: System, id: Id, owner: Id, point: Point, recovered: Option<Phase>, spare: int, phase: Phase, progress: int,
    next: Point)
    requires Poised(s, id, owner, point, recovered, spare) && !next.StaleCheck?
    requires Armed(next) ==> phase.AnsibleExecution?
    ensures var t := MarkPhase(s, owner, phase, progress, next);
      && Poised(t, id, owner, next, recovered, spare)
      && t.launches == s.launches && t.retried == s.retried && t.world.copies.Keys == s.world.copies.Keys
      && t.world.lease == s.world.lease
      && t.world.store[id].currentPhase == Some(phase)
  {
    MarkEffect(s.world, owner, phase, progress);
    MarkGoesThrough(s.world, id, owner, phase, progress);
    hide Inv, Stops, EditAndSave, EditedWorld, Apply, SaveAccepted, OnlyJob;
  }

  lemma BeatAccepted(s: System, id: Id, owner: Id, point: Point, recovered: Option<Phase>, spare: int, next: Point)
    requires Poised(s, id, owner, point, recovered, spare) && !next.StaleCheck?
    requires Armed(next) ==> Armed(point)
    ensures Poised(AssertLease(s, owner, next), id, owner, next, recovered, spare)
    ensures AssertLease(s, owner, next).launches == s.launches
    ensures AssertLease(s, owner, next).world.copies == s.world.copies
    ensures AssertLease(s, owner, next).world.lease == s.world.lease
  {
    StepKeepsInv(s.world, Beat(owner));
    assert JobOk(s.world, id) && CopyOk(s.world, owner);
    hide Inv, Stops;
  }

  /** The points at which the worker only decides. */
  lemma DecideOn(s: System, id: Id, owner: Id, point: Point, recovered: Option<Phase>, spare: int)
    requires Poised(s, id, owner, point, recovered, spare)
    requires point.StaleCheck? || point.Admission? || point.SnapshotGate? || point.FinalGate?
    ensures Poised(Next(s, Onwards(point, owner)), id, owner, Onward(point), recovered, spare)
    ensures Next(s, Onwards(point, owner)).launches == s.launches
    ensures Next(s, Onwards(point, owner)).world.copies.Keys == s.world.copies.Keys
    ensures Next(s, Onwards(point, owner)).world.lease == s.world.lease
  {
    hide Inv, Stops, Apply;
  }

  lemma OneStepOn(s: System, id: Id, owner: Id, point: Point, recovered: Option<Phase>, spare: int)
    requires Poised(s, id, owner, point, recovered, spare) && Distance(point) > 0
    ensures Poised(Next(s, Onwards(point, owner)), id, owner, Onward(point), recovered, spare)
    ensures Next(s, Onwards(point, owner)).launches == s.launches
    ensures Next(s, Onwards(point, owner)).world.copies.Keys == s.world.copies.Keys
    ensures Next(s, Onwards(point, owner)).world.lease == s.world.lease
  {
    assert owner in s.world.copies && owner in s.points && s.points[owner] == point;
    hide Inv, MarkPhase, AssertLease, Stops, Poised;
    match point
    case DriftMark => MarkAccepted(s, id, owner, point, recovered, spare, StateDriftCheck, 10, Collecting);
    case Collecting => BeatAccepted(s, id, owner, point, recovered, spare, SnapshotGate);
    case AnsibleMark(guarded) => MarkAccepted(s, id, owner, point, recovered, spare, AnsibleExecution, 30,
                                              AnsibleAssert(guarded));
    case AnsibleAssert(guarded) => BeatAccepted(s, id, owner, point, recovered, spare, ReadyToLaunch(guarded));
    case _ => DecideOn(s, id, owner, point, recovered, spare);
  }

  /** What holds once the walk is over. */
  ghost predicate Arrived(s: System, end: System, id: Id, owner: Id, recovered: Option<Phase>, spare: int) {
    && end.launches == s.launches + [Launch(id, owner)] && end.retried == s.retried
    && end.world.copies.Keys == s.world.copies.Keys && end.world.lease == s.world.lease
    && Inv(end.world) && Holds(end.world, id, owner) && end.world.store[id].currentPhase == Some(AnsibleExecution)
    && end.world.store[id].result.recoveredFromPhase == recovered
    && end.world.store[id].maxAttempts - end.world.store[id].attempts == spare
    && owner in end.points && end.points[owner].Ran?
  }

  lemma LastStep(s: System, id: Id, owner: Id, point: Point, recovered: Option<Phase>, spare: int)
    requires Poised(s, id, owner, point, recovered, spare) && point.ReadyToLaunch?
    ensures Arrived(s, Next(s, Onwards(point, owner)), id, owner, recovered, spare)
  {
    hide Inv, Stops, Apply;
  }

  lemma PlayFirst(s: System, event: Event, rest: seq<Event>)
    ensures Play(s, [event] + rest) == Play(Next(s, event), rest)
    ensures AllUnmasked(s, [event] + rest) <==> Unmasked(s, event) && AllUnmasked(Next(s, event), rest)
  {
    hide Next, Unmasked;
    assert ([event] + rest)[1..] == rest;
  }

  lemma ArrivedOver(s: System, t: System, end: System, id: Id, owner: Id, recovered: Option<Phase>, spare: int)
    requires Arrived(t, end, id, owner, recovered, spare) && t.launches == s.launches && t.retried == s.retried
    requires t.world.copies.Keys == s.world.copies.Keys && t.world.lease == s.world.lease
    ensures Arrived(s, end, id, owner, recovered, spare)
  {
    hide Inv, Holds;
  }

  lemma PoisedPoint(s: System, id: Id, owner: Id, point: Point, recovered: Option<Phase>, spare: int)
    requires Poised(s, id, owner, point, recovered, spare)
    ensures owner in s.points && s.points[owner] == point
  {
    hide Inv;
  }

  lemma WalkOver(s: System, id: Id, owner: Id, point: Point, recovered: Option<Phase>, spare: int)
    requires Poised(s, id, owner, point, recovered, spare) && point.ReadyToLaunch?
    ensures Arrived(s, Play(s, WalkFrom(point, owner)), id, owner, recovered, spare)
    ensures AllUnmasked(s, WalkFrom(point, owner))
  {
    LastStep(s, id, owner, point, recovered, spare);
    hide Next, Poised, Arrived, Inv;
    PlayFirst(s, Onwards(point, owner), []);
    assert [Onwards(point, owner)] + [] == [Onwards(point, owner)];
  }

  lemma {:induction false} WalkLaunches(
    s: System, id: Id, owner: Id, point: Point, recovered: Option<Phase>, spare: int)
    requires Poised(s, id, owner, point, recovered, spare) && (Distance(point) > 0 || point.ReadyToLaunch?)
    ensures Arrived(s, Play(s, WalkFrom(point, owner)), id, owner, recovered, spare)
    ensures AllUnmasked(s, WalkFrom(point, owner))
    decreases Distance(point)
  {
    hide Next, Poised, Arrived, Inv, Holds, MasksUncertainPhase, Play, AllUnmasked;
    if Distance(point) == 0 {
      WalkOver(s, id, owner, point, recovered, spare);
    } else {
      var event, rest := Onwards(point, owner), WalkFrom(Onward(point), owner);
      var t := Next(s, event);
      PoisedPoint(s, id, owner, point, recovered, spare);
      OneStepOn(s, id, owner, point, recovered, spare);
      WalkLaunches(t, id, owner, Onward(point), recovered, spare);
      OnwardRetriesNobody(s, owner, point);
      PlayFirst(s, event, rest);
      ArrivedOver(s, t, Play(t, rest), id, owner, recovered, spare);
    }
  }

  lemma OnwardRetriesNobody(s: System, owner: Id, point: Point)
    requires owner in s.points ==> s.points[owner] == point
    requires Distance(point) > 0
    ensures Next(s, Onwards(point, owner)).retried == s.retried
  {
    hide Apply, EditAndSave, EditedWorld, SaveAccepted, LeaseProved, Stops;
  }

  // ---------------------------------------------------------------- the exact condition

  lemma ClaimGranted(w: World, id: Id, owner: Id)
    requires owner !in w.copies && id in w.store && Claimable(w.store[id], w.clock)
    ensures owner in Apply(w, ClaimBy(id, owner)).copies
  {
  }

  /** A granted re-claim that does not stop stands at the stale check with a whole lease. */
  lemma ReclaimPoised(s: System, id: Id, owner: Id)
    requires Inv(s.world) && owner !in s.world.copies && id in s.world.store
    requires Claimable(s.world.store[id], s.world.clock)
    requires !Stops(Claimed(s.world.store[id], owner, s.world.clock, s.world.clock + s.world.lease))
    ensures Poised(Next(s, Begin(id, owner)), id, owner, StaleCheck, s.world.store[id].result.recoveredFromPhase,
                   s.world.store[id].maxAttempts - s.world.store[id].attempts - 1)
    ensures Next(s, Begin(id, owner)).launches == s.launches && Next(s, Begin(id, owner)).retried == s.retried
    ensures Next(s, Begin(id, owner)).world.copies.Keys == s.world.copies.Keys + {owner}
    ensures Next(s, Begin(id, owner)).world.lease == s.world.lease
  {
    assert s.world.lease >= 1;
    hide Inv, Apply, Stops;
    ClaimEffect(s.world, id, owner);
    ClaimGranted(s.world, id, owner);
    StepKeepsInv(s.world, ClaimBy(id, owner));
  }

  /** The condition is exact. In any state reached without a masked re-claim, take a job whose lease ran
      out in an uncertain phase and claim it directly with a fresh owner. That owner can get to start
      the executor in some continuation if and only if the record masks the uncertain phase. */
  lemma ReclaimReachesExecutorExactlyWhenMasked(s: System, id: Id, owner: Id)
    requires Sound(s) && owner !in s.world.copies && id in s.world.store
    requires Stale(s.world.store[id], s.world.clock) && s.world.store[id].attempts < s.world.store[id].maxAttempts
    requires Gate.Uncertain(s.world.store[id].currentPhase)
    ensures MasksUncertainPhase(s.world.store[id], s.world.clock) <==>
      exists after ::
        && AllUnmasked(Next(s, Begin(id, owner)), after)
        && Launch(id, owner) in Play(Next(s, Begin(id, owner)), after).launches
  {
    var t := Next(s, Begin(id, owner));
    ReclaimStopsExactlyWhenUnmasked(s.world.store[id], owner, s.world.clock, s.world.clock + s.world.lease);
    if MasksUncertainPhase(s.world.store[id], s.world.clock) {
      ReclaimPoised(s, id, owner);
      WalkLaunches(
        t, id, owner, StaleCheck, s.world.store[id].result.recoveredFromPhase,
        s.world.store[id].maxAttempts - s.world.store[id].attempts - 1);
      var after := WalkFrom(StaleCheck, owner);
      assert Play(t, after).launches[|s.launches|] == Launch(id, owner);
      assert AllUnmasked(t, after) && Launch(id, owner) in Play(t, after).launches;
    } else {
      forall after | AllUnmasked(t, after) ensures Launch(id, owner) !in Play(t, after).launches {
        UnmaskedReclaimNeverLaunches(s, id, owner, after);
      }
    }
  }

  lemma UnmaskedReclaimNeverLaunches(s: System, id: Id, owner: Id, after: seq<Event>)
    requires Sound(s) && owner !in s.world.copies && id in s.world.store
    requires Stale(s.world.store[id], s.world.clock) && s.world.store[id].attempts < s.world.store[id].maxAttempts
    requires Gate.Uncertain(s.world.store[id].currentPhase) && !MasksUncertainPhase(s.world.store[id], s.world.clock)
    requires AllUnmasked(Next(s, Begin(id, owner)), after)
    ensures Launch(id, owner) !in Play(Next(s, Begin(id, owner)), after).launches
  {
    var t := Next(s, Begin(id, owner));
    NextSound(s, Begin(id, owner));
    ClaimGranted(s.world, id, owner);
    UnmaskedReclaimDooms(s, id, owner);
    assert forall k :: 0 <= k < |s.launches| ==> s.launches[k].owner != owner;
    hide Inv, Sound, Doomed, Next, Unmasked, Apply, Claimable, MasksUncertainPhase, Stale;
    LaunchesKeep(t, after);
    assert forall k :: 0 <= k < |t.launches| ==>
             Play(t, after).launches[k] == Play(t, after).launches[..|t.launches|][k];
    forall k | 0 <= k < |Play(t, after).launches| && Play(t, after).launches[k] == Launch(id, owner) ensures false {
      if k >= |t.launches| {
        DoomedLaunchesNothingNew(t, after, id, k);
      }
    }
  }

  lemma UnmaskedReclaimDooms(s: System, id: Id, owner: Id)
    requires Inv(s.world) && owner !in s.world.copies && id in s.world.store
    requires Stale(s.world.store[id], s.world.clock) && s.world.store[id].attempts < s.world.store[id].maxAttempts
    requires Gate.Uncertain(s.world.store[id].currentPhase) && !MasksUncertainPhase(s.world.store[id], s.world.clock)
    ensures var t := Next(s, Begin(id, owner));
      Doomed(t, id) && owner in t.points && t.points[owner].StaleCheck? && t.launches == s.launches
  {
    ClaimEffect(s.world, id, owner);
    ClaimGranted(s.world, id, owner);
    hide Inv, Apply;
    ClaimDooms(s, Next(s, Begin(id, owner)), id, owner);
  }

  // ---------------------------------------------------------------- a run that gets there

  /** What a sweep and the passing of a lease do between two workers of one job. */
  ghost predicate Waiting(s: System, id: Id, spare: int) {
    && Inv(s.world) && id in s.world.store && s.world.store[id].status.Queued?
    && s.world.store[id].result.recoveredFromPhase == Some(StateDriftCheck)
    && s.world.store[id].maxAttempts - s.world.store[id].attempts == spare
  }

  /** A worker dies after marking the drift check; the lease runs out; the sweep requeues the job. */
  lemma CrashInDriftCheck(s: System, id: Id, owner: Id, point: Point, recovered: Option<Phase>, spare: int)
    requires Poised(s, id, owner, point, recovered, spare) && s.world.store[id].currentPhase == Some(StateDriftCheck)
    requires spare > 0
    ensures var t := Next(Next(s, Environment(Tick(s.world.lease))), RecoverExpired);
      Waiting(t, id, spare) && t.launches == s.launches && t.retried == s.retried && t.world.copies == s.world.copies &&
        t.world.lease == s.world.lease
  {
    var ticked := Next(s, Environment(Tick(s.world.lease)));
    StepKeepsInv(s.world, Tick(s.world.lease));
    StepKeepsInv(ticked.world, Sweep(BlockedIds(ticked.world.store, ticked.world.clock)));
    assert JobOk(s.world, id);
    assert Swept(s.world.store[id], ticked.world.clock).result.recoveredFromPhase == Some(StateDriftCheck);
    assert id !in BlockedIds(ticked.world.store, ticked.world.clock);
    hide Inv;
  }

  /** The next worker finds a harmless recovered phase and walks up to the executor. */
  lemma WaitingWalks(s: System, id: Id, owner: Id, spare: int)
    requires Waiting(s, id, spare) && spare > 0 && owner !in s.world.copies
    ensures var started := Next(s, Begin(id, owner));
      && Arrived(started, Play(started, WalkFrom(StaleCheck, owner)), id, owner, Some(StateDriftCheck), spare - 1)
      && started.launches == s.launches && started.retried == s.retried
      && started.world.copies.Keys == s.world.copies.Keys + {owner}
      && started.world.lease == s.world.lease
  {
    ReclaimPoised(s, id, owner);
    WalkLaunches(Next(s, Begin(id, owner)), id, owner, StaleCheck, Some(StateDriftCheck), spare - 1);
  }

  /** If that worker dies in the executor and its job is re-claimed directly, the executor starts again. */
  lemma MaskedReclaimWalks(s: System, before: System, id: Id, first: Id, owner: Id, spare: int)
    requires Arrived(before, s, id, first, Some(StateDriftCheck), spare) && spare > 0 && owner !in s.world.copies
    ensures var started := Next(Next(s, Environment(Tick(s.world.lease))), Begin(id, owner));
      var end := Play(started, WalkFrom(StaleCheck, owner));
      end.launches == before.launches + [Launch(id, first)] + [Launch(id, owner)] && end.retried == before.retried
  {
    var ticked := Next(s, Environment(Tick(s.world.lease)));
    StepKeepsInv(s.world, Tick(s.world.lease));
    assert JobOk(s.world, id);
    assert Stale(ticked.world.store[id], ticked.world.clock);
    ReclaimStopsExactlyWhenUnmasked(
      ticked.world.store[id], owner, ticked.world.clock, ticked.world.clock + ticked.world.lease);
    ReclaimPoised(ticked, id, owner);
    WalkLaunches(Next(ticked, Begin(id, owner)), id, owner, StaleCheck, Some(StateDriftCheck), spare - 1);
  }

  const SAMPLE := DurableJob(
    "j", RemediationJob, Queued, Some("h"), Some("s"), Some("r"), None, Some(1), None, None, OtherKey("k"), 0, None, 0,
      3,
    None, None, None, None, None, JobResult(None, map[]), 0, None, None, 0)

  lemma {:induction false} PlayConcat(s: System, first: seq<Event>, second: seq<Event>)
    ensures Play(s, first + second) == Play(Play(s, first), second)
    decreases |first|
  {
    hide Next;
    if first == [] {
      assert first + second == second;
    } else {
      assert first + second == [first[0]] + (first[1..] + second);
      assert first == [first[0]] + first[1..];
      PlayFirst(s, first[0], first[1..] + second);
      PlayFirst(s, first[0], first[1..]);
      PlayConcat(Next(s, first[0]), first[1..], second);
    }
  }

  lemma PlayOne(s: System, event: Event)
    ensures Play(s, [event]) == Next(s, event)
  {
    hide Next;
    PlayFirst(s, event, []);
    assert [event] + [] == [event];
  }

  lemma JobCreated(lease: nat, clock: Time)
    requires lease >= 1
    ensures var s := Next(Start(lease, clock), Environment(Create(SAMPLE)));
      && Inv(s.world) && s.world.store == map["j" := SAMPLE] && s.world.copies == map[] && s.launches == []
      && s.retried == map[]
      && s.world.lease == lease
  {
    StartSound(lease, clock);
    StepKeepsInv(Start(lease, clock).world, Create(SAMPLE));
  }

  lemma FirstClaim(s: System)
    requires Inv(s.world) && s.world.store == map["j" := SAMPLE] && s.world.copies == map[]
    ensures var t := Next(s, Begin("j", "a"));
      && Poised(t, "j", "a", StaleCheck, None, 2) && t.launches == s.launches && t.retried == s.retried
      && t.world.copies.Keys == {"a"} && t.world.lease == s.world.lease
  {
    ReclaimPoised(s, "j", "a");
    hide Inv, Poised, Next;
  }

  /** From the claim to the accepted mark of the drift check. */
  function MarkDrift(owner: Id): seq<Event> {
    [Onwards(StaleCheck, owner), Onwards(Admission, owner), Onwards(DriftMark, owner)]
  }

  lemma DriftMarked(s: System)
    requires Poised(s, "j", "a", StaleCheck, None, 2)
    ensures var t := Play(s, MarkDrift("a"));
      && Poised(t, "j", "a", Collecting, None, 2) && t.launches == s.launches && t.retried == s.retried
      && t.world.copies.Keys == s.world.copies.Keys && t.world.store["j"].currentPhase == Some(StateDriftCheck)
      && t.world.lease == s.world.lease
  {
    PoisedPoint(s, "j", "a", StaleCheck, None, 2);
    OneStepOn(s, "j", "a", StaleCheck, None, 2);
    OnwardRetriesNobody(s, "a", StaleCheck);
    var s1 := Next(s, Onwards(StaleCheck, "a"));
    PoisedPoint(s1, "j", "a", Admission, None, 2);
    OneStepOn(s1, "j", "a", Admission, None, 2);
    OnwardRetriesNobody(s1, "a", Admission);
    var s2 := Next(s1, Onwards(Admission, "a"));
    PoisedPoint(s2, "j", "a", DriftMark, None, 2);
    assert "a" in s2.world.copies;
    MarkAccepted(s2, "j", "a", DriftMark, None, 2, StateDriftCheck, 10, Collecting);
    assert Next(s2, Onwards(DriftMark, "a")) == MarkPhase(s2, "a", StateDriftCheck, 10, Collecting);
    hide Next, Poised, MarkPhase, Inv;
    var last := [Onwards(DriftMark, "a")];
    assert MarkDrift("a") == [Onwards(StaleCheck, "a")] + ([Onwards(Admission, "a")] + last);
    PlayFirst(s, Onwards(StaleCheck, "a"), [Onwards(Admission, "a")] + last);
    PlayFirst(s1, Onwards(Admission, "a"), last);
    PlayOne(s2, Onwards(DriftMark, "a"));
  }

  /** The first half of the run: create, first worker marks the drift check and crashes, sweep. */
  function CrashedInDrift(lease: nat): seq<Event> {
    [Environment(Create(SAMPLE))] +
      ([Begin("j", "a")] + (MarkDrift("a") + ([Environment(Tick(lease))] + [RecoverExpired])))
  }

  lemma CrashedInDriftWaits(lease: nat, clock: Time)
    requires lease >= 1
    ensures var s := Play(Start(lease, clock), CrashedInDrift(lease));
      Waiting(s, "j", 2) && s.launches == [] && s.retried == map[] && s.world.copies.Keys == {"a"} &&
        s.world.lease == lease
  {
    var s0 := Start(lease, clock);
    var s1 := Next(s0, Environment(Create(SAMPLE)));
    var s2 := Next(s1, Begin("j", "a"));
    var s3 := Play(s2, MarkDrift("a"));
    var crash := [Environment(Tick(lease))] + [RecoverExpired];
    JobCreated(lease, clock);
    FirstClaim(s1);
    DriftMarked(s2);
    CrashInDriftCheck(s3, "j", "a", Collecting, None, 2);
    hide Next, Poised, Inv, Waiting, MarkDrift, Start;
    PlayFirst(s0, Environment(Create(SAMPLE)), [Begin("j", "a")] + (MarkDrift("a") + crash));
    PlayFirst(s1, Begin("j", "a"), MarkDrift("a") + crash);
    PlayConcat(s2, MarkDrift("a"), crash);
    PlayFirst(s3, Environment(Tick(lease)), [RecoverExpired]);
    PlayOne(Next(s3, Environment(Tick(lease))), RecoverExpired);
  }

  /** The second half: the second worker starts the executor and crashes, a third re-claims directly. */
  function StartedTwice(lease: nat): seq<Event> {
    [Begin("j", "b")] +
      (WalkFrom(StaleCheck, "b") + ([Environment(Tick(lease))] + ([Begin("j", "c")] + WalkFrom(StaleCheck, "c"))))
  }

  lemma ArrivedKeeps(s: System, end: System, id: Id, owner: Id, recovered: Option<Phase>, spare: int)
    requires Arrived(s, end, id, owner, recovered, spare)
    ensures end.world.copies.Keys == s.world.copies.Keys && end.world.lease == s.world.lease
  {
    hide Inv, Holds;
  }

  lemma WaitingStartsTwice(s: System, lease: nat)
    requires Waiting(s, "j", 2) && s.world.copies.Keys == {"a"} && s.world.lease == lease && s.launches == []
    requires s.retried == map[]
    ensures var end := Play(s, StartedTwice(lease));
      end.launches == [Launch("j", "b"), Launch("j", "c")] && end.retried == map[]
  {
    hide Next, Arrived, Waiting, WalkFrom, Play;
    var s1 := Next(s, Begin("j", "b"));
    var s2 := Play(s1, WalkFrom(StaleCheck, "b"));
    var rest := [Environment(Tick(lease))] + ([Begin("j", "c")] + WalkFrom(StaleCheck, "c"));
    WaitingWalks(s, "j", "b", 2);
    ArrivedKeeps(s1, s2, "j", "b", Some(StateDriftCheck), 1);
    assert "c" !in s2.world.copies.Keys;
    MaskedReclaimWalks(s2, s1, "j", "b", "c", 1);
    PlayFirst(s, Begin("j", "b"), WalkFrom(StaleCheck, "b") + rest);
    PlayConcat(s1, WalkFrom(StaleCheck, "b"), rest);
    PlayFirst(s2, Environment(Tick(lease)), [Begin("j", "c")] + WalkFrom(StaleCheck, "c"));
    PlayFirst(Next(s2, Environment(Tick(lease))), Begin("j", "c"), WalkFrom(StaleCheck, "c"));
  }

  /** Without the condition the executor is started twice: this run has two launches of one job by two
      workers, and the first of them was never put back into the queue. */
  lemma ExecutorCanRepeat(lease: nat, clock: Time)
    requires lease >= 1
    ensures var end := Play(Start(lease, clock), CrashedInDrift(lease) + StartedTwice(lease));
      end.launches == [Launch("j", "b"), Launch("j", "c")] && end.retried == map[]
  {
    CrashedInDriftWaits(lease, clock);
    hide CrashedInDrift, StartedTwice, Waiting, Start, Play;
    WaitingStartsTwice(Play(Start(lease, clock), CrashedInDrift(lease)), lease);
    PlayConcat(Start(lease, clock), CrashedInDrift(lease), StartedTwice(lease));
  }
}
