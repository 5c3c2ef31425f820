/** Debounced, single-writer saving of the application state, under every interleaving of callers and worker. */
module Persistence {
  import opened Common

  /** A worker task between two of its suspension points. */
  datatype Worker =
    | Sleeping
    | Saving(snapshot: nat, written: bool)
    | Finished

  /**
   * The application, its worker tasks and the disk.  `content` numbers the versions of the application state,
   * `enqueuedAt` is the version at the last accepted request, `captured` the version last handed to a save, and
   * `landed` lists the versions that reached the disk.  `lastSave` is what the last save reported, and `lastLanded`
   * whether it reached the disk, which a save that reported a failure may have done.
   */
  datatype System = System(
    nextRevision: nat,
    queuedRevision: Option<nat>,
    workerActive: bool,
    alive: bool,
    workers: seq<Worker>,
    content: nat,
    enqueuedAt: nat,
    captured: nat,
    landed: seq<nat>,
    lastSave: Option<bool>,
    lastLanded: bool)

  const INITIAL := System(0, None, false, true, [], 0, 0, 0, [], None, false)

  /** What can happen next; `worker` names one of the tasks. */
  datatype Event =
    | Edit
    | Persist(storageReady: bool)
    | Wake(worker: nat)
    | WriteLands(worker: nat)
    | SaveReturns(worker: nat, ok: bool)
    | CloseWindow

  function Successor(revision: nat): nat {
    if revision >= U64_MAX then U64_MAX else revision + 1
  }

  /** One event, if it can happen. */
  function Step(s: System, e: Event): Option<System> {
    match e
    case Edit => if s.alive then Some(s.(content := s.content + 1)) else None
    case CloseWindow => if s.alive then Some(s.(alive := false)) else None
    case Persist(ready) =>
      if !s.alive then None
      else if !ready then Some(s)
      else
        var queued := s.(nextRevision := Successor(s.nextRevision), queuedRevision := Some(Successor(s.nextRevision)),
                         enqueuedAt := s.content);
        if s.workerActive then Some(queued)
        else Some(queued.(workerActive := true, workers := s.workers + [Sleeping]))
    case Wake(i) =>
      if i >= |s.workers| || s.workers[i] != Sleeping then None
      else if !s.alive then Some(s.(workers := s.workers[i := Finished]))
      else if s.queuedRevision.None? then Some(s.(workerActive := false, workers := s.workers[i := Finished]))
      else Some(s.(queuedRevision := None, captured := s.content, workers := s.workers[i := Saving(s.content, false)]))
    case WriteLands(i) =>
      if i >= |s.workers| || !s.workers[i].Saving? || s.workers[i].written then None
      else
        var snapshot := s.workers[i].snapshot;
        Some(s.(landed := s.landed + [snapshot], workers := s.workers[i := Saving(snapshot, true)]))
    case SaveReturns(i, ok) =>
      if i >= |s.workers| || !s.workers[i].Saving? || (ok && !s.workers[i].written) then None
      else
        var ended := s.(lastSave := Some(ok), lastLanded := s.workers[i].written);
        if !s.alive then Some(ended.(workers := s.workers[i := Finished]))
        else if s.queuedRevision.Some? then Some(ended.(workers := s.workers[i := Sleeping]))
        else Some(ended.(workerActive := false, workers := s.workers[i := Finished]))
  }

  /** The application object; `workers`, `content` and what follows them stand for the runtime and the disk. */
  class Application {
    var nextRevision: nat
    var queuedRevision: Option<nat>
    var workerActive: bool
    ghost var alive: bool
    ghost var workers: seq<Worker>
    ghost var content: nat
    ghost var enqueuedAt: nat
    ghost var captured: nat
    ghost var landed: seq<nat>
    ghost var lastSave: Option<bool>
    ghost var lastLanded: bool

    ghost function State(): System
      reads this
    {
      System(nextRevision, queuedRevision, workerActive, alive, workers, content, enqueuedAt, captured, landed,
             lastSave, lastLanded)
    }

    constructor ()
      ensures State() == INITIAL
    {
      nextRevision, queuedRevision, workerActive := 0, None, false;
      alive, workers, content, enqueuedAt, captured, landed := true, [], 0, 0, 0, [];
      lastSave, lastLanded := None, false;
    }

    method Enqueue() returns (revision: nat)
      modifies this`nextRevision, this`queuedRevision
      ensures nextRevision == revision == Successor(old(nextRevision)) && queuedRevision == Some(revision)
    {
      nextRevision := if nextRevision >= U64_MAX then U64_MAX else nextRevision + 1;
      queuedRevision := Some(nextRevision);
      revision := nextRevision;
    }

    method TakeQueuedRevision() returns (taken: Option<nat>)
      modifies this`queuedRevision
      ensures taken == old(queuedRevision) && queuedRevision == None
    {
      taken := queuedRevision;
      queuedRevision := None;
    }

    predicate HasPending()
      reads this`queuedRevision
    {
      queuedRevision.Some?
    }

    /** Ask for a save.  The first request starts a worker; later ones leave a note for it. */
    method PersistStateAsync(storageReady: bool)
      requires alive
      modifies this
      ensures Step(old(State()), Persist(storageReady)) == Some(State())
    {
      if !storageReady {
        return;
      }
      var _ := Enqueue();
      enqueuedAt := content;
      if workerActive {
        return;
      }
      workerActive := true;
      workers := workers + [Sleeping];
    }

    /** The worker after its delay: take the note and capture a snapshot, or stop. */
    method WorkerWakes(ghost i: nat)
      requires alive && i < |workers| && workers[i] == Sleeping
      modifies this
      ensures Step(old(State()), Wake(i)) == Some(State())
    {
      var taken := TakeQueuedRevision();
      if taken.None? {
        workerActive := false;
        workers := workers[i := Finished];
        return;
      }
      captured := content;
      workers := workers[i := Saving(content, false)];
    }

    /** The worker after its save: another round if something was queued meanwhile, else stop. */
    method WorkerSaved(ghost i: nat, ok: bool)
      requires alive && i < |workers| && workers[i].Saving? && (ok ==> workers[i].written)
      modifies this
      ensures Step(old(State()), SaveReturns(i, ok)) == Some(State())
    {
      lastSave, lastLanded := Some(ok), workers[i].written;
      var again := HasPending();
      if !again {
        workerActive := false;
      }
      workers := workers[i := if again then Sleeping else Finished];
    }
  }

  // ---------------------------------------------------------------- every run

  function After(s: System, events: seq<Event>): Option<System>
    decreases |events|
  {
    if |events| == 0 then Some(s)
    else
      var earlier := After(s, events[..|events| - 1]);
      if earlier.None? then None else Step(earlier.value, events[|events| - 1])
  }

  predicate Running(w: Worker) {
    !w.Finished?
  }

  predicate Ascending(s: seq<nat>) {
    forall i, j :: 0 <= i < j < |s| ==> s[i] <= s[j]
  }

  function Last(s: System): Worker {
    if |s.workers| == 0 then Finished else s.workers[|s.workers| - 1]
  }

  predicate OnlyLastRuns(s: System) {
    forall i :: 0 <= i < |s.workers| - 1 ==> s.workers[i].Finished?
  }

  predicate Invariant(s: System) {
    // Only the newest task can be running, and the flag says whether it is.
    && OnlyLastRuns(s)
    && (Running(Last(s)) ==> s.workerActive)
    && (s.alive && s.workerActive ==> Running(Last(s)))
    // Nobody asleep leaves nothing behind.
    && (s.alive && !s.workerActive ==> s.queuedRevision.None?)
    && (s.queuedRevision.None? ==> s.enqueuedAt <= s.captured)
    // The disk follows the captures.
    && s.captured <= s.content && s.enqueuedAt <= s.content
    && Ascending(s.landed) && (forall v :: v in s.landed ==> v <= s.captured)
    && (Last(s).Saving? ==> Last(s).snapshot == s.captured && (Last(s).written ==> OnDisk(s) == Some(s.captured)))
    && (s.lastSave == Some(true) ==> s.lastLanded)
    && (s.lastLanded && !Last(s).Saving? ==> OnDisk(s) == Some(s.captured))
  }

  function OnDisk(s: System): Option<nat> {
    if |s.landed| == 0 then None else Some(s.landed[|s.landed| - 1])
  }

  lemma RequestKeepsInvariant(s: System, e: Event)
    requires Invariant(s) && Step(s, e).Some? && (e.Edit? || e.CloseWindow? || e.Persist?)
    ensures Invariant(Step(s, e).value)
  {
  }

  lemma WakeKeepsInvariant(s: System, i: nat)
    requires Invariant(s) && Step(s, Wake(i)).Some?
    ensures Invariant(Step(s, Wake(i)).value)
  {
    assert i == |s.workers| - 1;
  }

  lemma WriteKeepsInvariant(s: System, i: nat)
    requires Invariant(s) && Step(s, WriteLands(i)).Some?
    ensures Invariant(Step(s, WriteLands(i)).value)
  {
    assert i == |s.workers| - 1;
    forall k | 0 <= k < |s.landed| ensures s.landed[k] <= s.captured {
      assert s.landed[k] in s.landed;
    }
  }

  lemma ReturnKeepsInvariant(s: System, i: nat, ok: bool)
    requires Invariant(s) && Step(s, SaveReturns(i, ok)).Some?
    ensures Invariant(Step(s, SaveReturns(i, ok)).value)
  {
    assert i == |s.workers| - 1;
  }

  lemma StepKeepsInvariant(s: System, e: Event)
    requires Invariant(s) && Step(s, e).Some?
    ensures Invariant(Step(s, e).value)
  {
    hide Step, Invariant;
    match e
    case Wake(i) => WakeKeepsInvariant(s, i);
    case WriteLands(i) => WriteKeepsInvariant(s, i);
    case SaveReturns(i, ok) => ReturnKeepsInvariant(s, i, ok);
    case _ => RequestKeepsInvariant(s, e);
  }

  lemma {:induction false} RunsKeepInvariant(events: seq<Event>)
    requires After(INITIAL, events).Some?
    ensures Invariant(After(INITIAL, events).value)
    decreases |events|
  {
    if |events| > 0 {
      var earlier := events[..|events| - 1];
      RunsKeepInvariant(earlier);
      StepKeepsInvariant(After(INITIAL, earlier).value, events[|events| - 1]);
    }
  }

  /** At no time are two saves in flight. */
  lemma SingleWriter(events: seq<Event>, i: nat, j: nat)
    requires After(INITIAL, events).Some?
    requires var s := After(INITIAL, events).value;
      i < |s.workers| && j < |s.workers| && Running(s.workers[i]) && Running(s.workers[j])
    ensures i == j
  {
    RunsKeepInvariant(events);
  }

  /** Snapshots reach the disk in the order in which they were captured, never an older one over a newer one. */
  lemma SavesLandInOrder(events: seq<Event>)
    requires After(INITIAL, events).Some?
    ensures Ascending(After(INITIAL, events).value.landed)
  {
    RunsKeepInvariant(events);
  }

  /** No request is ever left lying: while the application lives, a queued revision has a worker coming for it. */
  lemma QueuedMeansWorking(events: seq<Event>)
    requires After(INITIAL, events).Some?
    ensures var s := After(INITIAL, events).value;
      s.alive && s.queuedRevision.Some? ==> s.workerActive && Running(Last(s))
  {
    RunsKeepInvariant(events);
  }

  /** Once the worker has stopped after a good save, the disk is at least as new as the last request. */
  lemma NoUpdateIsLost(events: seq<Event>)
    requires After(INITIAL, events).Some?
    ensures var s := After(INITIAL, events).value;
      s.alive && !s.workerActive && s.lastSave == Some(true) ==>
        OnDisk(s).Some? && s.enqueuedAt <= OnDisk(s).value <= s.content
  {
    RunsKeepInvariant(events);
  }

  /** The disk is older than the last request. */
  predicate Stale(s: System) {
    OnDisk(s).None? || OnDisk(s).value < s.enqueuedAt
  }

  /** The worker has saved and stopped. */
  predicate AtRest(s: System) {
    s.alive && !s.workerActive && s.lastSave.Some?
  }

  /**
   * A failed save is not tried again.  At rest the disk holds the last capture when the last save landed, whatever
   * it reported; and it is older than the last request exactly when that save did not land and no earlier one
   * had captured what was asked for.
   */
  lemma DiskAtRest(events: seq<Event>)
    requires After(INITIAL, events).Some? && AtRest(After(INITIAL, events).value)
    ensures var s := After(INITIAL, events).value;
      && (s.lastLanded ==> OnDisk(s) == Some(s.captured) && s.enqueuedAt <= s.captured)
      && (Stale(s) <==> !s.lastLanded && forall v :: v in s.landed ==> v < s.enqueuedAt)
  {
    RunsKeepInvariant(events);
    var s := After(INITIAL, events).value;
    hide After;
    if Stale(s) {
      forall v | v in s.landed ensures v < s.enqueuedAt {
        var k :| 0 <= k < |s.landed| && s.landed[k] == v;
        assert v <= OnDisk(s).value;
      }
    } else {
      assert OnDisk(s).value in s.landed;
    }
  }

  /** At rest the disk changes no more before the next request, which starts a new worker. */
  lemma RestIsFinal(events: seq<Event>, e: Event)
    requires After(INITIAL, events).Some? && AtRest(After(INITIAL, events).value)
    requires Step(After(INITIAL, events).value, e).Some?
    ensures var s := After(INITIAL, events).value;
      && !WorkerEvent(e)
      && Step(s, e).value.landed == s.landed
      && (e == Persist(true) ==> Last(Step(s, e).value) == Sleeping)
  {
    RunsKeepInvariant(events);
    hide After;
    var s := After(INITIAL, events).value;
    assert !Running(Last(s)) && OnlyLastRuns(s);
    assert forall i :: 0 <= i < |s.workers| ==> s.workers[i].Finished?;
  }

  /** One edit, one request, and a save that fails: the edit is not on the disk, and nothing is left to write it. */
  lemma FailedSaveLosesTheEdit()
    ensures var run := [Edit, Persist(true), Wake(0), SaveReturns(0, false)];
      After(INITIAL, run).Some? && AtRest(After(INITIAL, run).value) && Stale(After(INITIAL, run).value)
  {
    var s1 := Step(INITIAL, Edit).value;
    var s2 := Step(s1, Persist(true)).value;
    var s3 := Step(s2, Wake(0)).value;
    hide Step;
    assert [Edit][..0] == [];
    assert After(INITIAL, [Edit]) == Some(s1);
    assert [Edit, Persist(true)][..1] == [Edit];
    assert After(INITIAL, [Edit, Persist(true)]) == Some(s2);
    assert [Edit, Persist(true), Wake(0)][..2] == [Edit, Persist(true)];
    assert After(INITIAL, [Edit, Persist(true), Wake(0)]) == Some(s3);
    assert [Edit, Persist(true), Wake(0), SaveReturns(0, false)][..3] == [Edit, Persist(true), Wake(0)];
  }

  predicate WorkerEvent(e: Event) {
    e.Wake? || e.WriteLands? || e.SaveReturns?
  }

  function PhaseWeight(w: Worker): nat {
    match w
    case Finished => 0
    case Sleeping => 1
    case Saving(_, written) => if written then 2 else 3
  }

  /** Steps a worker can still take without a new request. */
  function WorkLeft(s: System): nat {
    PhaseWeight(Last(s)) + if s.queuedRevision.Some? then 4 else 0
  }

  /** Without new requests the worker comes to rest, whatever its saves do; and until then it can always move. */
  lemma WorkerComesToRest(events: seq<Event>, e: Event)
    requires After(INITIAL, events).Some?
    ensures var s := After(INITIAL, events).value;
      && (WorkerEvent(e) && Step(s, e).Some? ==> WorkLeft(Step(s, e).value) < WorkLeft(s))
      && (s.workerActive && s.alive ==> exists next :: WorkerEvent(next) && Step(s, next).Some?)
  {
    RunsKeepInvariant(events);
    var s := After(INITIAL, events).value;
    hide After;
    var n := |s.workers|;
    if WorkerEvent(e) && Step(s, e).Some? {
      assert e.worker == n - 1;
    }
    if s.workerActive && s.alive {
      var next := if Last(s).Sleeping? then Wake(n - 1) else SaveReturns(n - 1, false);
      assert WorkerEvent(next) && Step(s, next).Some?;
    }
  }
}
