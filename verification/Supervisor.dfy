// The lifecycle of the instances of one monitor, as interleaved steps of the
// register, reconfigure, stop, worker, cleanup and watchdog threads.
module Supervisor {
  import opened Wrappers

  // A worker thread: not made, made but not started, started, inside the
  // plugin's start, past it, ended.
  datatype Worker = Never | Launching | Begun | InStart | Working | Ended

  // A cleanup thread: none, made but not started, waiting for the plugin's start
  // to be over, inside the plugin's stop, joining the worker, done but not yet
  // ended, ended.
  datatype Cleanup = NoCleanup | Published | Waiting | InStop | Joining | Leaving | Over

  // One instance. `stops` counts the plugin's stops that succeeded.
  datatype Managed = Managed(retiring: bool, stop: bool, initialized: bool, launching: bool, worker: Worker,
                             cleanup: Cleanup, done: bool, failed: bool, initError: bool, stops: nat)

  function NewManaged(): Managed {
    Managed(false, false, true, false, Never, NoCleanup, false, false, false, 0)
  }

  predicate IsAlive(t: Worker) {
    t == Begun || t == InStart || t == Working
  }

  // The worker runs, or is about to.
  predicate MayRun(m: Managed) {
    m.worker == Launching || IsAlive(m.worker)
  }

  // Nothing of the instance is left to do.
  predicate Complete(m: Managed) {
    m.retiring && m.done && !m.failed && !IsAlive(m.worker)
  }

  // The operation that holds the id's reservation, with its cancel token.
  datatype Op =
    | NoOp
    | Registering(token: bool, installed: bool)
    | Creating(token: bool)
    | Replacing(token: bool, successor: nat, gone: bool)

  datatype World = World(records: map<nat, Managed>, next: nat, registered: Option<nat>, retired: set<nat>,
                         op: Op, closed: bool, running: bool)

  function Empty(): World {
    World(map[], 0, None, {}, NoOp, false, false)
  }

  // ----- the locked sections ------------------------------------------------

  function Prune(w: World): World {
    w.(registered := if w.registered.Some? && w.registered.value in w.records && Complete(w.records[w.registered.value])
                     then None else w.registered,
       retired := set m | m in w.retired && !(m in w.records && Complete(w.records[m])))
  }

  // Stopping is asked for, and one cleanup thread is made unless one is at work
  // or has succeeded. Making it may fail.
  function Retired(m: Managed, made: bool): Managed {
    var m1 := m.(retiring := true, stop := true);
    if m.cleanup != NoCleanup && (!m.done || m.cleanup == Leaving) then m1
    else if m.done && !m.failed then m1
    else if made then m1.(done := false, failed := false, cleanup := Published)
    else m1.(done := true, failed := true)
  }

  predicate MayStart(w: World, m: Managed) {
    !m.retiring && !m.stop && !w.closed && !m.launching && !IsAlive(m.worker)
  }

  function Launched(m: Managed, made: bool): Managed {
    if made then m.(launching := true, initialized := false, worker := Launching)
    else m.(initialized := true, initError := true, worker := Never)
  }

  // Each of these instances is asked to stop.
  function Asked(records: map<nat, Managed>, who: set<nat>): map<nat, Managed> {
    map m | m in records :: if m in who then records[m].(retiring := true, stop := true) else records[m]
  }

  // ----- steps --------------------------------------------------------------

  datatype Step =
    | PruneStep
    | Reserve(cancelled: bool)
    | Install
    | CreateFailed
    | ReserveReplacement(cancelled: bool)
    | Replacement
    | SeeGone
    | InstallReplacement
    | GiveUp
    | EndOp
    | RequestStop
    | Retire(m: nat, made: bool)
    | Close
    | Run
    | StartWorker(made: bool)
    | ThreadStarts(m: nat)
    | ThreadFails(m: nat)
    | LaunchOver(m: nat)
    | EnterStart(m: nat)
    | SkipStart(m: nat)
    | StartReturns(m: nat, ok: bool)
    | WorkerEnds(m: nat)
    | CleanupStarts(m: nat)
    | CleanupFails(m: nat)
    | EnterStop(m: nat)
    | StopReturns(m: nat, ok: bool)
    | JoinOver(m: nat)
    | CleanupEnds(m: nat)

  function Add(w: World): World {
    w.(records := w.records[w.next := NewManaged()], next := w.next + 1)
  }

  // What an operation or a caller does to the registry.
  function RegistryStep(w: World, s: Step): World {
    match s
    case PruneStep => Prune(w)
    case Reserve(cancelled) =>
      var w1 := Prune(w);
      if w1.closed || w1.registered.Some? || w1.op != NoOp || w1.retired != {} then w1
      else w1.(op := Registering(cancelled, false))
    case Install =>
      if w.op.Registering? && !w.op.installed
      then Add(w).(registered := Some(w.next), op := w.op.(installed := true)) else w
    case CreateFailed =>
      if (w.op.Registering? && !w.op.installed) || w.op.Creating? then w.(op := NoOp) else w
    case ReserveReplacement(cancelled) =>
      var w1 := Prune(w);
      if w1.registered.None? || w1.registered.value !in w1.records || w1.records[w1.registered.value].retiring
         || w1.op != NoOp || w1.retired != {} || w1.closed then w1
      else w1.(op := Creating(cancelled))
    case Replacement =>
      if w.op.Creating? then Add(w).(op := Replacing(w.op.token, w.next, false)) else w
    case SeeGone =>
      var w1 := Prune(w);
      if w1.op.Replacing? && w1.registered.None? && w1.retired == {} then w1.(op := w1.op.(gone := true)) else w1
    case InstallReplacement =>
      if w.op.Replacing? && w.op.gone && !w.op.token && !w.closed
      then w.(registered := Some(w.op.successor), op := Registering(w.op.token, true)) else w
    case GiveUp =>
      if w.op.Replacing? then w.(retired := w.retired + {w.op.successor}, op := NoOp) else w
    case EndOp =>
      if w.op.Registering? && w.op.installed then w.(op := NoOp) else w
    case RequestStop =>
      var managed := w.retired + (if w.registered.Some? then {w.registered.value} else {});
      w.(op := if w.op.NoOp? then NoOp else w.op.(token := true), records := Asked(w.records, managed))
    case Close => w.(closed := true, running := false)
    case Run => if w.closed then w else w.(running := true)
    case StartWorker(made) =>
      if w.registered.Some? && w.registered.value in w.records && MayStart(w, w.records[w.registered.value])
      then w.(records := w.records[w.registered.value := Launched(w.records[w.registered.value], made)]) else w
    case _ => w
  }

  // What a thread does to its instance.
  function ThreadStep(m: Managed, s: Step): Managed {
    match s
    case Retire(_, made) => Retired(m, made)
    case ThreadStarts(_) => if m.worker == Launching then m.(worker := Begun) else m
    case ThreadFails(_) =>
      if m.worker == Launching then m.(worker := Ended, initError := true, initialized := true) else m
    case LaunchOver(_) => if m.worker != Launching then m.(launching := false) else m
    case EnterStart(_) => if m.worker == Begun && !m.stop then m.(worker := InStart) else m
    case SkipStart(_) => if m.worker == Begun then m.(worker := Working, initialized := true) else m
    case StartReturns(_, ok) =>
      if m.worker != InStart then m
      else if ok then m.(worker := Working, initialized := true)
      else m.(worker := Working, initialized := true, initError := true, stop := true)
    case WorkerEnds(_) => if m.worker == Working then m.(worker := Ended) else m
    case CleanupStarts(_) => if m.cleanup == Published then m.(cleanup := Waiting) else m
    case CleanupFails(_) => if m.cleanup == Published then m.(cleanup := Over, failed := true, done := true) else m
    case EnterStop(_) => if m.cleanup == Waiting && m.initialized then m.(cleanup := InStop) else m
    case StopReturns(_, ok) =>
      if m.cleanup != InStop then m
      else if ok then m.(cleanup := Joining, stops := m.stops + 1)
      else m.(cleanup := Joining, failed := true)
    case JoinOver(_) => if m.cleanup == Joining then m.(cleanup := Leaving, done := true) else m
    case CleanupEnds(_) => if m.cleanup == Leaving then m.(cleanup := Over) else m
    case _ => m
  }

  predicate OnInstance(s: Step) {
    || s.Retire? || s.ThreadStarts? || s.ThreadFails? || s.LaunchOver? || s.EnterStart? || s.SkipStart?
    || s.StartReturns? || s.WorkerEnds? || s.CleanupStarts? || s.CleanupFails? || s.EnterStop? || s.StopReturns?
    || s.JoinOver? || s.CleanupEnds?
  }

  function Next(w: World, s: Step): World {
    if OnInstance(s) then
      if s.m in w.records then w.(records := w.records[s.m := ThreadStep(w.records[s.m], s)]) else w
    else RegistryStep(w, s)
  }

  function RunAll(w: World, steps: seq<Step>): World
    decreases |steps|
  {
    if steps == [] then w else RunAll(Next(w, steps[0]), steps[1..])
  }

  // ----- one instance -------------------------------------------------------

  predicate Sound(m: Managed) {
    && (!m.initialized <==> m.worker == Launching || m.worker == Begun || m.worker == InStart)
    && (m.worker == Launching ==> m.launching)
    && (m.retiring ==> m.stop)
    && (m.cleanup != NoCleanup ==> m.retiring)
    && (m.cleanup == InStop || m.cleanup == Joining || m.cleanup == Leaving ==> m.initialized)
    && (m.cleanup == Published || m.cleanup == Waiting || m.cleanup == InStop || m.cleanup == Joining ==> !m.done)
    && (m.cleanup == Leaving || m.cleanup == Over ==> m.done)
    && (m.done && !m.failed ==>
          m.retiring && m.initialized && m.stops == 1 && (m.cleanup == Leaving || m.cleanup == Over))
    && (m.stops > 0 ==> m.stops == 1 && !m.failed && (m.cleanup == Joining || m.done))
    && (m.cleanup == Published || m.cleanup == Waiting || m.cleanup == InStop ==> !m.failed && m.stops == 0)
    && (m.cleanup == Joining && !m.failed ==> m.stops == 1)
  }

  predicate OnWorker(s: Step) {
    || s.ThreadStarts? || s.ThreadFails? || s.LaunchOver? || s.EnterStart? || s.SkipStart? || s.StartReturns?
    || s.WorkerEnds?
  }

  lemma WorkerKeepsSound(m: Managed, s: Step)
    requires Sound(m) && OnWorker(s)
    ensures Sound(ThreadStep(m, s))
  {
  }

  lemma RetireKeepsSound(m: Managed, s: Step)
    requires Sound(m) && (s.Retire? || s.CleanupStarts? || s.CleanupFails? || s.CleanupEnds?)
    ensures Sound(ThreadStep(m, s))
  {
  }

  lemma StopKeepsSound(m: Managed, s: Step)
    requires Sound(m) && (s.EnterStop? || s.StopReturns? || s.JoinOver?)
    ensures Sound(ThreadStep(m, s))
  {
  }

  lemma ThreadKeepsSound(m: Managed, s: Step)
    requires Sound(m) && OnInstance(s)
    ensures Sound(ThreadStep(m, s))
  {
    if OnWorker(s) {
      WorkerKeepsSound(m, s);
    } else if s.EnterStop? || s.StopReturns? || s.JoinOver? {
      StopKeepsSound(m, s);
    } else {
      RetireKeepsSound(m, s);
    }
  }

  // The plugin's stop runs only once its start is over and will not begin again.
  lemma StopAfterStart(m: Managed)
    requires Sound(m) && (m.cleanup == InStop || m.cleanup == Joining || m.cleanup == Leaving || (m.done && !m.failed))
    ensures m.initialized && m.retiring && m.worker != Launching && m.worker != Begun && m.worker != InStart
  {
  }

  // ----- the registry -------------------------------------------------------

  ghost predicate Succeeds(w: World, m: nat) {
    w.op.Replacing? && w.op.successor == m
  }

  ghost predicate Known(w: World) {
    && (forall m :: m in w.records ==> m < w.next)
    && (w.registered.Some? ==> w.registered.value in w.records)
    && (forall m :: m in w.retired ==> m in w.records)
    && (w.op.Replacing? ==> w.op.successor in w.records)
  }

  // A replacement waits, and a refused one is retired, without ever having run.
  ghost predicate Spare(w: World, m: nat)
    requires m in w.records
  {
    m in w.retired || Succeeds(w, m) ==>
      w.records[m].worker == Never && !w.records[m].launching && w.registered != Some(m)
  }

  // Whatever is no longer held anywhere is complete.
  ghost predicate Located(w: World, m: nat)
    requires m in w.records
  {
    w.registered == Some(m) || m in w.retired || Succeeds(w, m) || Complete(w.records[m])
  }

  ghost predicate Reserved(w: World) {
    && (w.op.Registering? ==> w.retired == {} && (!w.op.installed ==> w.registered.None?))
    && (w.op.Creating? ==> w.retired == {})
    && (w.op.Replacing? ==> w.retired == {} && (w.op.gone ==> w.registered.None?))
  }

  ghost predicate Inv(w: World) {
    && Known(w) && Reserved(w)
    && forall m :: m in w.records ==> Sound(w.records[m]) && Spare(w, m) && Located(w, m)
  }

  lemma PruneKeepsInv(w: World)
    requires Inv(w)
    ensures Inv(Prune(w))
  {
    var w' := Prune(w);
    forall m | m in w'.records ensures Sound(w'.records[m]) && Spare(w', m) && Located(w', m) {
      assert Spare(w, m) && Located(w, m);
    }
  }

  lemma AddKeepsInv(w: World)
    requires Inv(w)
    ensures var w' := Add(w);
      Known(w') && w.next !in w.records && forall m :: m in w.records ==> w'.records[m] == w.records[m]
    ensures Sound(NewManaged()) && !MayRun(NewManaged())
  {
  }

  lemma InstallKeepsInv(w: World)
    requires Inv(w)
    ensures Inv(RegistryStep(w, Install))
  {
    var w' := RegistryStep(w, Install);
    AddKeepsInv(w);
    forall m | m in w'.records ensures Sound(w'.records[m]) && Spare(w', m) && Located(w', m) {
      if m in w.records { assert Spare(w, m) && Located(w, m); }
    }
  }

  lemma ReplacementKeepsInv(w: World)
    requires Inv(w)
    ensures Inv(RegistryStep(w, Replacement))
  {
    var w' := RegistryStep(w, Replacement);
    AddKeepsInv(w);
    forall m | m in w'.records ensures Sound(w'.records[m]) && Spare(w', m) && Located(w', m) {
      if m in w.records { assert Spare(w, m) && Located(w, m); }
    }
  }

  lemma MoveKeepsInv(w: World, s: Step)
    requires Inv(w) && (s == InstallReplacement || s == GiveUp || s == EndOp || s == CreateFailed || s == Close
      || s == Run)
    ensures Inv(RegistryStep(w, s))
  {
    var w' := RegistryStep(w, s);
    forall m | m in w'.records ensures Sound(w'.records[m]) && Spare(w', m) && Located(w', m) {
      assert Spare(w, m) && Located(w, m);
    }
  }

  lemma ReserveKeepsInv(w: World, s: Step)
    requires Inv(w) && (s.Reserve? || s.ReserveReplacement? || s == SeeGone || s == PruneStep)
    ensures Inv(RegistryStep(w, s))
  {
    PruneKeepsInv(w);
    var w1, w' := Prune(w), RegistryStep(w, s);
    forall m | m in w'.records ensures Sound(w'.records[m]) && Spare(w', m) && Located(w', m) {
      assert Spare(w1, m) && Located(w1, m);
    }
  }

  // An instance that changes alone keeps its place, when what is complete stays
  // complete and what has not been started stays so.
  lemma RecordsKeepInv(w: World, w': World)
    requires Inv(w) && w'.records.Keys == w.records.Keys && w'.next == w.next
    requires w'.registered == w.registered && w'.retired == w.retired
    requires w'.op == w.op || (w.op != NoOp && w'.op == w.op.(token := true))
    requires forall m :: m in w.records ==> Follows(w.records[m], w'.records[m], w.registered == Some(m))
    ensures Inv(w')
  {
    forall m | m in w'.records ensures Sound(w'.records[m]) && Spare(w', m) && Located(w', m) {
      assert Spare(w, m) && Located(w, m) && Follows(w.records[m], w'.records[m], w.registered == Some(m));
    }
  }

  ghost predicate Follows(m: Managed, m': Managed, registered: bool) {
    && Sound(m')
    && (Complete(m) ==> Complete(m') && m'.stops == m.stops)
    && (!registered && m.worker == Never && !m.launching ==> m'.worker == Never && !m'.launching)
  }

  lemma ThreadFollows(m: Managed, s: Step, registered: bool)
    requires Sound(m) && OnInstance(s)
    ensures Follows(m, ThreadStep(m, s), registered)
  {
    ThreadKeepsSound(m, s);
  }

  lemma StartFollows(w: World, m: Managed, made: bool)
    requires Sound(m) && MayStart(w, m)
    ensures Follows(m, Launched(m, made), true)
  {
  }

  lemma RequestKeepsInv(w: World)
    requires Inv(w)
    ensures Inv(RegistryStep(w, RequestStop))
  {
    var w' := RegistryStep(w, RequestStop);
    forall m | m in w.records ensures Follows(w.records[m], w'.records[m], w.registered == Some(m)) {
      assert Sound(w.records[m]);
    }
    RecordsKeepInv(w, w');
  }

  lemma OneFollows(w: World, id: nat, m': Managed)
    requires Inv(w) && id in w.records && Follows(w.records[id], m', w.registered == Some(id))
    ensures Inv(w.(records := w.records[id := m']))
  {
    var w' := w.(records := w.records[id := m']);
    forall m | m in w.records ensures Follows(w.records[m], w'.records[m], w.registered == Some(m)) {
      assert Sound(w.records[m]);
    }
    RecordsKeepInv(w, w');
  }

  lemma StartKeepsInv(w: World, made: bool)
    requires Inv(w)
    ensures Inv(RegistryStep(w, StartWorker(made)))
  {
    if w.registered.Some? && MayStart(w, w.records[w.registered.value]) {
      var r := w.registered.value;
      assert Sound(w.records[r]);
      StartFollows(w, w.records[r], made);
      OneFollows(w, r, Launched(w.records[r], made));
    }
  }

  lemma RegistryKeepsInv(w: World, s: Step)
    requires Inv(w) && !OnInstance(s)
    ensures Inv(RegistryStep(w, s))
  {
    match s {
      case Install => InstallKeepsInv(w);
      case Replacement => ReplacementKeepsInv(w);
      case RequestStop => RequestKeepsInv(w);
      case StartWorker(made) => StartKeepsInv(w, made);
      case Reserve(_) => ReserveKeepsInv(w, s);
      case ReserveReplacement(_) => ReserveKeepsInv(w, s);
      case SeeGone => ReserveKeepsInv(w, s);
      case PruneStep => ReserveKeepsInv(w, s);
      case _ => MoveKeepsInv(w, s);
    }
  }

  lemma ThreadKeepsInv(w: World, s: Step)
    requires Inv(w) && OnInstance(s) && s.m in w.records
    ensures Inv(w.(records := w.records[s.m := ThreadStep(w.records[s.m], s)]))
  {
    assert Sound(w.records[s.m]);
    ThreadFollows(w.records[s.m], s, w.registered == Some(s.m));
    OneFollows(w, s.m, ThreadStep(w.records[s.m], s));
  }

  // Every step of every thread keeps the registry in order.
  lemma StepKeepsInv(w: World, s: Step)
    requires Inv(w)
    ensures Inv(Next(w, s))
  {
    if !OnInstance(s) {
      RegistryKeepsInv(w, s);
    } else if s.m in w.records {
      ThreadKeepsInv(w, s);
    }
  }

  // ----- what it means ------------------------------------------------------

  // At most one instance has a worker, and it is the registered one.
  lemma OnlyRegisteredRuns(w: World, m: nat)
    requires Inv(w) && m in w.records && MayRun(w.records[m])
    ensures w.registered == Some(m)
  {
    assert Spare(w, m) && Located(w, m) && Sound(w.records[m]);
  }

  lemma OnlyInstallsRegister(w: World, s: Step)
    requires Next(w, s).registered.Some? && Next(w, s).registered != w.registered
    ensures s == Install || s == InstallReplacement
  {
  }

  // When an operation installs an instance, no other may still run, and every
  // other is complete or was never started.
  lemma InstallsAlone(w: World, s: Step, m: nat)
    requires Inv(w) && m in w.records
    requires Next(w, s).registered.Some? && Next(w, s).registered != w.registered && Next(w, s).registered != Some(m)
    ensures Complete(Next(w, s).records[m])
    ensures w.registered.None?
  {
    OnlyInstallsRegister(w, s);
    StepKeepsInv(w, s);
    assert Located(Next(w, s), m) && Located(w, m);
  }

  lemma RequestKeepsComplete(w: World, m: nat)
    requires Inv(w) && m in w.records && Complete(w.records[m])
    ensures m in RegistryStep(w, RequestStop).records && RegistryStep(w, RequestStop).records[m] == w.records[m]
  {
    assert Sound(w.records[m]);
  }

  lemma OthersKeepComplete(w: World, s: Step, m: nat)
    requires Inv(w) && m in w.records && Complete(w.records[m]) && !OnInstance(s) && s != RequestStop
    ensures m in RegistryStep(w, s).records && RegistryStep(w, s).records[m] == w.records[m]
  {
    assert m < w.next;
  }

  lemma ThreadsKeepComplete(w: World, s: Step, m: nat)
    requires Inv(w) && m in w.records && Complete(w.records[m]) && OnInstance(s)
    ensures m in Next(w, s).records
    ensures Complete(Next(w, s).records[m]) && Next(w, s).records[m].stops == w.records[m].stops
  {
    if s.m == m { ThreadFollows(w.records[m], s, w.registered == Some(m)); }
  }

  lemma CompleteStopsOnce(w: World, m: nat)
    requires Inv(w) && m in w.records && Complete(w.records[m])
    ensures w.records[m].stops == 1
  {
    assert Sound(w.records[m]);
  }

  // What is complete stays complete, is never started or stopped again.
  lemma CompleteForGood(w: World, s: Step, m: nat)
    requires Inv(w) && m in w.records && Complete(w.records[m])
    ensures m in Next(w, s).records
    ensures Complete(Next(w, s).records[m]) && Next(w, s).records[m].stops == w.records[m].stops == 1
  {
    CompleteStopsOnce(w, m);
    if OnInstance(s) {
      ThreadsKeepComplete(w, s, m);
    } else if s == RequestStop {
      RequestKeepsComplete(w, m);
    } else {
      OthersKeepComplete(w, s, m);
    }
  }

  // Over all interleavings: one worker at most, no stop while a start is under
  // way, one successful stop at most, and an instance leaves only when complete.
  lemma {:induction false} EveryRunHasOneOwner(w: World, steps: seq<Step>)
    requires Inv(w)
    ensures var w' := RunAll(w, steps);
      && Inv(w')
      && (forall a, b :: a in w'.records && b in w'.records && MayRun(w'.records[a]) && MayRun(w'.records[b])
           ==> a == b)
      && (forall m :: m in w'.records ==>
            && !(w'.records[m].worker == InStart && w'.records[m].cleanup == InStop)
            && w'.records[m].stops <= 1
            && (w'.registered == Some(m) || m in w'.retired || Succeeds(w', m) || Complete(w'.records[m])))
      && (forall m :: m in w.records && Complete(w.records[m]) ==> m in w'.records && Complete(w'.records[m]))
    decreases |steps|
  {
    if steps != [] {
      StepKeepsInv(w, steps[0]);
      forall m | m in w.records && Complete(w.records[m])
        ensures m in Next(w, steps[0]).records && Complete(Next(w, steps[0]).records[m]) {
        CompleteForGood(w, steps[0], m);
      }
      EveryRunHasOneOwner(Next(w, steps[0]), steps[1..]);
    } else {
      forall a, b | a in w.records && b in w.records && MayRun(w.records[a]) && MayRun(w.records[b]) ensures a == b {
        OnlyRegisteredRuns(w, a);
        OnlyRegisteredRuns(w, b);
      }
      forall m | m in w.records ensures Located(w, m) && Sound(w.records[m]) {}
    }
  }

  lemma EmptyIsInv()
    ensures Inv(Empty()) && AllOver(Empty()) && Empty().op == NoOp && !Empty().closed && !Empty().running
  {
  }

  // ----- nothing is ever stuck ----------------------------------------------

  // A cleanup has to be published: there is none, or the last one failed.
  predicate NeedsCleanup(m: Managed) {
    m.cleanup == NoCleanup || (m.cleanup == Over && m.failed)
  }

  function WorkerLeft(t: Worker): nat {
    match t
    case Never => 0
    case Ended => 0
    case Working => 1
    case InStart => 2
    case Begun => 2
    case Launching => 3
  }

  function CleanupLeft(c: Cleanup, failed: bool): nat {
    match c
    case NoCleanup => 6
    case Published => 5
    case Waiting => 4
    case InStop => 3
    case Joining => if failed then 9 else 2
    case Leaving => if failed then 8 else 1
    case Over => if failed then 7 else 0
  }

  function Left(m: Managed): nat {
    WorkerLeft(m.worker) + CleanupLeft(m.cleanup, m.failed)
  }

  // What the worker does next on the way to the end of the instance, ...
  function NextOfWorker(t: Worker, id: nat): Step {
    match t
    case Launching => ThreadStarts(id)
    case Begun => SkipStart(id)
    case InStart => StartReturns(id, true)
    case _ => WorkerEnds(id)
  }

  // ... and once it has ended, what the cleanup does.
  function NextOfCleanup(c: Cleanup, failed: bool, id: nat): Step {
    match c
    case NoCleanup => Retire(id, true)
    case Published => CleanupStarts(id)
    case Waiting => EnterStop(id)
    case InStop => StopReturns(id, true)
    case Joining => JoinOver(id)
    case Leaving => CleanupEnds(id)
    case Over => Retire(id, true)
  }

  function NextOf(m: Managed, id: nat): Step {
    if WorkerLeft(m.worker) > 0 then NextOfWorker(m.worker, id) else NextOfCleanup(m.cleanup, m.failed, id)
  }

  lemma WorkerGoesOn(m: Managed, id: nat)
    requires WorkerLeft(m.worker) > 0
    ensures WorkerLeft(ThreadStep(m, NextOfWorker(m.worker, id)).worker) < WorkerLeft(m.worker)
    ensures ThreadStep(m, NextOfWorker(m.worker, id)).cleanup == m.cleanup
    ensures ThreadStep(m, NextOfWorker(m.worker, id)).failed == m.failed
  {
    var s := NextOfWorker(m.worker, id);
    if m.worker == Launching {
      assert s == ThreadStarts(id);
    } else if m.worker == Begun {
      assert s == SkipStart(id);
    } else if m.worker == InStart {
      assert s == StartReturns(id, true);
    } else {
      assert m.worker == Working && s == WorkerEnds(id);
    }
  }

  lemma CleanupGoesOn(m: Managed, id: nat)
    requires Sound(m) && WorkerLeft(m.worker) == 0 && CleanupLeft(m.cleanup, m.failed) > 0
    ensures ThreadStep(m, NextOfCleanup(m.cleanup, m.failed, id)).worker == m.worker
    ensures var m' := ThreadStep(m, NextOfCleanup(m.cleanup, m.failed, id));
      CleanupLeft(m'.cleanup, m'.failed) < CleanupLeft(m.cleanup, m.failed)
  {
    var s := NextOfCleanup(m.cleanup, m.failed, id);
    if m.cleanup == NoCleanup || m.cleanup == Over {
      assert s == Retire(id, true) && Retired(m, true).cleanup == Published;
    } else if m.cleanup == Published {
      assert s == CleanupStarts(id);
    } else if m.cleanup == Waiting {
      assert s == EnterStop(id) && m.initialized;
    } else if m.cleanup == InStop {
      assert s == StopReturns(id, true);
    } else if m.cleanup == Joining {
      assert s == JoinOver(id);
    } else {
      assert s == CleanupEnds(id);
    }
  }

  lemma NextGoesOn(m: Managed, id: nat)
    requires Sound(m) && Left(m) > 0
    ensures var m' := ThreadStep(m, NextOf(m, id)); Sound(m') && Left(m') < Left(m)
    ensures OnInstance(NextOf(m, id)) && NextOf(m, id).m == id
  {
    ThreadKeepsSound(m, NextOf(m, id));
    if WorkerLeft(m.worker) > 0 { WorkerGoesOn(m, id); } else { CleanupGoesOn(m, id); }
  }

  lemma NothingLeft(m: Managed)
    requires Sound(m) && Left(m) == 0
    ensures Complete(m)
  {
  }

  // The steps that end an instance, from wherever its threads stand.
  function Wind(m: Managed, id: nat): (steps: seq<Step>)
    requires Sound(m)
    ensures Of(steps, id)
    decreases Left(m)
  {
    if Left(m) == 0 then []
    else
      NextGoesOn(m, id);
      [NextOf(m, id)] + Wind(ThreadStep(m, NextOf(m, id)), id)
  }

  predicate Of(steps: seq<Step>, id: nat) {
    forall k :: 0 <= k < |steps| ==> OnInstance(steps[k]) && steps[k].m == id
  }

  function Through(m: Managed, steps: seq<Step>): Managed
    decreases |steps|
  {
    if steps == [] then m else Through(ThreadStep(m, steps[0]), steps[1..])
  }

  lemma {:induction false} WindEnds(m: Managed, id: nat)
    requires Sound(m)
    ensures Complete(Through(m, Wind(m, id)))
    decreases Left(m)
  {
    if Left(m) == 0 {
      NothingLeft(m);
    } else {
      NextGoesOn(m, id);
      WindEnds(ThreadStep(m, NextOf(m, id)), id);
      assert Wind(m, id)[1..] == Wind(ThreadStep(m, NextOf(m, id)), id);
    }
  }

  lemma {:induction false} ThreadsAlone(w: World, id: nat, steps: seq<Step>)
    requires id in w.records && Of(steps, id)
    ensures RunAll(w, steps) == w.(records := w.records[id := Through(w.records[id], steps)])
    decreases |steps|
  {
    if steps == [] {
      assert w.records[id := w.records[id]] == w.records;
    } else {
      var w1 := Next(w, steps[0]);
      ThreadsAlone(w1, id, steps[1..]);
      var end := Through(w.records[id], steps);
      assert w1.records[id := end] == w.records[id := end];
    }
  }

  // No reachable state of an instance is stuck: its own threads can end it,
  // wherever they stand, and nothing else changes.
  lemma EveryInstanceCanEnd(w: World, id: nat)
    requires Inv(w) && id in w.records
    ensures exists steps :: Of(steps, id) && Ends(w, RunAll(w, steps), id)
  {
    assert Sound(w.records[id]);
    var steps := Wind(w.records[id], id);
    WindEnds(w.records[id], id);
    ThreadsAlone(w, id, steps);
    assert Ends(w, RunAll(w, steps), id);
  }

  ghost predicate Ends(w: World, w': World, id: nat) {
    id in w'.records && Complete(w'.records[id]) && w' == w.(records := w.records[id := w'.records[id]])
  }

  // A launched worker enters the plugin's start unless the instance was asked to
  // stop meanwhile, and is then up; a start that fails asks for the stop itself.
  lemma WorkerComesUp(m: Managed, id: nat, ok: bool)
    requires m.worker == Launching
    ensures var up := ThreadStep(ThreadStep(m, ThreadStarts(id)), EnterStart(id));
      && (up.worker == InStart <==> !m.stop)
      && (!m.stop ==>
            var on := ThreadStep(ThreadStep(up, StartReturns(id, ok)), LaunchOver(id));
            && on.worker == Working && on.initialized && !on.launching
            && (on.stop <==> !ok) && (on.initError <==> m.initError || !ok))
    ensures var failed := ThreadStep(m, ThreadFails(id));
      failed.worker == Ended && failed.initialized && failed.initError
  {
  }

  // Retiring asks an instance to stop and publishes a cleanup exactly when it needs
  // one; one that cannot be made counts as failed.
  lemma RetiringPublishes(m: Managed, id: nat, made: bool)
    requires Sound(m)
    ensures var m' := ThreadStep(m, Retire(id, made));
      && m'.retiring && m'.stop && m'.worker == m.worker && m'.stops == m.stops
      && (!NeedsCleanup(m) ==> m' == m.(retiring := true, stop := true))
      && (NeedsCleanup(m) && made ==> m'.cleanup == Published && !m'.done && !m'.failed)
      && (NeedsCleanup(m) && !made ==> m'.cleanup == m.cleanup && m'.done && m'.failed)
  {
  }

  // A cleanup waits for the plugin's start to be over and then calls its stop; one
  // that fails there, or cannot start, is over but has to be published again.
  lemma CleanupRuns(m: Managed, id: nat, ok: bool)
    requires Sound(m)
    ensures m.cleanup == Waiting ==> (ThreadStep(m, EnterStop(id)).cleanup == InStop <==> m.initialized)
    ensures m.cleanup == InStop ==>
              var over := ThreadStep(ThreadStep(ThreadStep(m, StopReturns(id, ok)), JoinOver(id)), CleanupEnds(id));
              && over.cleanup == Over && over.done && (over.failed <==> !ok) && (NeedsCleanup(over) <==> !ok)
              && over.stops == (if ok then 1 else 0)
    ensures m.cleanup == Published ==> NeedsCleanup(ThreadStep(m, CleanupFails(id)))
  {
  }

  // What was retired is over, and so is the registered instance.
  ghost predicate RetiredOver(w: World) {
    forall m :: m in w.retired ==> m in w.records && Complete(w.records[m])
  }

  ghost predicate AllOver(w: World) {
    && (w.registered.Some? ==> w.registered.value in w.records && Complete(w.records[w.registered.value]))
    && RetiredOver(w)
  }

  lemma PruneMeans(w: World)
    requires Known(w)
    ensures Prune(w).retired == {} <==> RetiredOver(w)
    ensures Prune(w).registered ==
      (if w.registered.Some? && !Complete(w.records[w.registered.value]) then w.registered else None)
  {
    if Prune(w).retired == {} {
      forall m | m in w.retired ensures Complete(w.records[m]) { assert m !in Prune(w).retired; }
    }
  }

  // The id is reserved for a first instance exactly when the supervisor is open,
  // no operation is under way and everything before is over; then nothing of it
  // is held any more.
  lemma ReservesWhenOver(w: World, cancelled: bool)
    requires Known(w)
    ensures var w' := Next(w, Reserve(cancelled));
      && (w'.op != w.op <==> !w.closed && w.op == NoOp && AllOver(w))
      && (w'.op != w.op ==> w'.op == Registering(cancelled, false) && w'.registered.None? && w'.retired == {})
  {
    PruneMeans(w);
  }

  // It is reserved for a replacement exactly when, besides, an instance is
  // registered that is not stopping; that instance stays registered.
  lemma ReplacesWhenRunning(w: World, cancelled: bool)
    requires Known(w)
    ensures var w' := Next(w, ReserveReplacement(cancelled));
      && (w'.op != w.op <==>
            && !w.closed && w.op == NoOp && RetiredOver(w)
            && w.registered.Some? && !w.records[w.registered.value].retiring)
      && (w'.op != w.op ==> w'.op == Creating(cancelled) && w'.registered == w.registered && w'.retired == {})
  {
    PruneMeans(w);
  }

  predicate Untouched(m: Managed) {
    !m.stop && !m.retiring && !m.launching && !MayRun(m) && !m.done && !m.failed && !m.initError && m.stops == 0
  }

  // An operation that has reserved the id makes one new instance: the first one is
  // registered at once, ...
  lemma FirstInstalls(w: World)
    requires w.op.Registering? && !w.op.installed
    ensures var w' := Next(w, Install);
      && w'.registered == Some(w.next) && w.next in w'.records && w'.records[w.next] == NewManaged()
      && Untouched(w'.records[w.next])
      && w'.op == Registering(w.op.token, true)
      && Next(w', EndOp) == w'.(op := NoOp) && Next(w, CreateFailed) == w.(op := NoOp)
  {
  }

  // ... a replacement waits until the one before it is over, ...
  lemma ReplacementWaits(w: World)
    requires Known(w)
    ensures w.op.Creating? ==>
              var w' := Next(w, Replacement);
              && w'.op == Replacing(w.op.token, w.next, false) && w'.registered == w.registered
              && w.next in w'.records && w'.records[w.next] == NewManaged()
              && Next(w, CreateFailed) == w.(op := NoOp)
    ensures w.op.Replacing? && !w.op.gone ==> (Next(w, SeeGone).op == w.op.(gone := true) <==> AllOver(w))
  {
    PruneMeans(w);
  }

  // ... and is then registered, unless it was cancelled or the supervisor closed;
  // given up, it is retired.
  lemma ReplacementInstalls(w: World)
    requires w.op.Replacing?
    ensures w.op.gone && !w.op.token && !w.closed ==>
              && Next(w, InstallReplacement).registered == Some(w.op.successor)
              && Next(w, InstallReplacement).op == Registering(w.op.token, true)
    ensures !w.op.gone || w.op.token || w.closed ==> Next(w, InstallReplacement) == w
    ensures w.op.successor in Next(w, GiveUp).retired && Next(w, GiveUp).op == NoOp
  {
  }

  lemma CloseCloses(w: World)
    ensures Next(w, Close) == w.(closed := true, running := false)
    ensures Next(w, Run).running <==> w.running || !w.closed
  {
  }

  lemma RegistryStaysClosed(w: World, s: Step)
    requires w.closed && !w.running && !OnInstance(s)
    ensures RegistryStep(w, s).closed && !RegistryStep(w, s).running
  {
  }

  // A closed supervisor stays closed and runs nothing, ...
  lemma StaysClosed(w: World, s: Step)
    requires w.closed && !w.running
    ensures Next(w, s).closed && !Next(w, s).running
  {
    if !OnInstance(s) { RegistryStaysClosed(w, s); }
  }

  // ... and launches and registers nothing more.
  lemma ClosedLaunchesNothing(w: World, made: bool)
    requires w.closed
    ensures Next(w, StartWorker(made)) == w && Next(w, InstallReplacement) == w
  {
  }

  // A stop asks every instance of the id to stop, and no other, and cancels the
  // operation under way.
  lemma StopAsksAll(w: World)
    requires Known(w)
    ensures var w' := Next(w, RequestStop);
      && (forall m :: m in w.retired || w.registered == Some(m) ==>
            m in w'.records && w'.records[m] == w.records[m].(retiring := true, stop := true))
      && (forall m :: m in w.records && m !in w.retired && w.registered != Some(m) ==>
            m in w'.records && w'.records[m] == w.records[m])
      && (w.op != NoOp ==> w'.op != NoOp && w'.op.token)
  {
  }

  // A worker is launched exactly for a registered instance that was never asked to
  // stop and has none, in an open supervisor; one that cannot be made leaves the
  // instance as if its start had failed.
  lemma StartsExactly(w: World, made: bool, id: nat)
    requires w.registered == Some(id) && id in w.records && Sound(w.records[id])
    ensures var (w', m) := (Next(w, StartWorker(made)), w.records[id]);
      if m.stop || w.closed || m.launching || MayRun(m) then w' == w
      else id in w'.records && w' == w.(records := w.records[id := w'.records[id]]) && Launches(w'.records[id], made)
  {
    LaunchedLaunches(w.records[id], made);
  }

  ghost predicate Launches(m: Managed, made: bool) {
    if made then m.worker == Launching && m.launching && !m.initialized
    else m.initError && m.initialized && m.worker == Never
  }

  lemma LaunchedLaunches(m: Managed, made: bool)
    ensures Launches(Launched(m, made), made)
  {
  }

  // ----- the supervisor's own sections --------------------------------------

  function Held(retired: seq<nat>): set<nat> {
    set m | m in retired
  }

  lemma NoneHeld(retired: seq<nat>)
    ensures Held(retired) == {} <==> retired == []
  {
    if retired != [] { assert retired[0] in Held(retired); }
  }

  lemma AskedOne(records: map<nat, Managed>, asked: set<nat>, m: nat)
    requires m in records
    ensures Asked(records, asked + {m})
      == Asked(records, asked)[m := Asked(records, asked)[m].(retiring := true, stop := true)]
  {
  }

  lemma AskedNone(records: map<nat, Managed>)
    ensures Asked(records, {}) == records
  {
  }

  lemma AskedTwice(records: map<nat, Managed>, a: set<nat>, b: set<nat>)
    ensures Asked(Asked(records, a), b) == Asked(records, b + a)
  {
  }

  class Supervisor {
    var records: map<nat, Managed>
    var next: nat
    var registered: Option<nat>
    var retired: seq<nat>
    var op: Op
    var closed: bool
    var running: bool

    constructor ()
      ensures State() == Empty() && Inv(State())
    {
      records, next, registered, retired, op, closed, running := map[], 0, None, [], NoOp, false, false;
      new;
      EmptyIsInv();
    }

    ghost function State(): World
      reads this
    {
      World(records, next, registered, Held(retired), op, closed, running)
    }

    method Prune()
      requires Known(State())
      modifies this`registered, this`retired
      ensures State() == Next(old(State()), PruneStep)
    {
      if registered.Some? && Complete(records[registered.value]) {
        registered := None;
      }
      var held: seq<nat> := [];
      var i := 0;
      while i < |retired|
        invariant 0 <= i <= |retired|
        invariant forall m :: m in held <==> m in retired[..i] && !Complete(records[m])
      {
        if !Complete(records[retired[i]]) { held := held + [retired[i]]; }
        i := i + 1;
      }
      retired := held;
    }

    // Reserves the id for a first instance.
    method Register(cancelled: bool) returns (reserved: bool)
      requires Known(State())
      modifies this`registered, this`retired, this`op
      ensures State() == Next(old(State()), Reserve(cancelled))
      ensures reserved ==> registered.None? && retired == [] && op == Registering(cancelled, false)
    {
      Prune();
      if closed || registered.Some? || op != NoOp || retired != [] {
        NoneHeld(retired);
        return false;
      }
      op := Registering(cancelled, false);
      return true;
    }

    // Reserves the id for a replacement of the instance registered.
    method Reconfigure(cancelled: bool) returns (reserved: bool)
      requires Known(State())
      modifies this`registered, this`retired, this`op
      ensures State() == Next(old(State()), ReserveReplacement(cancelled))
      ensures reserved ==> registered.Some? && !records[registered.value].retiring
    {
      Prune();
      NoneHeld(retired);
      if registered.None? || records[registered.value].retiring || op != NoOp || retired != [] || closed {
        return false;
      }
      op := Creating(cancelled);
      return true;
    }

    // The old instance is gone: neither registered nor retired.
    method OldGone() returns (gone: bool)
      requires Known(State()) && op.Replacing?
      modifies this`registered, this`retired, this`op
      ensures State() == Next(old(State()), SeeGone)
    {
      Prune();
      NoneHeld(retired);
      gone := registered.None? && retired == [];
      if gone { op := op.(gone := true); }
    }

    method Replace() returns (installed: bool)
      requires op.Replacing? && op.gone
      modifies this`registered, this`op
      ensures State() == Next(old(State()), InstallReplacement)
      ensures installed <==> !old(op.token) && !closed
    {
      if op.token || closed { return false; }
      registered, op := Some(op.successor), Registering(op.token, true);
      return true;
    }

    // Asks every instance of the id to stop, and cancels the operation under way.
    method Stop()
      requires Known(State())
      modifies this`op, this`records
      ensures State() == Next(old(State()), RequestStop)
    {
      ghost var was, first: set<nat> := records, if registered.Some? then {registered.value} else {};
      if op != NoOp { op := op.(token := true); }
      AskedNone(was);
      if registered.Some? { Ask(registered.value); }
      AskRetired();
      AskedTwice(was, first, Held(retired));
    }

    method AskRetired()
      requires forall m :: m in retired ==> m in records
      modifies this`records
      ensures records == Asked(old(records), Held(retired))
    {
      ghost var was, asked: set<nat> := records, {};
      AskedNone(was);
      var i := 0;
      while i < |retired|
        invariant 0 <= i <= |retired|
        invariant asked == Held(retired[..i]) && records == Asked(was, asked)
      {
        AskedOne(was, asked, retired[i]);
        assert retired[..i + 1] == retired[..i] + [retired[i]];
        Ask(retired[i]);
        asked := asked + {retired[i]};
        i := i + 1;
      }
      assert retired[..i] == retired;
    }

    method Ask(m: nat)
      requires m in records
      modifies this`records
      ensures records == old(records)[m := old(records)[m].(retiring := true, stop := true)]
      ensures records == Asked(old(records), {m})
    {
      records := records[m := records[m].(retiring := true, stop := true)];
    }

    // Marks an instance as retiring and publishes its one cleanup.
    method RetireOne(m: nat, made: bool)
      requires m in records
      modifies this`records
      ensures State() == Next(old(State()), Retire(m, made))
    {
      records := records[m := records[m].(retiring := true, stop := true)];
      var r := records[m];
      if r.cleanup != NoCleanup && (!r.done || r.cleanup == Leaving) { return; }
      if r.done && !r.failed { return; }
      if !made {
        records := records[m := r.(done := true, failed := true)];
        return;
      }
      records := records[m := r.(done := false, failed := false, cleanup := Published)];
    }

    // Publishes a worker for the instance registered, unless it must not start.
    method StartOne(made: bool)
      requires Known(State())
      modifies this`records
      ensures State() == Next(old(State()), StartWorker(made))
    {
      if registered.None? { return; }
      var m := records[registered.value];
      if m.retiring || m.stop || closed || m.launching || IsAlive(m.worker) { return; }
      if made {
        records := records[registered.value := m.(launching := true, initialized := false, worker := Launching)];
      } else {
        records := records[registered.value := m.(initialized := true, initError := true, worker := Never)];
      }
    }
  }
}
