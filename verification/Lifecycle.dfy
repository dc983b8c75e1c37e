// Shutdown of a process: the registry that runs every cleanup once, and the
// coordinator that defers a launcher's cleanup until its startup has unwound.
// Any number of threads call `shutdown` and `stop`; one calls `finish`. Each
// step is what one of them does between two points where others may run.
module Lifecycle {
  import opened Wrappers

  // Who called the coordinator's `stop`: nobody known, the registry running its
  // callbacks, or `finish`.
  datatype Caller = Direct | FromShutdown | FromFinish

  datatype Pc =
    | ShutdownEntry            // about to test and set the sticky stop request
    | StopEntry(caller: Caller)
    | Revoking(caller: Caller) // about to take the revoke lock
    | Deactivating(caller: Caller)
    | Deciding(caller: Caller) // about to decide, under the lock, whether to clean
    | Cleaning(caller: Caller)
    | FinishEntry
    | CallbacksEnd             // the registry has run every callback
    | ReleasingHold
    | Completing               // about to claim completion, if it is ready
    | Announcing               // claimed; about to set the stopped event
    | Ended

  // One activation of a method, on one thread (a signal handler runs on the
  // thread it interrupts).
  datatype Frame = Frame(thread: nat, pc: Pc)

  datatype Hold = Unheld | Holding | Dropped

  datatype Registry = Registry(
    done: bool, callbacksDone: bool, otherHolds: nat, claimed: bool, stopped: bool, registered: bool)

  datatype Coordinator = Coordinator(
    constructed: bool, hold: Hold, cancelled: bool, starting: bool, deactivated: bool, cleaned: bool,
    revoker: Option<nat>)

  // What has happened so far: the activations that set the stop request, that
  // finish the startup, that deactivate, that set the cleaned flag and that clean;
  // how many deactivations and cleanups began, and whether they ended; and whether
  // a deactivation that raised left the cleanup to nobody.
  datatype Past = Past(
    shutter: Option<nat>, finisher: Option<nat>,
    deactivator: Option<nat>, deactivations: nat, deactivationEnded: bool, deactivationFailed: bool, abandoned: bool,
    marker: Option<nat>, cleaner: Option<nat>, cleanups: nat, cleanupEnded: bool)

  datatype World = World(r: Registry, c: Coordinator, p: Past, frames: map<nat, Frame>)

  const BOOT := World(
    Registry(false, false, 0, false, false, false),
    Coordinator(false, Unheld, false, true, false, false, None),
    Past(None, None, None, 0, false, false, false, None, None, 0, false),
    map[])

  datatype Action =
    | Construct
    | Register
    | TakeHold
    | DropHold(id: nat, thread: nat)
    | Call(id: nat, thread: nat, entry: Pc)
    | Advance(id: nat, raises: bool)

  predicate IsEntry(pc: Pc) {
    pc == ShutdownEntry || pc == StopEntry(Direct) || pc == FinishEntry
  }

  // Activations on one thread nest: only the latest that has not ended moves on.
  predicate OnTop(w: World, id: nat)
    requires id in w.frames
  {
    forall j :: j in w.frames && w.frames[j].thread == w.frames[id].thread && !w.frames[j].pc.Ended? ==> j <= id
  }

  predicate IsNew(w: World, id: nat) {
    forall j :: j in w.frames ==> j < id
  }

  predicate Enabled(w: World, a: Action) {
    match a
    case Construct => !w.c.constructed
    case Register => w.c.constructed
    case TakeHold => !w.r.claimed
    case DropHold(id, _) => w.r.otherHolds > 0 && IsNew(w, id)
    case Call(id, thread, entry) =>
      && IsNew(w, id) && IsEntry(entry)
      && (entry == StopEntry(Direct) ==> w.c.constructed)
      // a launcher registers `stop` before its startup can finish, and finishes
      // it from its own code, not from a signal handler or a callback
      && (entry == FinishEntry ==>
            && w.c.constructed && w.r.registered && w.p.finisher.None?
            && forall j :: j in w.frames && w.frames[j].thread == thread ==> w.frames[j].pc.Ended?)
    case Advance(id, _) =>
      && id in w.frames && !w.frames[id].pc.Ended? && OnTop(w, id)
      // the revoke lock is reentrant
      && (w.frames[id].pc.Revoking? ==> w.c.revoker.None? || w.c.revoker.value == w.frames[id].thread)
  }

  // Where a `stop` returns to, and where an exception out of it goes. `finish`
  // cleans after its `stop` returned, and gives up its hold in any case.
  function AfterStop(c: Caller): Pc {
    match c
    case Direct => Ended
    case FromShutdown => CallbacksEnd
    case FromFinish => ReleasingHold
  }

  // A deactivation that raises in this caller's `stop` leaves nobody to clean: the
  // startup's own `finish` goes no further, and the registry's `stop` was the one
  // to clean when startup was over and the cleanup not taken on.
  predicate Abandons(c: Coordinator, who: Caller) {
    who.FromFinish? || (who.FromShutdown? && !c.starting && !c.cleaned)
  }

  predicate InStop(pc: Pc) {
    pc.StopEntry? || pc.Revoking? || pc.Deactivating? || pc.Deciding? || pc.Cleaning?
  }

  // One step of the coordinator's `stop` by activation `id` on `thread`.
  function StopStep(c: Coordinator, p: Past, id: nat, thread: nat, pc: Pc, raises: bool): (Coordinator, Past, Pc)
    requires InStop(pc)
  {
    match pc
    case StopEntry(who) => (c.(cancelled := true), p, Revoking(who))
    case Revoking(who) =>
      if c.deactivated then (c, p, Deciding(who))
      else (c.(deactivated := true, revoker := Some(thread)),
            p.(deactivator := Some(id), deactivations := p.deactivations + 1), Deactivating(who))
    case Deactivating(who) =>
      (c.(revoker := None),
       p.(deactivationEnded := true, deactivationFailed := raises, abandoned := raises && Abandons(c, who)),
       if raises then AfterStop(who) else Deciding(who))
    case Deciding(who) =>
      if (!c.starting && !c.cleaned) || who.FromFinish?
      then (c.(cleaned := true),
            p.(marker := if c.cleaned then p.marker else Some(id), cleaner := Some(id), cleanups := p.cleanups + 1),
            Cleaning(who))
      else (c, p, AfterStop(who))
    case Cleaning(who) => (c, p.(cleanupEnded := true), AfterStop(who))
  }

  // The locked part of `finish`: whether it is the one to clean.
  function FinishStep(c: Coordinator, p: Past, id: nat, done: bool): (Coordinator, Past, Pc) {
    var clean := (c.cancelled || done) && !c.cleaned;
    (c.(starting := false, cleaned := c.cleaned || clean),
     p.(marker := if clean then Some(id) else p.marker),
     if clean then StopEntry(FromFinish) else ReleasingHold)
  }

  // One step of the registry's `shutdown` and `_complete_if_ready`.
  function RegistryStep(r: Registry, hold: Hold, pc: Pc): (Registry, Pc) {
    match pc
    case ShutdownEntry =>
      if r.done then (r, Ended) else (r.(done := true), if r.registered then StopEntry(FromShutdown) else CallbacksEnd)
    case CallbacksEnd => (r.(callbacksDone := true), Completing)
    case Completing =>
      if r.done && r.callbacksDone && r.otherHolds == 0 && !hold.Holding? && !r.claimed
      then (r.(claimed := true), Announcing)
      else (r, Ended)
    case Announcing => (r.(stopped := true), Ended)
    case _ => (r, pc)
  }

  function Next(w: World, a: Action): World
    requires Enabled(w, a)
  {
    match a
    case Construct => w.(c := w.c.(constructed := true, hold := if w.r.claimed then Unheld else Holding))
    case Register => w.(r := w.r.(registered := true))
    case TakeHold => w.(r := w.r.(otherHolds := w.r.otherHolds + 1))
    case DropHold(id, thread) =>
      w.(r := w.r.(otherHolds := w.r.otherHolds - 1), frames := w.frames[id := Frame(thread, Completing)])
    case Call(id, thread, entry) =>
      w.(frames := w.frames[id := Frame(thread, entry)],
         p := if entry.FinishEntry? then w.p.(finisher := Some(id)) else w.p)
    case Advance(id, raises) =>
      var f := w.frames[id];
      if f.pc.FinishEntry? then
        var (c, p, pc) := FinishStep(w.c, w.p, id, w.r.done);
        w.(c := c, p := p, frames := w.frames[id := Frame(f.thread, pc)])
      else if f.pc.ReleasingHold? then
        w.(c := w.c.(hold := if w.c.hold.Holding? then Dropped else w.c.hold),
           frames := w.frames[id := Frame(f.thread, Completing)])
      else if InStop(f.pc) then
        var (c, p, pc) := StopStep(w.c, w.p, id, f.thread, f.pc, raises);
        w.(c := c, p := p, frames := w.frames[id := Frame(f.thread, pc)])
      else
        var (r, pc) := RegistryStep(w.r, w.c.hold, f.pc);
        var p := if f.pc.ShutdownEntry? && !w.r.done then w.p.(shutter := Some(id)) else w.p;
        w.(r := r, p := p, frames := w.frames[id := Frame(f.thread, pc)])
  }

  // ----- the invariant ------------------------------------------------------

  // What is known of one activation from the step it is about to take. Whoever
  // has got past the revoke lock finds the deactivation over, unless it runs on
  // the deactivating thread itself.
  ghost predicate FrameInv(w: World, id: nat, f: Frame) {
    && (f.pc.Deactivating? ==>
          w.p.deactivator == Some(id) && w.c.revoker == Some(f.thread) && w.c.deactivated && !w.p.deactivationEnded)
    && (f.pc.Deciding? || f.pc.Cleaning? ==>
          w.c.deactivated && (w.p.deactivationEnded || w.c.revoker == Some(f.thread)))
    && (f.pc.Cleaning? ==> w.p.cleaner == Some(id) && !w.p.cleanupEnded)
    && (f.pc.FinishEntry? ==> w.p.finisher == Some(id) && w.c.starting && !w.c.hold.Dropped?)
    && (f.pc.ReleasingHold? ==> w.p.finisher == Some(id) && !w.c.hold.Dropped? && !w.c.starting)
    && (InStop(f.pc) ==> w.c.constructed)
    && (InStop(f.pc) && f.pc.caller.FromFinish? ==>
          && w.p.finisher == Some(id) && w.p.marker == Some(id) && !w.c.hold.Dropped? && !w.c.starting
          && (!f.pc.Cleaning? ==> w.p.cleaner.None?))
    && (InStop(f.pc) && f.pc.caller.FromShutdown? ==> w.p.shutter == Some(id) && !w.r.callbacksDone)
    && (f.pc.CallbacksEnd? ==> w.p.shutter == Some(id) && !w.r.callbacksDone)
  }

  // The activation that set the cleaned flag is on its way to the cleanup, has
  // seen it end, or was the startup's `finish` stopped by its own deactivation.
  ghost predicate MarkerInv(w: World) {
    match w.p.marker
    case None => !w.c.cleaned && w.p.cleaner.None?
    case Some(id) =>
      && w.c.cleaned && !w.c.starting && id in w.frames
      && (w.p.cleanupEnded || w.p.abandoned
          || (InStop(w.frames[id].pc) && (w.frames[id].pc.caller.FromFinish? || w.frames[id].pc.Cleaning?)))
  }

  // Once startup is over and nobody has set the cleaned flag, the activation that
  // set the stop request has still to come to that decision.
  ghost predicate ShutterInv(w: World) {
    match w.p.shutter
    case None => !w.r.done && !w.r.callbacksDone
    case Some(id) =>
      && w.r.done && id in w.frames
      && (!w.c.starting && !w.c.cleaned ==>
            w.p.abandoned
            || (InStop(w.frames[id].pc) && w.frames[id].pc.caller.FromShutdown? && !w.frames[id].pc.Cleaning?))
  }

  ghost predicate FramesInv(w: World) {
    forall id :: id in w.frames ==> FrameInv(w, id, w.frames[id])
  }

  ghost predicate FlagsInv(w: World) {
    && w.p.deactivations == (if w.c.deactivated then 1 else 0)
    && (w.p.deactivationEnded ==> w.c.deactivated)
    && w.p.cleanups == (if w.p.cleaner.Some? then 1 else 0)
    && (w.p.cleanupEnded ==> w.p.cleaner.Some?)
    && (w.p.cleaner.Some? ==> w.c.deactivated)
    && (w.p.deactivationFailed ==> w.p.deactivationEnded) && (w.p.abandoned ==> w.p.deactivationFailed && !w.c.starting)
    && (w.c.revoker.Some? <==> w.c.deactivated && !w.p.deactivationEnded)
    && (w.c.hold.Dropped? ==> !w.c.starting)
    && (!w.c.starting ==> w.p.finisher.Some?)
    && (w.p.finisher.Some? ==> w.r.registered)
    && (w.r.registered ==> w.c.constructed)
    && (!w.c.constructed ==> w.c == BOOT.c)
  }

  ghost predicate Inv(w: World) {
    FramesInv(w) && MarkerInv(w) && ShutterInv(w) && FlagsInv(w)
  }

  lemma StepKeepsInv(w: World, a: Action)
    requires Inv(w) && Enabled(w, a)
    ensures Inv(Next(w, a))
  {
    match a
    case Advance(id, raises) =>
      var pc := w.frames[id].pc;
      if pc.FinishEntry? { FinishKeepsInv(w, id, raises); }
      else if pc.ReleasingHold? { HoldKeepsInv(w, id, raises); }
      else if InStop(pc) {
        StopKeepsFrames(w, id, raises);
        StopKeepsMarks(w, id, raises);
        StopKeepsFlags(w, id, raises);
      }
      else { RegistryKeepsFrames(w, id, raises); RegistryKeepsRest(w, id, raises); }
    case Call(_, _, _) => BeginKeepsInv(w, a);
    case DropHold(_, _) => BeginKeepsInv(w, a);
    case _ => RegisterKeepsInv(w, a);
  }

  lemma RegisterKeepsInv(w: World, a: Action)
    requires Inv(w) && Enabled(w, a) && (a.Construct? || a.Register? || a.TakeHold?)
    ensures Inv(Next(w, a))
  {
    assert Next(w, a).frames == w.frames && Next(w, a).p == w.p;
    forall j | j in w.frames ensures FrameInv(Next(w, a), j, w.frames[j]) { assert FrameInv(w, j, w.frames[j]); }
  }

  // A new activation changes none of the others.
  lemma BeginKeepsInv(w: World, a: Action)
    requires Inv(w) && Enabled(w, a) && (a.Call? || a.DropHold?)
    ensures Inv(Next(w, a))
  {
    var w' := Next(w, a);
    assert w'.c == w.c && w'.frames.Keys == w.frames.Keys + {a.id} && a.id !in w.frames;
    forall j | j in w.frames ensures FrameInv(w', j, w'.frames[j]) { assert FrameInv(w, j, w.frames[j]); }
  }

  lemma FinishKeepsInv(w: World, id: nat, raises: bool)
    requires Inv(w) && Enabled(w, Advance(id, raises)) && w.frames[id].pc.FinishEntry?
    ensures Inv(Next(w, Advance(id, raises)))
  {
  }

  lemma HoldKeepsInv(w: World, id: nat, raises: bool)
    requires Inv(w) && Enabled(w, Advance(id, raises)) && w.frames[id].pc.ReleasingHold?
    ensures Inv(Next(w, Advance(id, raises)))
  {
  }

  predicate InRegistry(pc: Pc) {
    pc.ShutdownEntry? || pc.CallbacksEnd? || pc.Completing? || pc.Announcing?
  }

  lemma RegistryKeepsFrames(w: World, id: nat, raises: bool)
    requires Inv(w) && Enabled(w, Advance(id, raises)) && InRegistry(w.frames[id].pc)
    ensures FramesInv(Next(w, Advance(id, raises)))
  {
    var w' := Next(w, Advance(id, raises));
    assert FrameInv(w', id, w'.frames[id]);
    forall j | j in w.frames && j != id ensures FrameInv(w', j, w'.frames[j]) {
      assert w'.frames[j] == w.frames[j] && FrameInv(w, j, w.frames[j]);
    }
  }

  lemma RegistryKeepsRest(w: World, id: nat, raises: bool)
    requires Inv(w) && Enabled(w, Advance(id, raises)) && InRegistry(w.frames[id].pc)
    ensures MarkerInv(Next(w, Advance(id, raises))) && ShutterInv(Next(w, Advance(id, raises)))
    ensures FlagsInv(Next(w, Advance(id, raises)))
  {
  }

  lemma StopKeepsOwnFrame(w: World, id: nat, raises: bool)
    requires Inv(w) && Enabled(w, Advance(id, raises)) && InStop(w.frames[id].pc)
    ensures var w' := Next(w, Advance(id, raises)); id in w'.frames && FrameInv(w', id, w'.frames[id])
  {
    assert FrameInv(w, id, w.frames[id]);
  }

  lemma StopKeepsOtherFrame(w: World, id: nat, raises: bool, j: nat)
    requires Inv(w) && Enabled(w, Advance(id, raises)) && InStop(w.frames[id].pc) && j in w.frames && j != id
    ensures var w' := Next(w, Advance(id, raises)); j in w'.frames && FrameInv(w', j, w'.frames[j])
  {
    assert FrameInv(w, id, w.frames[id]) && FrameInv(w, j, w.frames[j]);
  }

  lemma StopKeepsFrames(w: World, id: nat, raises: bool)
    requires Inv(w) && Enabled(w, Advance(id, raises)) && InStop(w.frames[id].pc)
    ensures FramesInv(Next(w, Advance(id, raises)))
  {
    var w' := Next(w, Advance(id, raises));
    StopKeepsOwnFrame(w, id, raises);
    forall j | j in w'.frames && j != id ensures FrameInv(w', j, w'.frames[j]) {
      StopKeepsOtherFrame(w, id, raises, j);
    }
  }

  lemma StopKeepsMarks(w: World, id: nat, raises: bool)
    requires Inv(w) && Enabled(w, Advance(id, raises)) && InStop(w.frames[id].pc)
    ensures MarkerInv(Next(w, Advance(id, raises))) && ShutterInv(Next(w, Advance(id, raises)))
  {
    assert FrameInv(w, id, w.frames[id]);
  }

  lemma StopKeepsFlags(w: World, id: nat, raises: bool)
    requires Inv(w) && Enabled(w, Advance(id, raises)) && InStop(w.frames[id].pc)
    ensures FlagsInv(Next(w, Advance(id, raises)))
  {
    assert FrameInv(w, id, w.frames[id]);
  }

  // The stopped event is announced only after a claim, and a claim with the
  // coordinator's hold given up finds its cleanup settled: it has returned, it was
  // abandoned, or a `stop` nobody waits for is still cleaning.
  ghost predicate CleanupSettled(w: World) {
    w.p.cleanupEnded || w.p.abandoned
    || exists id :: id in w.frames && w.frames[id].pc == Cleaning(Direct)
  }

  ghost predicate ClaimInv(w: World) {
    && (w.r.stopped ==> w.r.claimed)
    && (forall id :: id in w.frames && w.frames[id].pc.Announcing? ==> w.r.claimed)
    && (w.r.claimed ==> !w.c.hold.Holding?)
    && (w.r.claimed && w.c.hold.Dropped? ==> CleanupSettled(w))
  }

  lemma StaysSettled(w: World, a: Action)
    requires Inv(w) && Enabled(w, a) && CleanupSettled(w)
    ensures CleanupSettled(Next(w, a))
  {
    var w' := Next(w, a);
    if a.Advance? && w.frames[a.id].pc.Deactivating? { assert FrameInv(w, a.id, w.frames[a.id]); }
    if !w.p.cleanupEnded && !w.p.abandoned {
      var id :| id in w.frames && w.frames[id].pc == Cleaning(Direct);
      if a.Advance? && a.id == id {
        assert w'.p.cleanupEnded;
      } else {
        assert w'.frames[id] == w.frames[id];
      }
    }
  }

  // Whoever claims completion finds the cleanup settled.
  lemma ClaimIsSettled(w: World, a: Action)
    requires Inv(w) && Enabled(w, a) && a.Advance? && w.frames[a.id].pc.Completing?
    requires Next(w, a).r.claimed && !w.r.claimed && w.c.hold.Dropped?
    ensures CleanupSettled(Next(w, a))
  {
    ClaimFindsCleanup(w);
    if !w.p.cleanupEnded && !w.p.abandoned {
      var id := w.p.marker.value;
      assert Next(w, a).frames[id] == w.frames[id];
    }
  }

  // With a claim made or the hold given up, it was the claim that came last.
  lemma ClaimComesLast(w: World, a: Action)
    requires ClaimInv(w) && Enabled(w, a) && Next(w, a).r.claimed && Next(w, a).c.hold.Dropped?
    ensures w.c.hold.Dropped? && (w.r.claimed || (a.Advance? && w.frames[a.id].pc.Completing?))
  {
    if a.Advance? {
      var pc := w.frames[a.id].pc;
      if InRegistry(pc) { RegistryTouches(w, a.id, a.raises); } else { OthersTouch(w, a.id, a.raises); }
    }
  }

  lemma RegistryTouches(w: World, id: nat, raises: bool)
    requires Enabled(w, Advance(id, raises)) && InRegistry(w.frames[id].pc)
    ensures var w' := Next(w, Advance(id, raises));
      && w'.c == w.c && w'.p.finisher == w.p.finisher && w'.frames.Keys == w.frames.Keys
      && (w'.r.claimed ==> w.r.claimed || w.frames[id].pc.Completing?)
  {
  }

  lemma OthersTouch(w: World, id: nat, raises: bool)
    requires Enabled(w, Advance(id, raises)) && !InRegistry(w.frames[id].pc)
    ensures var w' := Next(w, Advance(id, raises));
      && w'.r == w.r && w'.p.finisher == w.p.finisher && w'.frames.Keys == w.frames.Keys
      && (w'.c.hold == w.c.hold || w.c.hold.Holding?) && !w'.frames[id].pc.Announcing?
  {
  }

  lemma StepKeepsHold(w: World, a: Action)
    requires Inv(w) && ClaimInv(w) && Enabled(w, a)
    ensures var w' := Next(w, a);
      && (w'.r.stopped ==> w'.r.claimed) && (w'.r.claimed ==> !w'.c.hold.Holding?)
      && (forall id :: id in w'.frames && w'.frames[id].pc.Announcing? ==> w'.r.claimed)
  {
    if a.Advance? && !InRegistry(w.frames[a.id].pc) {
      OthersTouch(w, a.id, a.raises);
      forall j | j in w.frames && j != a.id ensures Next(w, a).frames[j] == w.frames[j] {}
    }
  }

  lemma StepKeepsClaim(w: World, a: Action)
    requires Inv(w) && ClaimInv(w) && Enabled(w, a)
    ensures ClaimInv(Next(w, a))
  {
    StepKeepsHold(w, a);
    if Next(w, a).r.claimed && Next(w, a).c.hold.Dropped? {
      ClaimComesLast(w, a);
      if w.r.claimed { StaysSettled(w, a); } else { ClaimIsSettled(w, a); }
    }
  }

  lemma ClaimFindsCleanup(w: World)
    requires Inv(w) && w.c.hold.Dropped? && w.r.done && w.r.callbacksDone
    ensures w.p.cleanupEnded || w.p.abandoned
            || (w.p.marker.Some? && w.p.marker.value in w.frames && w.frames[w.p.marker.value].pc == Cleaning(Direct))
  {
    if w.p.marker.Some? { assert FrameInv(w, w.p.marker.value, w.frames[w.p.marker.value]); }
    assert FrameInv(w, w.p.shutter.value, w.frames[w.p.shutter.value]);
  }

  // ----- nesting on one thread ----------------------------------------------

  // A deactivation under way has its activation; whoever decides or cleans
  // meanwhile was called on top of it; and nothing was under way on the thread of
  // `finish` when it was called.
  ghost predicate NestInv(w: World) {
    && (w.c.deactivated && !w.p.deactivationEnded ==> Revoker(w))
    && (w.p.finisher.Some? ==> w.p.finisher.value in w.frames && Alone(w, w.p.finisher.value))
  }

  ghost predicate Revoker(w: World) {
    && w.p.deactivator.Some? && w.p.deactivator.value in w.frames
    && w.frames[w.p.deactivator.value].pc.Deactivating?
    && (forall id :: id in w.frames && (w.frames[id].pc.Deciding? || w.frames[id].pc.Cleaning?) ==>
          id > w.p.deactivator.value)
  }

  ghost predicate Alone(w: World, f: nat)
    requires f in w.frames
  {
    forall j :: j in w.frames && j < f && w.frames[j].thread == w.frames[f].thread ==> w.frames[j].pc.Ended?
  }

  // The deactivating activation stays where it is until its deactivation is over.
  lemma RevokerWaits(w: World, a: Action)
    requires Inv(w) && NestInv(w) && Enabled(w, a) && w.c.deactivated && !Next(w, a).p.deactivationEnded
    ensures !w.p.deactivationEnded && Next(w, a).p.deactivator == w.p.deactivator && w.p.deactivator.Some?
    ensures var d := w.p.deactivator.value;
      d in w.frames && d in Next(w, a).frames && Next(w, a).frames[d] == w.frames[d]
  {
    assert a.Advance? ==> a.id != w.p.deactivator.value;
  }

  // Whoever comes to decide or clean meanwhile was called on top of it.
  lemma DeciderIsAbove(w: World, id: nat, raises: bool)
    requires Inv(w) && NestInv(w) && Enabled(w, Advance(id, raises)) && w.c.deactivated && !w.p.deactivationEnded
    requires w.p.deactivator != Some(id)
    ensures var pc := Next(w, Advance(id, raises)).frames[id].pc;
      pc.Deciding? || pc.Cleaning? ==> id > w.p.deactivator.value
  {
    var d := w.p.deactivator.value;
    assert FrameInv(w, d, w.frames[d]) && FrameInv(w, id, w.frames[id]);
  }

  lemma RevokerStays(w: World, a: Action)
    requires Inv(w) && NestInv(w) && Enabled(w, a) && w.c.deactivated && !Next(w, a).p.deactivationEnded
    ensures Revoker(Next(w, a))
  {
    var w', d := Next(w, a), w.p.deactivator.value;
    RevokerWaits(w, a);
    if a.Advance? && a.id != d { DeciderIsAbove(w, a.id, a.raises); }
    forall j | j in w'.frames && (w'.frames[j].pc.Deciding? || w'.frames[j].pc.Cleaning?) ensures j > d {
      if !(a.Advance? && j == a.id) { assert j in w.frames && w'.frames[j] == w.frames[j]; }
    }
  }

  lemma RevokerBegins(w: World, a: Action)
    requires Inv(w) && Enabled(w, a) && !w.c.deactivated && Next(w, a).c.deactivated
    ensures Revoker(Next(w, a))
  {
    forall id | id in w.frames ensures !w.frames[id].pc.Deciding? && !w.frames[id].pc.Cleaning? {
      assert FrameInv(w, id, w.frames[id]);
    }
  }

  lemma StepKeepsRevoker(w: World, a: Action)
    requires Inv(w) && NestInv(w) && Enabled(w, a)
    ensures var w' := Next(w, a); w'.c.deactivated && !w'.p.deactivationEnded ==> Revoker(w')
  {
    var w' := Next(w, a);
    if w'.c.deactivated && !w'.p.deactivationEnded {
      if w.c.deactivated { RevokerStays(w, a); } else { RevokerBegins(w, a); }
    }
  }

  // No step touches an activation that has ended, or moves one to another thread.
  lemma FrameStays(w: World, a: Action, j: nat)
    requires Enabled(w, a) && j in w.frames
    ensures j in Next(w, a).frames && Next(w, a).frames[j].thread == w.frames[j].thread
    ensures w.frames[j].pc.Ended? ==> Next(w, a).frames[j] == w.frames[j]
  {
  }

  lemma FinisherBegins(w: World, id: nat, thread: nat)
    requires NestInv(w) && Enabled(w, Call(id, thread, FinishEntry))
    ensures id in Next(w, Call(id, thread, FinishEntry)).frames && Alone(Next(w, Call(id, thread, FinishEntry)), id)
  {
  }

  lemma AloneStays(w: World, a: Action, f: nat)
    requires Enabled(w, a) && f in w.frames && Alone(w, f)
    requires forall j :: j in Next(w, a).frames && j < f ==> j in w.frames
    ensures f in Next(w, a).frames && Alone(Next(w, a), f)
  {
    FrameStays(w, a, f);
    var w' := Next(w, a);
    forall j | j in w'.frames && j < f && w'.frames[j].thread == w'.frames[f].thread ensures w'.frames[j].pc.Ended? {
      FrameStays(w, a, j);
    }
  }

  lemma StepKeepsAlone(w: World, a: Action)
    requires Inv(w) && NestInv(w) && Enabled(w, a)
    ensures var w' := Next(w, a);
      w'.p.finisher.Some? ==> w'.p.finisher.value in w'.frames && Alone(w', w'.p.finisher.value)
  {
    if a.Advance? {
      var pc := w.frames[a.id].pc;
      if InRegistry(pc) { RegistryTouches(w, a.id, a.raises); } else { OthersTouch(w, a.id, a.raises); }
    }
    if w.p.finisher.Some? {
      AloneStays(w, a, w.p.finisher.value);
    } else if a.Call? && a.entry.FinishEntry? {
      FinisherBegins(w, a.id, a.thread);
    }
  }

  lemma StepKeepsNest(w: World, a: Action)
    requires Inv(w) && NestInv(w) && Enabled(w, a)
    ensures NestInv(Next(w, a))
  {
    StepKeepsRevoker(w, a);
    StepKeepsAlone(w, a);
  }

  // A cleanup that begins before the deactivation is over is decided by an
  // activation on top of the deactivating one, and one of the two is a `stop`
  // called neither by the registry nor by `finish`.
  lemma OnlyDirectStopsNest(w: World, id: nat, raises: bool)
    requires Inv(w) && NestInv(w) && Enabled(w, Advance(id, raises)) && w.frames[id].pc.Deciding?
    requires Next(w, Advance(id, raises)).frames[id].pc.Cleaning? && !w.p.deactivationEnded
    ensures w.p.deactivator.Some? && w.p.deactivator.value in w.frames
    ensures var (d, f) := (w.frames[w.p.deactivator.value], w.frames[id]);
            && d.pc.Deactivating? && d.thread == f.thread && w.p.deactivator.value < id
            && (d.pc.caller.Direct? || f.pc.caller.Direct?)
  {
    assert FrameInv(w, id, w.frames[id]);
    var d := w.p.deactivator.value;
    assert FrameInv(w, d, w.frames[d]);
  }

  // A run: steps that are not enabled when their turn comes do nothing.
  function Step(w: World, a: Action): World {
    if Enabled(w, a) then Next(w, a) else w
  }

  function Run(w: World, actions: seq<Action>): World
    decreases |actions|
  {
    if actions == [] then w else Run(Step(w, actions[0]), actions[1..])
  }

  // Over every interleaving: the deactivation begins at most once and so does the
  // cleanup, never while startup is in progress; a cleanup in progress finds the
  // deactivation over, unless it runs on top of it on the same thread; and when
  // the stopped event is set and the coordinator's hold was taken in time, the
  // cleanup has settled.
  lemma {:induction false} OneOrderlyCleanup(w: World, actions: seq<Action>)
    requires Inv(w) && ClaimInv(w) && NestInv(w)
    ensures var e := Run(w, actions);
            && Inv(e) && ClaimInv(e) && NestInv(e)
            && e.p.deactivations <= 1 && e.p.cleanups <= 1
            && (e.p.cleanups == 1 ==> !e.c.starting && e.p.deactivations == 1)
            && (forall id :: id in e.frames && e.frames[id].pc.Cleaning? ==>
                  e.p.deactivationEnded || (e.c.revoker == Some(e.frames[id].thread) && e.p.deactivator.value < id))
            && (e.r.stopped && e.c.hold.Dropped? ==> CleanupSettled(e))
    decreases |actions|
  {
    if actions == [] {
      forall id | id in w.frames ensures FrameInv(w, id, w.frames[id]) {}
    } else {
      if Enabled(w, actions[0]) {
        StepKeepsInv(w, actions[0]);
        StepKeepsClaim(w, actions[0]);
        StepKeepsNest(w, actions[0]);
      }
      OneOrderlyCleanup(Step(w, actions[0]), actions[1..]);
    }
  }

  // ----- nobody waits for ever ----------------------------------------------

  function StepsLeft(pc: Pc): nat {
    match pc
    case Ended => 0
    case Announcing => 1
    case Completing => 2
    case CallbacksEnd => 3
    case ReleasingHold => 3
    case Cleaning(_) => 4
    case Deciding(_) => 5
    case Deactivating(_) => 6
    case Revoking(_) => 7
    case StopEntry(_) => 8
    case ShutdownEntry => 9
    case FinishEntry => 9
  }

  // What the activations below `n` have left to do.
  function AllLeft(frames: map<nat, Frame>, n: nat): nat {
    if n == 0 then 0
    else AllLeft(frames, n - 1) + (if n - 1 in frames then StepsLeft(frames[n - 1].pc) else 0)
  }

  lemma AdvanceGoesOn(w: World, id: nat, raises: bool)
    requires Enabled(w, Advance(id, raises))
    ensures var w' := Next(w, Advance(id, raises));
      && id in w'.frames && w'.frames == w.frames[id := w'.frames[id]]
      && StepsLeft(w'.frames[id].pc) < StepsLeft(w.frames[id].pc)
  {
  }

  lemma {:induction false} LessLeft(a: map<nat, Frame>, b: map<nat, Frame>, id: nat, n: nat)
    requires id in a && id in b && b == a[id := b[id]] && StepsLeft(b[id].pc) < StepsLeft(a[id].pc)
    ensures if id < n then AllLeft(b, n) < AllLeft(a, n) else AllLeft(b, n) == AllLeft(a, n)
  {
    if n > 0 {
      LessLeft(a, b, id, n - 1);
      assert n - 1 != id ==> (n - 1 in a <==> n - 1 in b) && (n - 1 in a ==> a[n - 1] == b[n - 1]);
    }
  }

  ghost predicate Below(w: World, n: nat) {
    forall j :: j in w.frames ==> j < n
  }

  ghost predicate Pending(w: World, id: nat) {
    id in w.frames && !w.frames[id].pc.Ended?
  }

  // On a thread with anything pending the latest activation is on top.
  lemma {:induction false} SomeOnTop(w: World, id: nat, n: nat)
    requires Pending(w, id) && Below(w, n)
    ensures exists j :: Pending(w, j) && w.frames[j].thread == w.frames[id].thread && OnTop(w, j)
    decreases n - id
  {
    if !OnTop(w, id) {
      var j: nat :| j > id && Pending(w, j) && w.frames[j].thread == w.frames[id].thread;
      SomeOnTop(w, j, n);
    }
  }

  // While anything is pending somebody can move on: whoever waits for the revoke
  // lock waits for a thread that does.
  lemma SomebodyMovesOn(w: World, id: nat, n: nat)
    requires Inv(w) && NestInv(w) && Pending(w, id) && Below(w, n)
    ensures exists j :: Enabled(w, Advance(j, false))
  {
    var first := if w.c.revoker.Some? then w.p.deactivator.value else id;
    if w.c.revoker.Some? { assert FrameInv(w, first, w.frames[first]); }
    assert Pending(w, first);
    SomeOnTop(w, first, n);
    var j :| Pending(w, j) && w.frames[j].thread == w.frames[first].thread && OnTop(w, j);
    assert Enabled(w, Advance(j, false));
  }

  ghost predicate AllEnded(w: World) {
    forall id :: id in w.frames ==> !Pending(w, id)
  }

  // Steps of the activations under way, none of which raises.
  predicate GoesOn(actions: seq<Action>) {
    forall k :: 0 <= k < |actions| ==> actions[k].Advance? && !actions[k].raises
  }

  lemma {:induction false} EveryCallCanEnd(w: World, n: nat) returns (actions: seq<Action>)
    requires Inv(w) && NestInv(w) && Below(w, n)
    ensures GoesOn(actions) && AllEnded(Run(w, actions))
    decreases AllLeft(w.frames, n)
  {
    if AllEnded(w) {
      actions := [];
    } else {
      var id :| Pending(w, id);
      SomebodyMovesOn(w, id, n);
      var j :| Enabled(w, Advance(j, false));
      var w1 := Next(w, Advance(j, false));
      StepKeepsInv(w, Advance(j, false));
      StepKeepsNest(w, Advance(j, false));
      AdvanceGoesOn(w, j, false);
      LessLeft(w.frames, w1.frames, j, n);
      var rest := EveryCallCanEnd(w1, n);
      actions := [Advance(j, false)] + rest;
      assert actions[1..] == rest;
    }
  }

  // Completion is on its way: whoever set the stop request will say that the
  // callbacks are over, whoever finishes the startup will give up its hold, and
  // once all holds are gone somebody will claim completion and announce it.
  ghost predicate CompletionInv(w: World) {
    && (w.r.done && !w.r.callbacksDone ==> w.p.shutter.Some? && OnItsWay(w, w.p.shutter.value, FromShutdown))
    && (w.c.hold.Holding? && w.p.finisher.Some? ==> OnItsWay(w, w.p.finisher.value, FromFinish))
    && (Unclaimed(w) ==> Somebody(w, Completing))
    && (w.r.claimed && !w.r.stopped ==> Somebody(w, Announcing))
  }

  ghost predicate OnItsWay(w: World, id: nat, who: Caller) {
    && id in w.frames
    && ((InStop(w.frames[id].pc) && w.frames[id].pc.caller == who)
        || (who.FromShutdown? && w.frames[id].pc.CallbacksEnd?)
        || (who.FromFinish? && (w.frames[id].pc.FinishEntry? || w.frames[id].pc.ReleasingHold?)))
  }

  ghost predicate Unclaimed(w: World) {
    w.r.done && w.r.callbacksDone && w.r.otherHolds == 0 && !w.c.hold.Holding? && !w.r.claimed
  }

  ghost predicate Somebody(w: World, pc: Pc) {
    exists id :: id in w.frames && w.frames[id].pc == pc
  }

  lemma StopGoesOn(c: Coordinator, p: Past, id: nat, thread: nat, pc: Pc, raises: bool)
    requires InStop(pc)
    ensures var pc' := StopStep(c, p, id, thread, pc, raises).2;
      (InStop(pc') && pc'.caller == pc.caller) || pc' == AfterStop(pc.caller)
    ensures StopStep(c, p, id, thread, pc, raises).0.constructed == c.constructed
    ensures StopStep(c, p, id, thread, pc, raises).1.shutter == p.shutter
    ensures StopStep(c, p, id, thread, pc, raises).1.finisher == p.finisher
  {
  }

  // One step of whoever is on its way keeps it there, or ends the callbacks or the
  // hold.
  lemma OwnStepGoesOn(w: World, id: nat, raises: bool, who: Caller)
    requires Enabled(w, Advance(id, raises)) && OnItsWay(w, id, who) && !who.Direct?
    ensures var w' := Next(w, Advance(id, raises));
      || OnItsWay(w', id, who)
      || (w.frames[id].pc.CallbacksEnd? && w'.r.callbacksDone)
      || (w.frames[id].pc.ReleasingHold? && !w'.c.hold.Holding?)
  {
    var f := w.frames[id];
    if InStop(f.pc) { StopGoesOn(w.c, w.p, id, f.thread, f.pc, raises); }
  }

  lemma WayGoesOn(w: World, a: Action, id: nat, who: Caller)
    requires Enabled(w, a) && OnItsWay(w, id, who) && !who.Direct?
    ensures var w' := Next(w, a);
      || OnItsWay(w', id, who)
      || (w.frames[id].pc.CallbacksEnd? && w'.r.callbacksDone)
      || (w.frames[id].pc.ReleasingHold? && !w'.c.hold.Holding?)
  {
    if a.Advance? && a.id == id {
      OwnStepGoesOn(w, id, a.raises, who);
    } else {
      assert id in Next(w, a).frames && Next(w, a).frames[id] == w.frames[id];
    }
  }

  // Who set the stop request and who finishes is settled once and for all.
  lemma ShutterStays(w: World, a: Action)
    requires Enabled(w, a)
    ensures w.r.done ==> Next(w, a).r.done && Next(w, a).p.shutter == w.p.shutter
    ensures w.r.callbacksDone ==> Next(w, a).r.callbacksDone
    ensures !w.r.done && Next(w, a).r.done ==>
              && a.Advance? && Next(w, a).p.shutter == Some(a.id) && OnItsWay(Next(w, a), a.id, FromShutdown)
  {
    if a.Advance? && InStop(w.frames[a.id].pc) {
      StopGoesOn(w.c, w.p, a.id, w.frames[a.id].thread, w.frames[a.id].pc, a.raises);
    }
  }

  lemma FinisherStays(w: World, a: Action)
    requires Enabled(w, a)
    ensures w.p.finisher.Some? ==> Next(w, a).p.finisher == w.p.finisher
    ensures w.c.constructed ==> Next(w, a).c.constructed && (!w.c.hold.Holding? ==> !Next(w, a).c.hold.Holding?)
    ensures w.p.finisher.None? && Next(w, a).p.finisher.Some? ==>
              a.Call? && Next(w, a).p.finisher == Some(a.id) && OnItsWay(Next(w, a), a.id, FromFinish)
  {
    if a.Advance? && InStop(w.frames[a.id].pc) {
      StopGoesOn(w.c, w.p, a.id, w.frames[a.id].thread, w.frames[a.id].pc, a.raises);
    }
  }

  lemma ShutterGoesOn(w: World, a: Action)
    requires Inv(w) && CompletionInv(w) && Enabled(w, a) && Next(w, a).r.done && !Next(w, a).r.callbacksDone
    ensures Next(w, a).p.shutter.Some? && OnItsWay(Next(w, a), Next(w, a).p.shutter.value, FromShutdown)
  {
    ShutterStays(w, a);
    if w.r.done { WayGoesOn(w, a, w.p.shutter.value, FromShutdown); }
  }

  lemma FinisherGoesOn(w: World, a: Action)
    requires Inv(w) && CompletionInv(w) && Enabled(w, a)
    requires Next(w, a).c.hold.Holding? && Next(w, a).p.finisher.Some?
    ensures OnItsWay(Next(w, a), Next(w, a).p.finisher.value, FromFinish)
  {
    FinisherStays(w, a);
    if w.p.finisher.Some? { WayGoesOn(w, a, w.p.finisher.value, FromFinish); }
  }

  lemma SomebodyStays(w: World, a: Action, pc: Pc)
    requires Enabled(w, a) && Somebody(w, pc) && !(a.Advance? && w.frames[a.id].pc == pc)
    ensures Somebody(Next(w, a), pc)
  {
    var id :| id in w.frames && w.frames[id].pc == pc;
    assert Next(w, a).frames[id] == w.frames[id];
  }

  // Whoever gives up the last hold, or ends the callbacks after it, comes to claim.
  lemma ClaimerGoesOn(w: World, a: Action)
    requires Inv(w) && CompletionInv(w) && Enabled(w, a) && Unclaimed(Next(w, a))
    ensures Somebody(Next(w, a), Completing)
  {
    var w' := Next(w, a);
    if Unclaimed(w) {
      SomebodyStays(w, a, Completing);
    } else {
      assert a.DropHold? || (a.Advance? && (w.frames[a.id].pc.CallbacksEnd? || w.frames[a.id].pc.ReleasingHold?));
      assert a.id in w'.frames && w'.frames[a.id].pc == Completing;
    }
  }

  lemma AnnouncerGoesOn(w: World, a: Action)
    requires CompletionInv(w) && Enabled(w, a) && Next(w, a).r.claimed && !Next(w, a).r.stopped
    ensures Somebody(Next(w, a), Announcing)
  {
    var w' := Next(w, a);
    if w.r.claimed {
      SomebodyStays(w, a, Announcing);
    } else {
      assert a.Advance? && w.frames[a.id].pc.Completing?;
      assert a.id in w'.frames && w'.frames[a.id].pc == Announcing;
    }
  }

  lemma StepKeepsCompletion(w: World, a: Action)
    requires Inv(w) && CompletionInv(w) && Enabled(w, a)
    ensures CompletionInv(Next(w, a))
  {
    var w' := Next(w, a);
    if w'.r.done && !w'.r.callbacksDone { ShutterGoesOn(w, a); }
    if w'.c.hold.Holding? && w'.p.finisher.Some? { FinisherGoesOn(w, a); }
    if Unclaimed(w') { ClaimerGoesOn(w, a); }
    if w'.r.claimed && !w'.r.stopped { AnnouncerGoesOn(w, a); }
  }

  ghost predicate OrderlyInv(w: World) {
    Inv(w) && ClaimInv(w) && NestInv(w) && CompletionInv(w)
  }

  lemma StepKeepsOrder(w: World, a: Action)
    requires OrderlyInv(w) && Enabled(w, a)
    ensures OrderlyInv(Next(w, a))
  {
    StepKeepsInv(w, a);
    StepKeepsClaim(w, a);
    StepKeepsNest(w, a);
    StepKeepsCompletion(w, a);
  }

  lemma {:induction false} RunKeepsOrder(w: World, actions: seq<Action>)
    requires OrderlyInv(w)
    ensures OrderlyInv(Run(w, actions))
    decreases |actions|
  {
    if actions != [] {
      if Enabled(w, actions[0]) { StepKeepsOrder(w, actions[0]); }
      RunKeepsOrder(Step(w, actions[0]), actions[1..]);
    }
  }

  // A stop was asked for, nobody else holds completion back, and the startup, if
  // there is one, has come to its `finish`.
  ghost predicate StopIsDue(w: World) {
    w.r.done && w.r.otherHolds == 0 && (w.p.finisher.Some? || !w.c.constructed)
  }

  lemma {:induction false} StaysDue(w: World, actions: seq<Action>)
    requires GoesOn(actions) && StopIsDue(w)
    ensures StopIsDue(Run(w, actions))
    decreases |actions|
  {
    if actions != [] {
      if Enabled(w, actions[0]) {
        ShutterStays(w, actions[0]);
        FinisherStays(w, actions[0]);
        AdvanceHoldsNothing(w, actions[0].id, actions[0].raises);
      }
      StaysDue(Step(w, actions[0]), actions[1..]);
    }
  }

  lemma AdvanceHoldsNothing(w: World, id: nat, raises: bool)
    requires Enabled(w, Advance(id, raises))
    ensures var w' := Next(w, Advance(id, raises));
      w'.r.otherHolds == w.r.otherHolds && w'.c.constructed == w.c.constructed
  {
    var f := w.frames[id];
    if InStop(f.pc) { StopGoesOn(w.c, w.p, id, f.thread, f.pc, raises); }
  }

  // With every call over, a stop that is due is announced, and its cleanup has
  // returned unless a raising deactivation abandoned it.
  lemma QuietIsStopped(w: World)
    requires OrderlyInv(w) && AllEnded(w) && StopIsDue(w)
    ensures w.r.stopped && (w.c.hold.Dropped? ==> w.p.cleanupEnded || w.p.abandoned)
  {
    forall id | id in w.frames ensures w.frames[id].pc.Ended? { assert !Pending(w, id); }
    assert w.r.callbacksDone && !w.c.hold.Holding?;
    assert !Unclaimed(w);
  }

  lemma {:induction false} SomeBound(ids: set<nat>) returns (n: nat)
    ensures forall j :: j in ids ==> j < n
  {
    if ids == {} {
      n := 0;
    } else {
      var j :| j in ids;
      n := SomeBound(ids - {j});
      assert forall k :: k in ids ==> k == j || k in ids - {j};
      if n <= j { n := j + 1; }
    }
  }

  // From every state of every run, once a stop is due the calls under way can all
  // end without anybody else's help, and then the process is told it has stopped.
  lemma EveryStopCanEnd(actions: seq<Action>)
    ensures var w := Run(BOOT, actions);
      StopIsDue(w) ==> exists more :: GoesOn(more) && Stops(Run(w, more))
  {
    BootIsOrderly();
    RunKeepsOrder(BOOT, actions);
    var w := Run(BOOT, actions);
    if StopIsDue(w) {
      var n := SomeBound(w.frames.Keys);
      var more := EveryCallCanEnd(w, n);
      RunKeepsOrder(w, more);
      StaysDue(w, more);
      QuietIsStopped(Run(w, more));
      assert Stops(Run(w, more));
    }
  }

  ghost predicate Stops(w: World) {
    AllEnded(w) && w.r.stopped && (w.c.hold.Dropped? ==> w.p.cleanupEnded || w.p.abandoned)
  }

  lemma BootIsOrderly()
    ensures OrderlyInv(BOOT)
  {
  }

  // ----- with no other caller of `stop` -------------------------------------

  // In the program only the registry and `finish` call `stop`.
  ghost predicate NoDirectStop(w: World) {
    forall id :: id in w.frames && InStop(w.frames[id].pc) ==> !w.frames[id].pc.caller.Direct?
  }

  predicate OnlyRegistered(actions: seq<Action>) {
    forall a :: a in actions && a.Call? ==> a.entry != StopEntry(Direct)
  }

  // Once abandoned, the cleanup has not begun, and those who could have begun it
  // have left `stop`.
  ghost predicate AbandonedInv(w: World) {
    w.p.abandoned ==>
      && w.p.cleaner.None?
      && (if w.c.cleaned then w.p.marker == w.p.finisher && w.p.finisher.Some? && Outside(w, w.p.finisher.value)
          else w.p.shutter.Some? && Outside(w, w.p.shutter.value))
  }

  ghost predicate Outside(w: World, id: nat) {
    id in w.frames && !InStop(w.frames[id].pc) && !w.frames[id].pc.ShutdownEntry? && !w.frames[id].pc.FinishEntry?
  }

  ghost predicate RegisteredInv(w: World) {
    && Inv(w) && ClaimInv(w) && NestInv(w) && NoDirectStop(w) && AbandonedInv(w)
    && (w.p.cleaner.Some? ==> w.p.deactivationEnded)
  }

  lemma StepKeepsNoDirect(w: World, a: Action)
    requires Inv(w) && NoDirectStop(w) && Enabled(w, a) && (a.Call? ==> a.entry != StopEntry(Direct))
    ensures NoDirectStop(Next(w, a))
  {
    var w' := Next(w, a);
    if a.Advance? {
      forall id | id in w'.frames && id != a.id ensures w'.frames[id] == w.frames[id] {}
    }
  }

  // Nobody begins a cleanup that was abandoned.
  lemma AbandonedStays(w: World, a: Action)
    requires RegisteredInv(w) && Enabled(w, a) && w.p.abandoned
    ensures AbandonedInv(Next(w, a)) && Next(w, a).p.cleaner.None?
  {
    if a.Advance? { assert FrameInv(w, a.id, w.frames[a.id]); }
  }

  lemma AbandonedBegins(w: World, a: Action)
    requires RegisteredInv(w) && Enabled(w, a) && !w.p.abandoned
    ensures AbandonedInv(Next(w, a))
  {
    if a.Advance? && w.frames[a.id].pc.Deactivating? { assert FrameInv(w, a.id, w.frames[a.id]); }
  }

  lemma StepKeepsCleanAfter(w: World, a: Action)
    requires RegisteredInv(w) && Enabled(w, a)
    ensures Next(w, a).p.cleaner.Some? ==> Next(w, a).p.deactivationEnded
  {
    if a.Advance? && w.frames[a.id].pc.Deciding? && !w.p.deactivationEnded && Next(w, a).frames[a.id].pc.Cleaning? {
      OnlyDirectStopsNest(w, a.id, a.raises);
      assert false;
    }
  }

  lemma StepKeepsRegistered(w: World, a: Action)
    requires RegisteredInv(w) && Enabled(w, a) && (a.Call? ==> a.entry != StopEntry(Direct))
    ensures RegisteredInv(Next(w, a))
  {
    StepKeepsInv(w, a);
    StepKeepsClaim(w, a);
    StepKeepsNest(w, a);
    StepKeepsNoDirect(w, a);
    StepKeepsCleanAfter(w, a);
    if w.p.abandoned { AbandonedStays(w, a); } else { AbandonedBegins(w, a); }
  }

  // Then the cleanup begins only after the deactivation is complete; and a process
  // that is told it has stopped has had its cleanup return, exactly unless the
  // deactivation raised where that leaves nobody to clean: in the startup's own
  // `finish`, or in the registry's `stop` after a startup that saw no stop request.
  lemma {:induction false} StoppedMeansCleaned(w: World, actions: seq<Action>)
    requires RegisteredInv(w) && OnlyRegistered(actions)
    ensures var e := Run(w, actions);
            && RegisteredInv(e)
            && (e.p.cleanups == 1 ==> e.p.deactivationEnded)
            && (e.p.abandoned ==> e.p.cleanups == 0)
            && (e.r.stopped && e.c.hold.Dropped? ==> (e.p.cleanupEnded <==> !e.p.abandoned))
    decreases |actions|
  {
    if actions != [] {
      if Enabled(w, actions[0]) {
        assert actions[0] in actions;
        StepKeepsRegistered(w, actions[0]);
      }
      StoppedMeansCleaned(Step(w, actions[0]), actions[1..]);
    }
  }

  // What a raising deactivation is decided by, in any state of such a run.
  lemma RaisingAbandons(w: World, id: nat)
    requires RegisteredInv(w) && Enabled(w, Advance(id, true)) && w.frames[id].pc.Deactivating?
    ensures Next(w, Advance(id, true)).p.abandoned <==>
              w.frames[id].pc.caller.FromFinish? || (!w.c.starting && !w.c.cleaned)
  {
  }

  lemma BootIsInv()
    ensures RegisteredInv(BOOT)
  {
  }

  // ----- where the promise ends ---------------------------------------------

  ghost predicate Reaches(w: World, v: World) {
    exists actions :: Run(w, actions) == v
  }

  lemma {:induction false} RunConcat(w: World, a: seq<Action>, b: seq<Action>)
    ensures Run(w, a + b) == Run(Run(w, a), b)
    decreases |a|
  {
    if a == [] {
      assert a + b == b;
    } else {
      assert (a + b)[1..] == a[1..] + b;
      RunConcat(Step(w, a[0]), a[1..], b);
    }
  }

  lemma ReachesThrough(u: World, v: World, w: World)
    requires Reaches(u, v) && Reaches(v, w)
    ensures Reaches(u, w)
  {
    var a :| Run(u, a) == v;
    var b :| Run(v, b) == w;
    RunConcat(u, a, b);
  }

  // One step, and two, reach what they compute.
  lemma ReachesInOne(w: World, a: Action)
    ensures Reaches(w, Step(w, a))
  {
    assert Run(w, [a]) == Step(w, a);
  }

  lemma ReachesInTwo(w: World, a: Action, b: Action)
    ensures Reaches(w, Step(Step(w, a), b))
  {
    assert [a, b][1..] == [b];
    assert Run(Step(w, a), [b]) == Step(Step(w, a), b);
    assert Run(w, [a, b]) == Step(Step(w, a), b);
  }

  // Startup has finished, and nothing has asked for a stop.
  const AFTER_STARTUP := World(Registry(false, false, 0, false, false, true),
                               Coordinator(true, Dropped, false, false, false, false, None),
      Past(None, Some(0), None, 0, false, false, false, None, None, 0, false),
      map[0 := Frame(0, Ended)])

  // A thread of its own has called `stop` and is deactivating.
  const DEACTIVATING := World(Registry(false, false, 0, false, false, true),
                              Coordinator(true, Dropped, true, false, true, false, Some(1)),
      Past(None, Some(0), Some(1), 1, false, false, false, None, None, 0, false),
      map[0 := Frame(0, Ended), 1 := Frame(1, Deactivating(Direct))])

  // ... is cleaning.
  const CLEANING := World(Registry(false, false, 0, false, false, true),
                          Coordinator(true, Dropped, true, false, true, true, None),
      Past(None, Some(0), Some(1), 1, true, false, false, Some(1), Some(1), 1, false),
      map[0 := Frame(0, Ended), 1 := Frame(1, Cleaning(Direct))])

  // The registry's own `stop` has found nothing left to do.
  const CALLBACK_DONE := World(Registry(true, false, 0, false, false, true),
                               Coordinator(true, Dropped, true, false, true, true, None),
      Past(Some(2), Some(0), Some(1), 1, true, false, false, Some(1), Some(1), 1, false),
      map[0 := Frame(0, Ended), 1 := Frame(1, Cleaning(Direct)), 2 := Frame(2, Deciding(FromShutdown))])

  // The registry has announced the end.
  const ANNOUNCED := World(Registry(true, true, 0, true, true, true),
                           Coordinator(true, Dropped, true, false, true, true, None),
      Past(Some(2), Some(0), Some(1), 1, true, false, false, Some(1), Some(1), 1, false),
      map[0 := Frame(0, Ended), 1 := Frame(1, Cleaning(Direct)), 2 := Frame(2, Ended)])

  // A signal handler on that thread has set the stop request.
  const INTERRUPTED := World(Registry(true, false, 0, false, false, true),
                             Coordinator(true, Dropped, true, false, true, false, Some(1)),
      Past(Some(2), Some(0), Some(1), 1, false, false, false, None, None, 0, false),
      map[0 := Frame(0, Ended), 1 := Frame(1, Deactivating(Direct)), 2 := Frame(1, StopEntry(FromShutdown))])

  // ... and its `stop`, on the same thread, has begun the cleanup.
  const NESTED := World(Registry(true, false, 0, false, false, true),
                        Coordinator(true, Dropped, true, false, true, true, Some(1)),
      Past(Some(2), Some(0), Some(1), 1, false, false, false, Some(2), Some(2), 1, false),
      map[0 := Frame(0, Ended), 1 := Frame(1, Deactivating(Direct)), 2 := Frame(1, Cleaning(FromShutdown))])

  lemma ReachStartup()
    ensures Reaches(BOOT, AFTER_STARTUP)
  {
    var w1 := World(Registry(false, false, 0, false, false, true),
      Coordinator(true, Holding, false, true, false, false, None),
      Past(None, None, None, 0, false, false, false, None, None, 0, false),
      map[]);
    ReachesInTwo(BOOT, Construct, Register);
    assert w1 == Step(Step(BOOT, Construct), Register);
    var w2 := World(Registry(false, false, 0, false, false, true),
      Coordinator(true, Holding, false, false, false, false, None),
      Past(None, Some(0), None, 0, false, false, false, None, None, 0, false),
      map[0 := Frame(0, ReleasingHold)]);
    ReachesInTwo(w1, Call(0, 0, FinishEntry), Advance(0, false));
    assert w2 == Step(Step(w1, Call(0, 0, FinishEntry)), Advance(0, false));
    ReachesThrough(BOOT, w1, w2);
    ReachesInTwo(w2, Advance(0, false), Advance(0, false));
    assert AFTER_STARTUP == Step(Step(w2, Advance(0, false)), Advance(0, false));
    ReachesThrough(BOOT, w2, AFTER_STARTUP);
  }

  // A thread of its own has called `stop`.
  const STOP_CALLED := World(Registry(false, false, 0, false, false, true),
      Coordinator(true, Dropped, true, false, false, false, None),
      Past(None, Some(0), None, 0, false, false, false, None, None, 0, false),
      map[0 := Frame(0, Ended), 1 := Frame(1, Revoking(Direct))])

  lemma ReachStopCalled()
    ensures Reaches(AFTER_STARTUP, STOP_CALLED)
  {
    ReachesInTwo(AFTER_STARTUP, Call(1, 1, StopEntry(Direct)), Advance(1, false));
    assert STOP_CALLED == Step(Step(AFTER_STARTUP, Call(1, 1, StopEntry(Direct))), Advance(1, false));
  }

  lemma ReachDeactivating()
    ensures Reaches(AFTER_STARTUP, DEACTIVATING)
  {
    ReachesInOne(STOP_CALLED, Advance(1, false));
    assert DEACTIVATING == Step(STOP_CALLED, Advance(1, false));
    ReachStopCalled();
    ReachesThrough(AFTER_STARTUP, STOP_CALLED, DEACTIVATING);
  }

  lemma ReachCleaning()
    ensures Reaches(DEACTIVATING, CLEANING)
  {
    ReachesInTwo(DEACTIVATING, Advance(1, false), Advance(1, false));
    assert CLEANING == Step(Step(DEACTIVATING, Advance(1, false)), Advance(1, false));
  }

  // The registry has set the stop request and calls its `stop`.
  const SHUTTING_DOWN := World(Registry(true, false, 0, false, false, true),
      Coordinator(true, Dropped, true, false, true, true, None),
      Past(Some(2), Some(0), Some(1), 1, true, false, false, Some(1), Some(1), 1, false),
      map[0 := Frame(0, Ended), 1 := Frame(1, Cleaning(Direct)), 2 := Frame(2, StopEntry(FromShutdown))])

  lemma ReachShuttingDown()
    ensures Reaches(CLEANING, SHUTTING_DOWN)
  {
    ReachesInTwo(CLEANING, Call(2, 2, ShutdownEntry), Advance(2, false));
    assert SHUTTING_DOWN == Step(Step(CLEANING, Call(2, 2, ShutdownEntry)), Advance(2, false));
  }

  lemma ReachCallback()
    ensures Reaches(CLEANING, CALLBACK_DONE)
  {
    ReachesInTwo(SHUTTING_DOWN, Advance(2, false), Advance(2, false));
    assert CALLBACK_DONE == Step(Step(SHUTTING_DOWN, Advance(2, false)), Advance(2, false));
    ReachShuttingDown();
    ReachesThrough(CLEANING, SHUTTING_DOWN, CALLBACK_DONE);
  }

  // Every callback of the registry has returned.
  const CALLBACKS_OVER := World(Registry(true, true, 0, false, false, true),
      Coordinator(true, Dropped, true, false, true, true, None),
      Past(Some(2), Some(0), Some(1), 1, true, false, false, Some(1), Some(1), 1, false),
      map[0 := Frame(0, Ended), 1 := Frame(1, Cleaning(Direct)), 2 := Frame(2, Completing)])

  lemma ReachCallbacksOver()
    ensures Reaches(CALLBACK_DONE, CALLBACKS_OVER)
  {
    ReachesInTwo(CALLBACK_DONE, Advance(2, false), Advance(2, false));
    assert CALLBACKS_OVER == Step(Step(CALLBACK_DONE, Advance(2, false)), Advance(2, false));
  }

  lemma ReachAnnounced()
    ensures Reaches(CALLBACK_DONE, ANNOUNCED)
  {
    ReachesInTwo(CALLBACKS_OVER, Advance(2, false), Advance(2, false));
    assert ANNOUNCED == Step(Step(CALLBACKS_OVER, Advance(2, false)), Advance(2, false));
    ReachCallbacksOver();
    ReachesThrough(CALLBACK_DONE, CALLBACKS_OVER, ANNOUNCED);
  }

  lemma ReachInterrupted()
    ensures Reaches(DEACTIVATING, INTERRUPTED)
  {
    ReachesInTwo(DEACTIVATING, Call(2, 1, ShutdownEntry), Advance(2, false));
    assert INTERRUPTED == Step(Step(DEACTIVATING, Call(2, 1, ShutdownEntry)), Advance(2, false));
  }

  // The `stop` on the interrupted thread is about to decide.
  const DECIDING := World(Registry(true, false, 0, false, false, true),
      Coordinator(true, Dropped, true, false, true, false, Some(1)),
      Past(Some(2), Some(0), Some(1), 1, false, false, false, None, None, 0, false),
      map[0 := Frame(0, Ended), 1 := Frame(1, Deactivating(Direct)), 2 := Frame(1, Deciding(FromShutdown))])

  lemma ReachDeciding()
    ensures Reaches(INTERRUPTED, DECIDING)
  {
    ReachesInTwo(INTERRUPTED, Advance(2, false), Advance(2, false));
    assert DECIDING == Step(Step(INTERRUPTED, Advance(2, false)), Advance(2, false));
  }

  lemma ReachNested()
    ensures Reaches(INTERRUPTED, NESTED)
  {
    ReachesInOne(DECIDING, Advance(2, false));
    assert NESTED == Step(DECIDING, Advance(2, false));
    ReachDeciding();
    ReachesThrough(INTERRUPTED, DECIDING, NESTED);
  }

  // With a direct caller of `stop` the stopped event can come before the cleanup
  // has returned: the registry's own `stop` finds the cleaned flag set.
  lemma StoppedBeforeCleaned()
    ensures exists actions :: var e := Run(BOOT, actions);
              e.r.stopped && e.c.hold.Dropped? && !e.p.abandoned && e.p.cleanups == 1 && !e.p.cleanupEnded
  {
    ReachStartup(); ReachDeactivating(); ReachCleaning(); ReachCallback(); ReachAnnounced();
    ReachesThrough(BOOT, AFTER_STARTUP, DEACTIVATING);
    ReachesThrough(BOOT, DEACTIVATING, CLEANING);
    ReachesThrough(BOOT, CLEANING, CALLBACK_DONE);
    ReachesThrough(BOOT, CALLBACK_DONE, ANNOUNCED);
  }

  // And because the revoke lock is reentrant, a signal that arrives on the thread
  // of such a caller can begin the cleanup in the middle of its deactivation.
  lemma CleanupInsideDeactivation()
    ensures exists actions :: var e := Run(BOOT, actions);
              e.p.cleanups == 1 && e.c.deactivated && !e.p.deactivationEnded
  {
    ReachStartup(); ReachDeactivating(); ReachInterrupted(); ReachNested();
    ReachesThrough(BOOT, AFTER_STARTUP, DEACTIVATING);
    ReachesThrough(BOOT, DEACTIVATING, INTERRUPTED);
    ReachesThrough(BOOT, INTERRUPTED, NESTED);
  }

  // The registry's `stop` is deactivating after startup, ...
  const REVOKING := World(Registry(true, false, 0, false, false, true),
                          Coordinator(true, Dropped, true, false, true, false, Some(1)),
      Past(Some(1), Some(0), Some(1), 1, false, false, false, None, None, 0, false),
      map[0 := Frame(0, Ended), 1 := Frame(1, Deactivating(FromShutdown))])

  // ... has raised out of it, ...
  const RAISED := World(Registry(true, false, 0, false, false, true),
                        Coordinator(true, Dropped, true, false, true, false, None),
      Past(Some(1), Some(0), Some(1), 1, true, true, true, None, None, 0, false),
      map[0 := Frame(0, Ended), 1 := Frame(1, CallbacksEnd)])

  // ... and the end is announced; nothing is under way and nothing was cleaned.
  const UNCLEANED := World(Registry(true, true, 0, true, true, true),
                           Coordinator(true, Dropped, true, false, true, false, None),
      Past(Some(1), Some(0), Some(1), 1, true, true, true, None, None, 0, false),
      map[0 := Frame(0, Ended), 1 := Frame(1, Ended)])

  // The registry has set the stop request after startup and calls its `stop`.
  const STOP_WANTED := World(REVOKING.r, AFTER_STARTUP.c, AFTER_STARTUP.p.(shutter := Some(1)),
      map[0 := Frame(0, Ended), 1 := Frame(1, StopEntry(FromShutdown))])

  lemma ReachStopWanted()
    ensures Reaches(AFTER_STARTUP, STOP_WANTED)
  {
    ReachesInTwo(AFTER_STARTUP, Call(1, 1, ShutdownEntry), Advance(1, false));
    assert STOP_WANTED == Step(Step(AFTER_STARTUP, Call(1, 1, ShutdownEntry)), Advance(1, false));
  }

  lemma ReachRevoking()
    ensures Reaches(AFTER_STARTUP, REVOKING)
  {
    ReachesInTwo(STOP_WANTED, Advance(1, false), Advance(1, false));
    assert REVOKING == Step(Step(STOP_WANTED, Advance(1, false)), Advance(1, false));
    ReachStopWanted();
    ReachesThrough(AFTER_STARTUP, STOP_WANTED, REVOKING);
  }

  lemma ReachRaised()
    ensures Reaches(REVOKING, RAISED)
  {
    ReachesInOne(REVOKING, Advance(1, true));
    assert RAISED == Step(REVOKING, Advance(1, true));
  }

  // The registry has claimed the end.
  const UNANNOUNCED := World(Registry(true, true, 0, true, false, true), RAISED.c, RAISED.p,
      map[0 := Frame(0, Ended), 1 := Frame(1, Announcing)])

  lemma ReachUnannounced()
    ensures Reaches(RAISED, UNANNOUNCED)
  {
    ReachesInTwo(RAISED, Advance(1, false), Advance(1, false));
    assert UNANNOUNCED == Step(Step(RAISED, Advance(1, false)), Advance(1, false));
  }

  lemma ReachUncleaned()
    ensures Reaches(RAISED, UNCLEANED)
  {
    ReachesInOne(UNANNOUNCED, Advance(1, false));
    assert UNCLEANED == Step(UNANNOUNCED, Advance(1, false));
    ReachUnannounced();
    ReachesThrough(RAISED, UNANNOUNCED, UNCLEANED);
  }

  // With the registry as the only caller, a deactivation that raises after startup
  // leads to the stopped event with the cleanup never run and nothing left to do.
  lemma StoppedWithoutCleanup()
    ensures exists actions :: var e := Run(BOOT, actions);
              && e.r.stopped && e.c.hold.Dropped? && e.p.cleanups == 0 && e.p.abandoned && NoDirectStop(e)
              && forall id :: id in e.frames ==> e.frames[id].pc.Ended?
  {
    ReachStartup(); ReachRevoking(); ReachRaised(); ReachUncleaned();
    ReachesThrough(BOOT, AFTER_STARTUP, REVOKING);
    ReachesThrough(BOOT, REVOKING, RAISED);
    ReachesThrough(BOOT, RAISED, UNCLEANED);
  }
}
