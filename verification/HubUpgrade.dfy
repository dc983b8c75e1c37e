// The journalled upgrade of the per-user Hub service: three executables, a
// launchd plist, an installation manifest and a two-phase journal. Every file
// operation is one atomic effect; a crash or an OSError can happen before any.
module HubUpgrade {
  import opened Wrappers

  type Digest = string

  // A path may hold nothing, an executable the service owns (known by its
  // digest), or something the ownership check of the path refuses.
  datatype File = Absent | Program(digest: Digest) | Unsafe

  // The plist has one admissible content, the same before and after an upgrade.
  datatype Plist = NoPlist | OwnPlist | ForeignPlist

  // A manifest that passes the schema check is known by the digest it names.
  datatype Manifest = Manifest(sha: Option<Digest>) | BadManifest

  datatype Phase = Prepared | Committed

  datatype Journal =
    | NoJournal
    | Journal(prior: Manifest, next: Manifest, wasLoaded: bool, phase: Phase)
    | BadJournal

  datatype Disk = Disk(
    runtime: File,
    previous: File,
    staged: File,
    plist: Plist,
    manifest: Manifest,
    journal: Journal)

  // ----- the atomic effects -------------------------------------------------

  datatype Effect =
    | WriteStaged(digest: Digest)
    | RuntimeToPrevious
    | PreviousToRuntime
    | StagedToRuntime
    | WritePlist
    | WriteManifest(manifest: Manifest)
    | WriteJournal(journal: Journal)
    | UnlinkRuntime
    | UnlinkPrevious
    | UnlinkStaged
    | UnlinkPlist
    | UnlinkJournal

  function Apply(d: Disk, e: Effect): Disk {
    match e
    case WriteStaged(digest) => d.(staged := Program(digest))
    case RuntimeToPrevious => d.(previous := d.runtime, runtime := Absent)
    case PreviousToRuntime => d.(runtime := d.previous, previous := Absent)
    case StagedToRuntime => d.(runtime := d.staged, staged := Absent)
    case WritePlist => d.(plist := OwnPlist)
    case WriteManifest(m) => d.(manifest := m)
    case WriteJournal(j) => d.(journal := j)
    case UnlinkRuntime => d.(runtime := Absent)
    case UnlinkPrevious => d.(previous := Absent)
    case UnlinkStaged => d.(staged := Absent)
    case UnlinkPlist => d.(plist := NoPlist)
    case UnlinkJournal => d.(journal := NoJournal)
  }

  // The disk after the first `n` effects of a plan: where a crash leaves it.
  function After(d: Disk, plan: seq<Effect>, n: nat): Disk
    decreases n
  {
    if plan == [] || n == 0 then d else After(Apply(d, plan[0]), plan[1..], n - 1)
  }

  lemma {:induction false} AfterNext(d: Disk, plan: seq<Effect>, n: nat)
    requires n < |plan|
    ensures After(d, plan, n + 1) == Apply(After(d, plan, n), plan[n])
    decreases n
  {
    if n > 0 {
      AfterNext(Apply(d, plan[0]), plan[1..], n - 1);
    }
  }

  lemma {:induction false} AfterAll(d: Disk, plan: seq<Effect>, n: nat)
    requires n >= |plan|
    ensures After(d, plan, n) == After(d, plan, |plan|)
    decreases n
  {
    if plan != [] { AfterAll(Apply(d, plan[0]), plan[1..], n - 1); }
  }

  // ----- what each command demands of the disk, and the effects it plans ----

  function Sha(m: Manifest): Option<Digest> {
    if m.Manifest? then m.sha else None
  }

  predicate Admitted(f: File, prior: Manifest, next: Manifest) {
    f.Absent? || (f.Program? && (Sha(prior) == Some(f.digest) || Sha(next) == Some(f.digest)))
  }

  // The ownership check that precedes every command.
  predicate Owned(d: Disk) {
    && d.manifest.Manifest?
    && !d.journal.BadJournal?
    && match d.manifest.sha
       case Some(x) => d.runtime == Program(x) && d.plist.OwnPlist?
       case None => d.runtime.Absent? && d.plist.NoPlist?
  }

  // The checks of recovery that come before it touches anything.
  predicate RecoveryAdmits(d: Disk) {
    && d.journal.Journal?
    && d.journal.prior.Manifest? && d.journal.next.Manifest?
    && d.manifest.Manifest?
    && (d.manifest == d.journal.prior || d.manifest == d.journal.next)
    && Admitted(d.runtime, d.journal.prior, d.journal.next)
    && Admitted(d.previous, d.journal.prior, d.journal.next)
    && Admitted(d.staged, d.journal.prior, d.journal.next)
    && !d.plist.ForeignPlist?
  }

  // The effects of one recovery, in order, or None when it refuses.
  function RecoveryPlan(d: Disk): Option<seq<Effect>> {
    if !RecoveryAdmits(d) then None
    else if d.journal.phase.Committed? then
      if d.manifest == d.journal.next && Sha(d.journal.next).Some?
         && d.runtime == Program(Sha(d.journal.next).value) && Owned(d)
      then Some([UnlinkStaged, UnlinkPrevious, UnlinkJournal])
      else None
    else
      var cleanup := [WriteManifest(d.journal.prior), UnlinkStaged, UnlinkPrevious, UnlinkJournal];
      match Sha(d.journal.prior)
      case Some(x) =>
        if !d.previous.Absent? then
          if d.previous == Program(x) then Some([PreviousToRuntime, WritePlist] + cleanup) else None
        else
          if d.runtime == Program(x) then Some([WritePlist] + cleanup) else None
      case None =>
        Some([UnlinkRuntime, UnlinkPlist] + cleanup)
  }

  // The disk after the first `n` effects of a recovery; a refused one does nothing.
  function Recover(d: Disk, n: nat): Disk {
    if RecoveryPlan(d).Some? then After(d, RecoveryPlan(d).value, n) else d
  }

  // An install stages the new program only where no leftover is in the way.
  predicate InstallAdmits(d: Disk) {
    d.staged.Absent? && d.previous.Absent?
  }

  // The effects of an install of `digest` over the installation `d`, up to the
  // point where the old job is asked to stop, ...
  function StagePlan(d: Disk, digest: Digest, wasLoaded: bool): seq<Effect> {
    [WriteStaged(digest), WriteJournal(Journal(d.manifest, Manifest(Some(digest)), wasLoaded, Prepared))]
  }

  // ... when that fails, ...
  const ABANDON: seq<Effect> := [UnlinkJournal, UnlinkStaged]

  // ... when it stops, up to the start of the new job, ...
  function SwapPlan(d: Disk, digest: Digest): seq<Effect> {
    (if Sha(d.manifest).Some? then [RuntimeToPrevious] else [])
    + [StagedToRuntime, WritePlist, WriteManifest(Manifest(Some(digest)))]
  }

  // ... and once the new job is ready.
  function CommitPlan(d: Disk, digest: Digest, wasLoaded: bool): seq<Effect> {
    [WriteJournal(Journal(d.manifest, Manifest(Some(digest)), wasLoaded, Committed)), UnlinkPrevious, UnlinkJournal]
  }

  // ----- what an installation is --------------------------------------------

  function Installation(sha: Option<Digest>): Disk {
    match sha
    case Some(x) => Disk(Program(x), Absent, Absent, OwnPlist, Manifest(sha), NoJournal)
    case None => Disk(Absent, Absent, Absent, NoPlist, Manifest(None), NoJournal)
  }

  // A file of the upgrade: nothing, or a program that one of its manifests names.
  ghost predicate OfUpgrade(f: File, prior: Manifest, next: Manifest) {
    f == Absent || exists x :: f == Program(x) && Manifest(Some(x)) in [prior, next]
  }

  // What recovery accepts: a readable journal, a manifest and files that are of its
  // upgrade and nobody else's, and then either the whole new program in place after
  // the commit, or a copy of the old one, if there was one, to go back to.
  ghost predicate Recoverable(d: Disk) {
    && d.journal.Journal?
    && var (prior, next) := (d.journal.prior, d.journal.next);
       && prior != BadManifest && next != BadManifest && d.manifest in [prior, next]
       && (forall f :: f in [d.runtime, d.previous, d.staged] ==> OfUpgrade(f, prior, next))
       && d.plist in [NoPlist, OwnPlist]
       && (d.journal.phase == Committed ==>
             exists x :: d.manifest == next == Manifest(Some(x)) && d.runtime == Program(x) && d.plist == OwnPlist)
       && (d.journal.phase == Prepared ==>
             forall x :: prior == Manifest(Some(x)) ==>
               d.previous == Program(x) || (d.previous == Absent && d.runtime == Program(x)))
  }

  lemma AdmittedIsOfUpgrade(f: File, prior: Manifest, next: Manifest)
    requires prior.Manifest? && next.Manifest?
    ensures Admitted(f, prior, next) <==> OfUpgrade(f, prior, next)
  {
    if f.Program? && Admitted(f, prior, next) { assert f == Program(f.digest); }
  }

  // Anything else is refused, and left as it is.
  lemma RecoversOnlyItsOwn(d: Disk, n: nat)
    ensures RecoveryPlan(d).Some? <==> Recoverable(d)
    ensures !Recoverable(d) ==> Recover(d, n) == d
  {
    if d.journal.Journal? && d.journal.prior.Manifest? && d.journal.next.Manifest? {
      var files := [d.runtime, d.previous, d.staged];
      forall f | f in files
        ensures Admitted(f, d.journal.prior, d.journal.next) <==> OfUpgrade(f, d.journal.prior, d.journal.next)
      {
        AdmittedIsOfUpgrade(f, d.journal.prior, d.journal.next);
      }
      assert files[0] == d.runtime && files[1] == d.previous && files[2] == d.staged;
    }
  }

  // Exactly the installation `sha` and nothing else: program, plist and manifest
  // agree, and no journal, staged or previous file is left.
  ghost predicate Exactly(d: Disk, sha: Option<Digest>) {
    d == Installation(sha)
  }

  // A durable journal that names a real upgrade.
  ghost predicate Upgrading(d: Disk, prior: Option<Digest>, next: Digest) {
    && d.journal.Journal?
    && d.journal.prior == Manifest(prior) && d.journal.next == Manifest(Some(next))
    && prior != Some(next)
  }

  // A copy of the old program survives.
  ghost predicate OldKept(d: Disk, prior: Digest) {
    d.previous == Program(prior) || (d.previous.Absent? && d.runtime == Program(prior))
  }

  // Every disk an interrupted upgrade can leave behind: before the commit, ...
  ghost predicate InPrepared(d: Disk, prior: Option<Digest>, next: Digest) {
    && Upgrading(d, prior, next)
    && d.journal.phase.Prepared?
    && RecoveryAdmits(d)
    && (match prior
        case Some(x) => OldKept(d, x)
        case None => d.previous.Absent?)
  }

  // ... and after it.
  ghost predicate InCommitted(d: Disk, prior: Option<Digest>, next: Digest) {
    && Upgrading(d, prior, next)
    && d.journal.phase.Committed?
    && RecoveryAdmits(d)
    && d.manifest == Manifest(Some(next)) && d.runtime == Program(next) && d.plist.OwnPlist?
  }

  // ----- recovery -----------------------------------------------------------

  // Up to its last effect the plan goes through upgrades of this phase; the last
  // one leaves `end`.
  ghost predicate Walks(d: Disk, plan: seq<Effect>, prior: Option<Digest>, next: Digest, phase: Phase, end: Disk)
    decreases |plan|
  {
    if plan == [] then d == end
    else InPhase(d, prior, next, phase) && Walks(Apply(d, plan[0]), plan[1..], prior, next, phase, end)
  }

  ghost predicate InPhase(d: Disk, prior: Option<Digest>, next: Digest, phase: Phase) {
    if phase.Prepared? then InPrepared(d, prior, next) else InCommitted(d, prior, next)
  }

  lemma {:induction false} WalkStops(d: Disk, plan: seq<Effect>, prior: Option<Digest>, next: Digest, phase: Phase,
                                     end: Disk, n: nat)
    requires Walks(d, plan, prior, next, phase, end)
    ensures if n < |plan| then InPhase(After(d, plan, n), prior, next, phase) else After(d, plan, n) == end
    decreases n
  {
    if plan != [] && n > 0 {
      WalkStops(Apply(d, plan[0]), plan[1..], prior, next, phase, end, n - 1);
    }
  }

  // Recovery before the commit: its checks pass, an interruption after any
  // effect but the last leaves an upgrade that recovery still admits, with a
  // copy of the old program; completed, it is exactly the old installation.
  lemma RollBack(d: Disk, prior: Option<Digest>, next: Digest, n: nat)
    requires InPrepared(d, prior, next)
    ensures RecoveryPlan(d).Some?
    ensures var plan := RecoveryPlan(d).value;
            && (n < |plan| ==> InPrepared(After(d, plan, n), prior, next))
            && (n >= |plan| ==> Exactly(After(d, plan, n), prior))
  {
    var plan := RecoveryPlan(d).value;
    RollBackWalks(d, prior, next);
    WalkStops(d, plan, prior, next, Prepared, Installation(prior), n);
  }

  lemma RollBackWalks(d: Disk, prior: Option<Digest>, next: Digest)
    requires InPrepared(d, prior, next)
    ensures RecoveryPlan(d).Some? && Walks(d, RecoveryPlan(d).value, prior, next, Prepared, Installation(prior))
  {
    var tail := [WriteManifest(Manifest(prior)), UnlinkStaged, UnlinkPrevious, UnlinkJournal];
    match prior
    case None =>
      var d1 := Apply(d, UnlinkRuntime);
      var d2 := Apply(d1, UnlinkPlist);
      CleanupWalks(d2, prior, next);
      assert ([UnlinkPlist] + tail)[1..] == tail;
      assert Walks(d1, [UnlinkPlist] + tail, prior, next, Prepared, Installation(prior));
      assert ([UnlinkRuntime, UnlinkPlist] + tail)[1..] == [UnlinkPlist] + tail;
    case Some(x) =>
      var d1 := if d.previous.Absent? then d else Apply(d, PreviousToRuntime);
      var d2 := Apply(d1, WritePlist);
      CleanupWalks(d2, prior, next);
      assert ([WritePlist] + tail)[1..] == tail;
      assert Walks(d1, [WritePlist] + tail, prior, next, Prepared, Installation(prior));
      assert ([PreviousToRuntime, WritePlist] + tail)[1..] == [WritePlist] + tail;
  }

  // The common end of every rollback, once program and plist are the old ones.
  lemma CleanupWalks(d: Disk, prior: Option<Digest>, next: Digest)
    requires InPrepared(d, prior, next) && d.previous.Absent?
    requires match prior
      case Some(x) => d.runtime == Program(x) && d.plist.OwnPlist?
      case None => d.runtime.Absent? && d.plist.NoPlist?
    ensures Walks(d, [WriteManifest(Manifest(prior)), UnlinkStaged, UnlinkPrevious, UnlinkJournal],
                  prior, next, Prepared, Installation(prior))
  {
    var d1 := Apply(d, WriteManifest(Manifest(prior)));
    var d2 := Apply(d1, UnlinkStaged);
    var d3 := Apply(d2, UnlinkPrevious);
    assert Walks(d3, [UnlinkJournal], prior, next, Prepared, Installation(prior));
    assert [UnlinkPrevious, UnlinkJournal][1..] == [UnlinkJournal];
    assert Walks(d2, [UnlinkPrevious, UnlinkJournal], prior, next, Prepared, Installation(prior));
    assert [UnlinkStaged, UnlinkPrevious, UnlinkJournal][1..] == [UnlinkPrevious, UnlinkJournal];
    assert Walks(d1, [UnlinkStaged, UnlinkPrevious, UnlinkJournal], prior, next, Prepared, Installation(prior));
  }

  // Recovery after the commit only moves forward: interrupted, it is still a
  // committed upgrade; completed, it is exactly the new installation.
  lemma RollForward(d: Disk, prior: Option<Digest>, next: Digest, n: nat)
    requires InCommitted(d, prior, next)
    ensures RecoveryPlan(d).Some?
    ensures var plan := RecoveryPlan(d).value;
            && (n < |plan| ==> InCommitted(After(d, plan, n), prior, next))
            && (n >= |plan| ==> Exactly(After(d, plan, n), Some(next)))
  {
    var plan := RecoveryPlan(d).value;
    if n >= |plan| { AfterAll(d, plan, n); }
    Unfold(d, plan);
  }

  // The disks a plan of at most seven effects goes through, effect by effect.
  lemma Unfold(d: Disk, plan: seq<Effect>)
    ensures After(d, plan, 0) == d
    ensures |plan| > 0 ==> After(d, plan, 1) == Apply(d, plan[0])
    ensures |plan| > 1 ==> After(d, plan, 2) == Apply(After(d, plan, 1), plan[1])
    ensures |plan| > 2 ==> After(d, plan, 3) == Apply(After(d, plan, 2), plan[2])
    ensures |plan| > 3 ==> After(d, plan, 4) == Apply(After(d, plan, 3), plan[3])
    ensures |plan| > 4 ==> After(d, plan, 5) == Apply(After(d, plan, 4), plan[4])
    ensures |plan| > 5 ==> After(d, plan, 6) == Apply(After(d, plan, 5), plan[5])
    ensures |plan| > 6 ==> After(d, plan, 7) == Apply(After(d, plan, 6), plan[6])
  {
    if |plan| > 0 { AfterNext(d, plan, 0); }
    if |plan| > 1 { AfterNext(d, plan, 1); }
    if |plan| > 2 { AfterNext(d, plan, 2); }
    if |plan| > 3 { AfterNext(d, plan, 3); }
    if |plan| > 4 { AfterNext(d, plan, 4); }
    if |plan| > 5 { AfterNext(d, plan, 5); }
    if |plan| > 6 { AfterNext(d, plan, 6); }
  }

  function Recoveries(d: Disk, ns: seq<nat>): Disk
    decreases |ns|
  {
    if ns == [] then d else Recoveries(Recover(d, ns[0]), ns[1..])
  }

  // However often recovery is interrupted, wherever, and run again: the phase of
  // the journal never changes, a rolled-back upgrade stays on the old
  // installation and a committed one on the new, and one uninterrupted recovery
  // anywhere in the sequence settles it.
  lemma {:induction false} RecoveriesConverge(d: Disk, prior: Option<Digest>, next: Digest, ns: seq<nat>)
    requires InPrepared(d, prior, next) || InCommitted(d, prior, next)
    ensures InPrepared(d, prior, next) ==>
              InPrepared(Recoveries(d, ns), prior, next) || Exactly(Recoveries(d, ns), prior)
    ensures InCommitted(d, prior, next) ==>
              InCommitted(Recoveries(d, ns), prior, next) || Exactly(Recoveries(d, ns), Some(next))
    ensures (exists i :: 0 <= i < |ns| && ns[i] >= 6) ==> Recoveries(d, ns).journal.NoJournal?
    decreases |ns|
  {
    if ns != [] {
      var d' := Recover(d, ns[0]);
      if d.journal.phase.Prepared? { RollBack(d, prior, next, ns[0]); } else { RollForward(d, prior, next, ns[0]); }
      if d'.journal.NoJournal? {
        NothingToRecover(d', ns[1..]);
      } else {
        RecoveriesConverge(d', prior, next, ns[1..]);
        if exists i :: 0 <= i < |ns| && ns[i] >= 6 {
          var i :| 0 <= i < |ns| && ns[i] >= 6;
          assert ns[1..][i - 1] == ns[i];
        }
      }
    }
  }

  // Without a journal there is nothing to recover.
  lemma {:induction false} NothingToRecover(d: Disk, ns: seq<nat>)
    requires d.journal.NoJournal?
    ensures Recoveries(d, ns) == d
  {
    if ns != [] { NothingToRecover(d, ns[1..]); }
  }

  // ----- the install --------------------------------------------------------

  // The disk `prior` with the staged program of an upgrade to `next` beside it,
  // and no journal that would lead a recovery to it.
  ghost predicate Orphaned(d: Disk, prior: Option<Digest>, next: Digest) {
    d.staged == Program(next) && prior != Some(next) && Exactly(d.(staged := Absent), prior)
  }

  // The disk once the journal of an upgrade to `next` is durable, ...
  function Staged(d: Disk, next: Digest, wasLoaded: bool): Disk {
    d.(staged := Program(next), journal := Journal(d.manifest, Manifest(Some(next)), wasLoaded, Prepared))
  }

  // ... and once the new program, plist and manifest are all in place.
  function Swapped(d: Disk, next: Digest, wasLoaded: bool): Disk {
    Disk(Program(next), d.runtime, Absent, OwnPlist, Manifest(Some(next)), Staged(d, next, wasLoaded).journal)
  }

  // The parts of an install of `next` over `prior`, and what every prefix of each
  // part leaves behind. Staging and abandoning pass through an orphaned program;
  // from the durable journal on the swap and the commit do not.
  lemma StageStates(d: Disk, prior: Option<Digest>, next: Digest, wasLoaded: bool, n: nat)
    requires Exactly(d, prior) && prior != Some(next)
    ensures InstallAdmits(d) && Owned(d)
    ensures var e := After(d, StagePlan(d, next, wasLoaded), n);
            && (n == 0 ==> Exactly(e, prior))
            && (n == 1 ==> Orphaned(e, prior, next))
            && (n >= 2 ==> e == Staged(d, next, wasLoaded) && InPrepared(e, prior, next))
  {
    var plan := StagePlan(d, next, wasLoaded);
    Unfold(d, plan);
    if n >= 2 { AfterAll(d, plan, n); }
  }

  lemma AbandonStates(d: Disk, prior: Option<Digest>, next: Digest, wasLoaded: bool, n: nat)
    requires Exactly(d, prior) && prior != Some(next)
    ensures var e := After(Staged(d, next, wasLoaded), ABANDON, n);
            && (n == 0 ==> InPrepared(e, prior, next))
            && (n == 1 ==> Orphaned(e, prior, next))
            && (n >= 2 ==> Exactly(e, prior))
  {
    var s := Staged(d, next, wasLoaded);
    Unfold(s, ABANDON);
    if n >= 2 { AfterAll(s, ABANDON, n); }
  }

  lemma SwapStates(d: Disk, prior: Option<Digest>, next: Digest, wasLoaded: bool, n: nat)
    requires Exactly(d, prior) && prior != Some(next)
    ensures var e := After(Staged(d, next, wasLoaded), SwapPlan(d, next), n);
            && InPrepared(e, prior, next)
            && (n >= |SwapPlan(d, next)| ==> e == Swapped(d, next, wasLoaded))
  {
    var s := Staged(d, next, wasLoaded);
    var tail := [StagedToRuntime, WritePlist, WriteManifest(Manifest(Some(next)))];
    var end := Swapped(d, next, wasLoaded);
    var s1 := if prior.Some? then Apply(s, RuntimeToPrevious) else s;
    var s2 := Apply(s1, StagedToRuntime);
    var s3 := Apply(s2, WritePlist);
    assert Walks(s3, [WriteManifest(Manifest(Some(next)))], prior, next, Prepared, end);
    assert [WritePlist, WriteManifest(Manifest(Some(next)))][1..] == [WriteManifest(Manifest(Some(next)))];
    assert Walks(s2, [WritePlist, WriteManifest(Manifest(Some(next)))], prior, next, Prepared, end);
    assert tail[1..] == [WritePlist, WriteManifest(Manifest(Some(next)))];
    assert Walks(s1, tail, prior, next, Prepared, end);
    assert ([RuntimeToPrevious] + tail)[1..] == tail;
    assert SwapPlan(d, next) == if prior.Some? then [RuntimeToPrevious] + tail else tail;
    WalkStops(s, SwapPlan(d, next), prior, next, Prepared, end, n);
  }

  lemma CommitStates(d: Disk, prior: Option<Digest>, next: Digest, wasLoaded: bool, n: nat)
    requires Exactly(d, prior) && prior != Some(next)
    ensures var e := After(Swapped(d, next, wasLoaded), CommitPlan(d, next, wasLoaded), n);
            && (n == 0 ==> InPrepared(e, prior, next))
            && (0 < n < 3 ==> InCommitted(e, prior, next))
            && (n >= 3 ==> Exactly(e, Some(next)))
  {
    var s := Swapped(d, next, wasLoaded);
    var plan := CommitPlan(d, next, wasLoaded);
    Unfold(s, plan);
    if n >= 3 { AfterAll(s, plan, n); }
  }

  // ----- whole histories ----------------------------------------------------

  datatype Part = Staging | Abandoning | Swapping | Committing

  // Where an install of `next` over the installation `d` is cut off: after the
  // first `n` effects of one of its parts.
  function CutOff(d: Disk, next: Digest, wasLoaded: bool, part: Part, n: nat): Disk {
    match part
    case Staging => After(d, StagePlan(d, next, wasLoaded), n)
    case Abandoning => After(Staged(d, next, wasLoaded), ABANDON, n)
    case Swapping => After(Staged(d, next, wasLoaded), SwapPlan(d, next), n)
    case Committing => After(Swapped(d, next, wasLoaded), CommitPlan(d, next, wasLoaded), n)
  }

  // A crash anywhere in an install, then one recovery: the outcome is exactly the
  // old or exactly the new installation unless the crash falls between the staged
  // program and its journal, on the way in or on the way out of a refused stop.
  // It is the new one exactly from the committed journal on.
  lemma CrashThenRecover(d: Disk, prior: Option<Digest>, next: Digest, wasLoaded: bool, part: Part, n: nat)
    requires Exactly(d, prior) && prior != Some(next)
    ensures var r := Recover(CutOff(d, next, wasLoaded, part, n), 6);
            && (Exactly(r, prior) || Exactly(r, Some(next)) <==> !(n == 1 && (part.Staging? || part.Abandoning?)))
            && (Exactly(r, Some(next)) <==> part.Committing? && n >= 1)
            && (n == 1 && (part.Staging? || part.Abandoning?) ==> Orphaned(r, prior, next))
  {
    var e := CutOff(d, next, wasLoaded, part, n);
    match part {
      case Staging => StageStates(d, prior, next, wasLoaded, n);
      case Abandoning => AbandonStates(d, prior, next, wasLoaded, n);
      case Swapping => SwapStates(d, prior, next, wasLoaded, n);
      case Committing => CommitStates(d, prior, next, wasLoaded, n);
    }
    if InPrepared(e, prior, next) { RollBack(e, prior, next, 6); }
    if InCommitted(e, prior, next) { RollForward(e, prior, next, 6); }
  }

  // One run of a management command, however it ends. Every command recovers
  // first; an install goes on only from a settled installation it changes. A
  // swap that fails rolls back in the same process.
  datatype Session =
    | RecoverOnly(effects: nat)
    | Install(next: Digest, wasLoaded: bool, part: Part, effects: nat)
    | RolledBack(next: Digest, wasLoaded: bool, swapped: nat, effects: nat)

  function Run(d: Disk, s: Session): Disk {
    match s
    case RecoverOnly(n) => Recover(d, n)
    case Install(next, wasLoaded, part, n) =>
      var r := Recover(d, 6);
      if Installs(r, next) then CutOff(r, next, wasLoaded, part, n) else r
    case RolledBack(next, wasLoaded, k, n) =>
      var r := Recover(d, 6);
      if Installs(r, next) then Recover(CutOff(r, next, wasLoaded, Swapping, k), n) else r
  }

  predicate Installs(d: Disk, next: Digest) {
    d.journal.NoJournal? && Owned(d) && Sha(d.manifest) != Some(next) && InstallAdmits(d)
  }

  // An install goes ahead exactly on a complete installation of another program.
  lemma InstallsOverInstallation(d: Disk, next: Digest)
    ensures Installs(d, next) <==> exists sha :: Exactly(d, sha) && sha != Some(next)
  {
    if Installs(d, next) { assert Exactly(d, d.manifest.sha); }
  }

  function Runs(d: Disk, ss: seq<Session>): Disk
    decreases |ss|
  {
    if ss == [] then d else Runs(Run(d, ss[0]), ss[1..])
  }

  // A disk some history of commands can produce.
  datatype Place = Settled | Preparing | Finishing | Stranded

  ghost predicate At(d: Disk, place: Place, prior: Option<Digest>, next: Digest) {
    match place
    case Settled => Exactly(d, prior)
    case Preparing => InPrepared(d, prior, next)
    case Finishing => InCommitted(d, prior, next)
    case Stranded => Orphaned(d, prior, next)
  }

  ghost predicate Lawful(d: Disk) {
    exists place, prior, next :: At(d, place, prior, next)
  }

  lemma CutOffLawful(d: Disk, prior: Option<Digest>, next: Digest, wasLoaded: bool, part: Part, n: nat)
    requires Exactly(d, prior) && prior != Some(next)
    ensures Lawful(CutOff(d, next, wasLoaded, part, n))
  {
    var e := CutOff(d, next, wasLoaded, part, n);
    match part {
      case Staging => StageStates(d, prior, next, wasLoaded, n);
      case Abandoning => AbandonStates(d, prior, next, wasLoaded, n);
      case Swapping => SwapStates(d, prior, next, wasLoaded, n);
      case Committing => CommitStates(d, prior, next, wasLoaded, n);
    }
    assert At(e, Settled, prior, next) || At(e, Settled, Some(next), next) || At(e, Preparing, prior, next)
           || At(e, Finishing, prior, next) || At(e, Stranded, prior, next);
  }

  // Recovery of a lawful disk, cut off anywhere, is lawful; completed, it leaves
  // an installation, or the orphan that was already there.
  lemma RecoverLawful(d: Disk, n: nat)
    requires Lawful(d)
    ensures Lawful(Recover(d, n))
    ensures n >= 6 ==>
      exists prior, next :: At(Recover(d, n), Settled, prior, next) || At(Recover(d, n), Stranded, prior, next)
  {
    var place, prior, next :| At(d, place, prior, next);
    match place {
      case Settled => assert At(Recover(d, n), Settled, prior, next);
      case Stranded => assert At(Recover(d, n), Stranded, prior, next);
      case Preparing =>
        RollBack(d, prior, next, n);
        assert At(Recover(d, n), Preparing, prior, next) || At(Recover(d, n), Settled, prior, next);
      case Finishing =>
        RollForward(d, prior, next, n);
        assert At(Recover(d, n), Finishing, prior, next) || At(Recover(d, n), Settled, Some(next), next);
    }
  }

  lemma RunLawful(d: Disk, s: Session)
    requires Lawful(d)
    ensures Lawful(Run(d, s))
  {
    match s
    case RecoverOnly(n) => RecoverLawful(d, n);
    case Install(next, wasLoaded, part, n) =>
      RecoverLawful(d, 6);
      var r := Recover(d, 6);
      if Installs(r, next) { CutOffLawful(r, r.manifest.sha, next, wasLoaded, part, n); }
    case RolledBack(next, wasLoaded, k, n) =>
      RecoverLawful(d, 6);
      var r := Recover(d, 6);
      if Installs(r, next) {
        CutOffLawful(r, r.manifest.sha, next, wasLoaded, Swapping, k);
        RecoverLawful(CutOff(r, next, wasLoaded, Swapping, k), n);
      }
  }

  // Over any history of installs, failures, crashes and recoveries: the disk is
  // an installation, an upgrade that recovery admits and that still has the old
  // program until its commit, or an installation with an orphan; and one more
  // recovery always ends in an installation, with at most the orphan beside it.
  lemma {:induction false} HistoriesAreLawful(d: Disk, ss: seq<Session>)
    requires Lawful(d)
    ensures Lawful(Runs(d, ss))
    ensures exists prior, next ::
      At(Recover(Runs(d, ss), 6), Settled, prior, next) || At(Recover(Runs(d, ss), 6), Stranded, prior, next)
    decreases |ss|
  {
    if ss == [] {
      RecoverLawful(d, 6);
    } else {
      RunLawful(d, ss[0]);
      HistoriesAreLawful(Run(d, ss[0]), ss[1..]);
    }
  }

  // The first management command creates the root with an empty manifest.
  lemma FirstRunIsLawful()
    ensures Lawful(Installation(None))
  {
    assert At(Installation(None), Settled, None, "");
  }

  // An orphaned program blocks every later upgrade: no command removes it.
  lemma OrphanStays(d: Disk, prior: Option<Digest>, next: Digest, ss: seq<Session>)
    requires Orphaned(d, prior, next)
    ensures Runs(d, ss) == d && !InstallAdmits(d)
    decreases |ss|
  {
    if ss != [] { OrphanStays(d, prior, next, ss[1..]); }
  }

  // No history leaves the machine without a program to run: before the commit a
  // copy of the old one survives, and at every other point the program named by
  // the manifest is in place.
  lemma NoHistoryLosesTheProgram(d: Disk, ss: seq<Session>)
    requires Lawful(d)
    ensures var e := Runs(d, ss);
            && !e.journal.BadJournal?
            && (e.journal.Journal? && e.journal.phase.Prepared? && Sha(e.journal.prior).Some? ==>
                  OldKept(e, Sha(e.journal.prior).value))
            && (!(e.journal.Journal? && e.journal.phase.Prepared?) && Sha(e.manifest).Some? ==>
                  e.runtime == Program(Sha(e.manifest).value))
  {
    HistoriesAreLawful(d, ss);
    var place, prior, next :| At(Runs(d, ss), place, prior, next);
  }

  // A whole install over an installation leaves exactly the new one.
  lemma InstalledIsExact(d: Disk, prior: Option<Digest>, next: Digest, wasLoaded: bool)
    requires Exactly(d, prior)
    ensures prior == Some(next) ==> Exactly(Run(d, RecoverOnly(0)), Some(next))
    ensures prior != Some(next) ==> Exactly(Run(d, Install(next, wasLoaded, Committing, 3)), Some(next))
  {
    if prior != Some(next) { CommitStates(d, prior, next, wasLoaded, 3); }
  }

  // An install that ended with everything it did taken back.
  ghost predicate Undone(s: Session, d: Disk, next: Digest, wasLoaded: bool) {
    || s == RecoverOnly(0)
    || s == Install(next, wasLoaded, Abandoning, 2)
    || (s.RolledBack? && s.next == next && s.wasLoaded == wasLoaded
        && (RecoveryPlan(CutOff(d, next, wasLoaded, Swapping, s.swapped)).Some? ==> s.effects >= 6))
  }

  lemma UndoneIsExact(d: Disk, prior: Option<Digest>, next: Digest, wasLoaded: bool, s: Session)
    requires Exactly(d, prior) && Undone(s, d, next, wasLoaded)
    ensures Exactly(Run(d, s), prior)
  {
    if Installs(d, next) && !s.RecoverOnly? {
      if s.Install? {
        AbandonStates(d, prior, next, wasLoaded, 2);
      } else {
        var e := CutOff(d, next, wasLoaded, Swapping, s.swapped);
        SwapStates(d, prior, next, wasLoaded, s.swapped);
        RollBack(e, prior, next, s.effects);
      }
    }
  }

  // ----- the management object ----------------------------------------------

  // How one file operation, or one call into launchd, comes back: done, with an
  // OSError or ServiceError, or not at all because the process died before it.
  datatype Signal = Performed | Raised | Died

  // When an install succeeds: the new program's job starts, and unless it is the
  // program installed already no leftover is in the way and the old job stops.
  ghost predicate MayInstall(d: Disk, next: Digest, stops: bool, starts: bool) {
    starts && (Sha(d.manifest) == Some(next) || (d.staged.Absent? && d.previous.Absent? && stops))
  }

  // What recovery asks of launchd before it touches a file.
  ghost predicate MayTouch(d: Disk, stops: bool, verifies: bool) {
    d.journal.Journal? && (if d.journal.phase.Committed? then verifies else stops)
  }

  // When a recovery succeeds: it is admitted, launchd lets it, and a job that is to
  // run again starts.
  ghost predicate Recovers(d: Disk, restart: bool, stops: bool, verifies: bool, starts: bool) {
    && RecoveryPlan(d).Some? && MayTouch(d, stops, verifies)
    && (d.journal.phase.Prepared? && restart && Sha(d.journal.prior).Some? && d.journal.wasLoaded ==> starts)
  }

  // `faults` scripts the file operations to come (an exhausted script means they
  // all succeed); what launchd answers is an argument of each method.
  class Manager {
    var disk: Disk
    var faults: seq<Signal>

    constructor (disk: Disk, faults: seq<Signal>)
      ensures this.disk == disk && this.faults == faults
    {
      this.disk, this.faults := disk, faults;
    }

    method Do(e: Effect) returns (signal: Signal)
      modifies this
      ensures disk == if signal.Performed? then Apply(old(disk), e) else old(disk)
      ensures old(faults) == [] ==> signal.Performed? && faults == []
    {
      signal := if faults == [] then Performed else faults[0];
      faults := if faults == [] then [] else faults[1..];
      if signal.Performed? {
        disk := Apply(disk, e);
      }
    }

    // Roll an interrupted upgrade back or forward. It performs a prefix of the
    // recovery plan, the whole of it when it succeeds; and it succeeds, when no
    // file operation fails, exactly if launchd lets it. A job that does not stop,
    // or that cannot be verified, is left as it is.
    method RecoverUpgrade(restart: bool, stops: bool, verifies: bool, starts: bool)
      returns (signal: Signal, ghost n: nat)
      modifies this
      ensures disk == Recover(old(disk), n)
      ensures signal.Performed? ==> n >= 6 && Recovers(old(disk), restart, stops, verifies, starts)
      ensures RecoveryPlan(old(disk)).None? ==> signal.Raised?
      ensures RecoveryPlan(old(disk)).None? || !MayTouch(old(disk), stops, verifies) ==> disk == old(disk)
      ensures old(faults) == [] ==>
        && faults == [] && (signal.Performed? <==> Recovers(old(disk), restart, stops, verifies, starts))
        && (RecoveryPlan(old(disk)).Some? && MayTouch(old(disk), stops, verifies) ==> n >= 6)
    {
      n := 0;
      var d := disk;
      if !RecoveryAdmits(d) {
        return Raised, 0;
      }
      var journal := d.journal;
      if journal.phase.Committed? {
        if d.manifest != journal.next || Sha(journal.next).None?
           || d.runtime != Program(Sha(journal.next).value) || !Owned(d) {
          return Raised, 0;
        }
        if !verifies {
          return Raised, 0;
        }
        Unfold(d, RecoveryPlan(d).value);
        signal := Do(UnlinkStaged);
        if !signal.Performed? { return signal, 0; }
        signal := Do(UnlinkPrevious);
        if !signal.Performed? { return signal, 1; }
        signal := Do(UnlinkJournal);
        if !signal.Performed? { return signal, 2; }
        AfterAll(d, RecoveryPlan(d).value, 6);
        return Performed, 6;
      }
      if !stops {
        return Raised, 0;
      }
      signal, n := RollBackFiles(journal);
      if signal.Performed? && restart && Sha(journal.prior).Some? && journal.wasLoaded && !starts {
        return Raised, n;
      }
    }

    method RollBackFiles(journal: Journal) returns (signal: Signal, ghost n: nat)
      requires RecoveryAdmits(disk) && journal == disk.journal && journal.phase.Prepared?
      modifies this
      ensures disk == Recover(old(disk), n)
      ensures signal.Performed? ==> RecoveryPlan(old(disk)).Some? && n >= 6
      ensures RecoveryPlan(old(disk)).None? ==> signal.Raised?
      ensures old(faults) == [] ==>
        faults == [] && (signal.Performed? <==> RecoveryPlan(old(disk)).Some?)
    {
      n := 0;
      ghost var d := disk;
      match Sha(journal.prior) {
        case Some(x) =>
          if !disk.previous.Absent? {
            if disk.previous != Program(x) { return Raised, 0; }
            Unfold(d, RecoveryPlan(d).value);
            signal := Do(PreviousToRuntime);
            if !signal.Performed? { return signal, 0; }
            n := 1;
          } else if disk.runtime != Program(x) {
            return Raised, 0;
          }
          Unfold(d, RecoveryPlan(d).value);
          signal := Do(WritePlist);
          if !signal.Performed? { return; }
          n := n + 1;
        case None =>
          Unfold(d, RecoveryPlan(d).value);
          signal := Do(UnlinkRuntime);
          if !signal.Performed? { return signal, 0; }
          signal := Do(UnlinkPlist);
          if !signal.Performed? { return signal, 1; }
          n := 2;
      }
      ghost var plan := RecoveryPlan(d).value;
      signal, n := RestoreManifest(journal.prior, d, plan, n);
    }

    // The end of a rollback: the prior manifest, and nothing of the upgrade left.
    method RestoreManifest(prior: Manifest, ghost d: Disk, ghost plan: seq<Effect>, ghost from: nat)
      returns (signal: Signal, ghost n: nat)
      requires |plan| == from + 4 && from <= 2 && disk == After(d, plan, from)
      requires plan[from..] == [WriteManifest(prior), UnlinkStaged, UnlinkPrevious, UnlinkJournal]
      modifies this
      ensures disk == After(d, plan, n)
      ensures signal.Performed? ==> n == 6
      ensures old(faults) == [] ==> signal.Performed? && faults == []
    {
      n := from;
      assert forall k :: 0 <= k < 4 ==> plan[from + k] == plan[from..][k];
      AfterNext(d, plan, from);
      signal := Do(WriteManifest(prior));
      if !signal.Performed? { return; }
      AfterNext(d, plan, from + 1);
      signal := Do(UnlinkStaged);
      if !signal.Performed? { return signal, from + 1; }
      AfterNext(d, plan, from + 2);
      signal := Do(UnlinkPrevious);
      if !signal.Performed? { return signal, from + 2; }
      AfterNext(d, plan, from + 3);
      signal := Do(UnlinkJournal);
      if !signal.Performed? { return signal, from + 3; }
      AfterAll(d, plan, 6);
      n := 6;
    }

    // Install the program of the application over the current installation. It
    // ends as one of the sessions of the model, the committed one on success.
    // On success over an installation, exactly the new installation is left.
    method InstallProgram(next: Digest, wasLoaded: bool, stops: bool, starts: bool, rollback: (bool, bool, bool))
      returns (signal: Signal, ghost session: Session)
      requires Owned(disk) && disk.journal.NoJournal?
      modifies this
      ensures disk == Run(old(disk), session)
      ensures forall prior :: Exactly(old(disk), prior) && signal.Performed? ==> Exactly(disk, Some(next))
      ensures signal.Performed? ==> MayInstall(old(disk), next, stops, starts)
      ensures old(faults) == [] ==> (signal.Performed? <==> MayInstall(old(disk), next, stops, starts))
      ensures old(faults) == [] && !signal.Performed? && (stops ==> rollback.0) ==>
        forall prior :: Exactly(old(disk), prior) ==> Exactly(disk, prior)
    {
      ghost var d := disk;
      signal, session := StageAndSwap(next, wasLoaded, stops, starts, rollback);
      forall prior | Exactly(d, prior)
        ensures signal.Performed? ==> Exactly(disk, Some(next))
        ensures !signal.Performed? && Undone(session, d, next, wasLoaded) ==> Exactly(disk, prior)
      {
        InstalledIsExact(d, prior, next, wasLoaded);
        if Undone(session, d, next, wasLoaded) { UndoneIsExact(d, prior, next, wasLoaded, session); }
      }
    }

    method StageAndSwap(next: Digest, wasLoaded: bool, stops: bool, starts: bool, rollback: (bool, bool, bool))
      returns (signal: Signal, ghost session: Session)
      requires Owned(disk) && disk.journal.NoJournal?
      modifies this
      ensures disk == Run(old(disk), session)
      ensures signal.Performed? ==>
        session == if Sha(old(disk.manifest)) == Some(next) then RecoverOnly(0)
                   else Install(next, wasLoaded, Committing, 3)
      ensures signal.Performed? ==> MayInstall(old(disk), next, stops, starts)
      ensures old(faults) == [] ==> (signal.Performed? <==> MayInstall(old(disk), next, stops, starts))
      ensures old(faults) == [] && !signal.Performed? && (stops ==> rollback.0) ==>
        Undone(session, old(disk), next, wasLoaded)
    {
      session := RecoverOnly(0);
      ghost var d := disk;
      var current := disk.manifest;
      if Sha(current) == Some(next) {
        return if starts then Performed else Raised, RecoverOnly(0);
      }
      if !disk.staged.Absent? || !disk.previous.Absent? {
        return Raised, RecoverOnly(0);
      }
      assert Recover(d, 6) == d && Installs(d, next);
      Unfold(d, StagePlan(d, next, wasLoaded));
      session := Install(next, wasLoaded, Staging, 0);
      signal := Do(WriteStaged(next));
      if !signal.Performed? { return; }
      session := Install(next, wasLoaded, Staging, 1);
      signal := Do(WriteJournal(Journal(current, Manifest(Some(next)), wasLoaded, Prepared)));
      if !signal.Performed? { return; }
      ghost var s := Staged(d, next, wasLoaded);
      assert disk == s;
      if !stops {
        Unfold(s, ABANDON);
        session := Install(next, wasLoaded, Abandoning, 0);
        signal := Do(UnlinkJournal);
        if !signal.Performed? { return; }
        session := Install(next, wasLoaded, Abandoning, 1);
        signal := Do(UnlinkStaged);
        if !signal.Performed? { return; }
        return Raised, Install(next, wasLoaded, Abandoning, 2);
      }
      ghost var k;
      signal, k := SwapFiles(d, next, wasLoaded);
      session := Install(next, wasLoaded, Swapping, k);
      if signal.Died? { return; }
      if signal.Raised? || !starts {
        ghost var n;
        signal, n := RecoverUpgrade(true, rollback.0, rollback.1, rollback.2);
        return if signal.Died? then Died else Raised, RolledBack(next, wasLoaded, k, n);
      }
      signal, k := CommitFiles(d, next, wasLoaded);
      session := Install(next, wasLoaded, Committing, k);
    }

    method SwapFiles(ghost d: Disk, next: Digest, wasLoaded: bool) returns (signal: Signal, ghost k: nat)
      requires Owned(d) && InstallAdmits(d) && d.journal.NoJournal? && disk == Staged(d, next, wasLoaded)
      modifies this
      ensures disk == After(Staged(d, next, wasLoaded), SwapPlan(d, next), k)
      ensures signal.Performed? ==> disk == Swapped(d, next, wasLoaded)
      ensures old(faults) == [] ==> signal.Performed? && faults == []
    {
      Unfold(disk, SwapPlan(d, next));
      k := 0;
      if Sha(disk.manifest).Some? {
        signal := Do(RuntimeToPrevious);
        if !signal.Performed? { return; }
        k := 1;
      }
      signal := Do(StagedToRuntime);
      if !signal.Performed? { return; }
      k := k + 1;
      signal := Do(WritePlist);
      if !signal.Performed? { return; }
      k := k + 1;
      signal := Do(WriteManifest(Manifest(Some(next))));
      if !signal.Performed? { return; }
      k := k + 1;
    }

    method CommitFiles(ghost d: Disk, next: Digest, wasLoaded: bool) returns (signal: Signal, ghost k: nat)
      requires disk == Swapped(d, next, wasLoaded)
      modifies this
      ensures disk == After(Swapped(d, next, wasLoaded), CommitPlan(d, next, wasLoaded), k)
      ensures signal.Performed? ==> k == 3
      ensures old(faults) == [] ==> signal.Performed?
    {
      Unfold(disk, CommitPlan(d, next, wasLoaded));
      k := 0;
      signal := Do(WriteJournal(disk.journal.(phase := Committed)));
      if !signal.Performed? { return; }
      signal := Do(UnlinkPrevious);
      if !signal.Performed? { return signal, 1; }
      signal := Do(UnlinkJournal);
      if !signal.Performed? { return signal, 2; }
      k := 3;
    }
  }
}
