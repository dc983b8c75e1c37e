// The durable event counter: one record kept twice, written anchor first and
// then primary; the session that reserves ids; and the offline repair of a pair.
module EventLineage {
  import opened Wrappers

  const MAX_EVENT_ID: int := 0x7FFF_FFFF_FFFF_FFFF

  datatype Origin = NewPairing | LegacyMigration

  datatype Record = Record(server: string, stream: string, origin: Origin, next: int)

  datatype Error =
    | InitializationRequired
    | CorruptState
    | MigrationRequired
    | InvalidCounter
    | InvalidReservation
    | StateChangedDuringBoot
    | SessionClosed
    | ReservationInProgress
    | RecordsDisagree
    | IdentityMismatch
    | CounterExhausted
    | WriteFailed
    | NoIntactLineage

  // What reading one of the two record files yields.
  datatype Slot = Missing | Corrupt | Legacy(next: int) | Good(record: Record)

  datatype Disk = Disk(primary: Slot, anchor: Slot)

  function ReadRecord(s: Slot): Result<Record, Error> {
    match s
    case Missing => Err(InitializationRequired)
    case Corrupt => Err(CorruptState)
    case Legacy(n) => Err(MigrationRequired)
    case Good(r) => Ok(r)
  }

  predicate IsCounter(n: int) {
    1 <= n <= MAX_EVENT_ID + 1
  }

  // How far writing the pair came: a failure can follow any prefix of the two
  // writes, even both of them (the directory sync comes last).
  datatype Written = Nothing | AnchorOnly | BothThenFailed | Completed

  function WritePair(d: Disk, r: Record, w: Written): Disk {
    match w
    case Nothing => d
    case AnchorOnly => d.(anchor := Good(r))
    case BothThenFailed => Disk(Good(r), Good(r))
    case Completed => Disk(Good(r), Good(r))
  }

  // ----- the session --------------------------------------------------------

  datatype Session = Session(record: Record, pending: Option<Record>, closing: bool, leased: bool, busy: bool)

  function Open(d: Disk, server: Option<string>): Result<Session, Error> {
    match ReadRecord(d.primary)
    case Err(e) => Err(e)
    case Ok(a) =>
      match ReadRecord(d.anchor)
      case Err(e) => Err(e)
      case Ok(b) =>
        if a != b then Err(RecordsDisagree)
        else if server.Some? && server.value != a.server then Err(IdentityMismatch)
        else if a.next > MAX_EVENT_ID then Err(CounterExhausted)
        else Ok(Session(a, None, false, true, false))
  }

  // The checks of a reservation: the record it will write, if it may.
  function CheckReservation(s: Session, d: Disk, next: int): Result<Record, Error> {
    if !IsCounter(next) then Err(InvalidCounter)
    else if next != s.record.next + 1 then Err(InvalidReservation)
    else
      var target := s.record.(next := next);
      match ReadRecord(d.primary)
      case Err(e) => Err(e)
      case Ok(a) =>
        match ReadRecord(d.anchor)
        case Err(e) => Err(e)
        case Ok(b) =>
          var retry := s.pending == Some(target);
          if (a == s.record || (retry && a == target)) && (b == s.record || (retry && b == target))
             && !(a == target && b != target)
          then Ok(target)
          else Err(StateChangedDuringBoot)
  }

  // A reservation asks for exactly the next id and finds the pair it left: both
  // records its own or, when it is tried again, its target on the anchor or on
  // both. Anything else on disk is refused, each damage under its own name.
  lemma ReservesExactly(s: Session, d: Disk, next: int)
    ensures var t := s.record.(next := next);
            var r := CheckReservation(s, d, next);
            && (r.Ok? <==>
                  && 1 <= next <= 0x8000_0000_0000_0000 && next == s.record.next + 1
                  && (d == Disk(Good(s.record), Good(s.record))
                      || (s.pending == Some(t) && (d == Disk(Good(s.record), Good(t)) || d == Disk(Good(t), Good(t))))))
            && (r.Ok? ==> r.value == t)
            && (r == Err(InvalidCounter) <==> next < 1 || next > 0x8000_0000_0000_0000)
            && (r == Err(InvalidReservation) <==> IsCounter(next) && next != s.record.next + 1)
            && (IsCounter(next) && next == s.record.next + 1 && r.Err? ==>
                  && (r == Err(InitializationRequired) <==> FirstBad(d).Missing?)
                  && (r == Err(CorruptState) <==> FirstBad(d).Corrupt?)
                  && (r == Err(MigrationRequired) <==> FirstBad(d).Legacy?)
                  && (r == Err(StateChangedDuringBoot) <==> d.primary.Good? && d.anchor.Good?))
  {
  }

  // The record that cannot be used: the primary's, unless it is a good one.
  function FirstBad(d: Disk): Slot {
    if d.primary.Good? then d.anchor else d.primary
  }

  // One whole reservation, undisturbed: its result, the session and the disk.
  function Reserve(s: Session, d: Disk, next: int, w: Written): (Result<(), Error>, Session, Disk) {
    if s.closing || !s.leased then (Err(SessionClosed), s, d)
    else if s.busy then (Err(ReservationInProgress), s, d)
    else
      match CheckReservation(s, d, next)
      case Err(e) => (Err(e), s, d)
      case Ok(target) =>
        if w.Completed? then (Ok(()), s.(record := target, pending := None), WritePair(d, target, w))
        else (Err(WriteFailed), s.(pending := Some(target)), WritePair(d, target, w))
  }

  // It succeeds when the session is open and free, the request is in order and
  // both writes complete; what it refuses changes neither the session nor the disk.
  lemma ReserveSucceeds(s: Session, d: Disk, next: int, w: Written)
    ensures var (r, s', d') := Reserve(s, d, next, w);
            && (r.Ok? <==>
                  !s.closing && s.leased && !s.busy && CheckReservation(s, d, next).Ok? && w == Completed)
            && (r == Err(SessionClosed) <==> s.closing || !s.leased)
            && (r == Err(ReservationInProgress) <==> !s.closing && s.leased && s.busy)
            && (r.Err? && r.error != WriteFailed ==> s' == s && d' == d)
            && s'.(record := s.record, pending := s.pending) == s
            && (d' != d ==> w != Nothing && d'.anchor == Good(s.record.(next := next)))
  {
    ReservesExactly(s, d, next);
  }

  // How the pair on disk relates to a session between two reservations: one
  // identity, and the anchor at most one id ahead of the primary.
  ghost predicate OnDisk(s: Session, d: Disk) {
    var r := s.record;
    match s.pending
    case None => d == Disk(Good(r), Good(r))
    case Some(t) =>
      && t == r.(next := r.next + 1)
      && (d == Disk(Good(r), Good(r)) || d == Disk(Good(r), Good(t)) || d == Disk(Good(t), Good(t)))
  }

  // Opening a pair that agrees establishes it; nothing else opens.
  lemma OpenMatches(d: Disk, server: Option<string>)
    ensures Open(d, server).Ok? <==>
              && d.primary.Good? && d.anchor == d.primary
              && (server.Some? ==> server.value == d.primary.record.server)
              && d.primary.record.next <= MAX_EVENT_ID
    ensures Open(d, server).Ok? ==>
              && OnDisk(Open(d, server).value, d)
              && Open(d, server).value == Session(d.primary.record, None, false, true, false)
  {
  }

  // Every reservation, failed or not, keeps the two records one identity and at
  // most one id apart, anchor first.
  lemma ReserveKeepsPair(s: Session, d: Disk, next: int, w: Written)
    requires OnDisk(s, d)
    ensures var (_, s', d') := Reserve(s, d, next, w);
            && OnDisk(s', d')
            && d'.primary.Good? && d'.anchor.Good?
            && d'.primary.record == d'.anchor.record.(next := d'.primary.record.next)
            && d'.primary.record.next <= d'.anchor.record.next <= d'.primary.record.next + 1
  {
  }

  // A reservation that failed is accepted again with the same id, whatever prefix
  // of its writes took effect; completed, both records are its target.
  lemma RetryCompletes(s: Session, d: Disk, next: int, failed: seq<Written>)
    requires OnDisk(s, d) && !s.closing && s.leased && !s.busy
    requires IsCounter(next) && next == s.record.next + 1
    requires forall w :: w in failed ==> !w.Completed?
    ensures var (s', d') := AfterFailures(s, d, next, failed);
            var (r, s'', d'') := Reserve(s', d', next, Completed);
            && s'.record == s.record && OnDisk(s', d')
            && r.Ok? && s''.record == s.record.(next := next) && s''.pending.None?
            && d'' == Disk(Good(s''.record), Good(s''.record))
    decreases |failed|
  {
    if failed != [] {
      var (_, s1, d1) := Reserve(s, d, next, failed[0]);
      RetryCompletes(s1, d1, next, failed[1..]);
    }
  }

  function AfterFailures(s: Session, d: Disk, next: int, failed: seq<Written>): (Session, Disk)
    decreases |failed|
  {
    if failed == [] then (s, d)
    else
      var (_, s', d') := Reserve(s, d, next, failed[0]);
      AfterFailures(s', d', next, failed[1..])
  }

  // ----- the whole system, step by step -------------------------------------

  // Where the one active reservation stands; its target is the pending record.
  datatype Phase = Idle | Checked | AnchorDone | BothDone

  // `issued` lists every (stream, id) whose reservation came back in time for the
  // queue to append the event; `streams` are the stream identities ever drawn.
  datatype World = World(
    disk: Disk,
    session: Option<Session>,
    phase: Phase,
    issued: seq<(string, int)>,
    streams: set<string>,
    damaged: bool)

  datatype Action =
    | Boot(expected: Option<string>)
    | Begin(next: int)
    | PutAnchor
    | PutPrimary
    | Finish
    | Abort
    | CloseSession
    | Crash
    | DamagePrimary(left: Slot)
    | DamageAnchor(left: Slot)
    | Recover(server: string, writes: nat)
    | Initialize(server: string, stream: string, writes: nat)
    | Migrate(server: string, stream: string, writes: nat)

  predicate LeaseFree(w: World) {
    w.session.None? || !w.session.value.leased
  }

  // The end of every reservation: a close that waited for it releases the lease.
  function Released(s: Session): Session {
    s.(busy := false, leased := s.leased && !s.closing)
  }

  // The first `writes` of the two writes of a pair.
  function Put(d: Disk, r: Record, writes: nat): Disk {
    WritePair(d, r, if writes == 0 then Nothing else if writes == 1 then AnchorOnly else Completed)
  }

  // The records recovery can read, primary first.
  function Readable(d: Disk): seq<Record> {
    (if d.primary.Good? then [d.primary.record] else []) + (if d.anchor.Good? then [d.anchor.record] else [])
  }

  function Larger(rs: seq<Record>): Record
    requires 1 <= |rs| <= 2
  {
    if |rs| == 2 && rs[1].next > rs[0].next then rs[1] else rs[0]
  }

  // The record an offline recovery writes back.
  function Recovered(d: Disk, server: string): Option<Record> {
    var rs := Readable(d);
    if rs == [] || rs[0].server != server || (|rs| == 2 && rs[1].(next := rs[0].next) != rs[0])
    then None
    else Some(Larger(rs))
  }

  predicate Trusted(d: Disk, server: string) {
    d.primary.Good? && d.anchor == d.primary && d.primary.record.server == server
  }

  // Whether the step can happen now.
  predicate Enabled(w: World, a: Action) {
    match a
    case Boot(server) => LeaseFree(w) && Open(w.disk, server).Ok?
    case Begin(next) =>
      && w.session.Some? && !w.session.value.closing && w.session.value.leased && !w.session.value.busy
      && CheckReservation(w.session.value, w.disk, next).Ok?
    case PutAnchor => w.phase.Checked?
    case PutPrimary => w.phase.AnchorDone?
    case Finish => w.phase.BothDone?
    case Abort => !w.phase.Idle?
    case CloseSession => w.session.Some?
    case Crash => true
    case DamagePrimary(left) => left.Missing? || left.Corrupt?
    case DamageAnchor(left) => left.Missing? || left.Corrupt?
    case Recover(server, _) => LeaseFree(w) && Recovered(w.disk, server).Some?
    case Initialize(server, stream, _) => LeaseFree(w) && stream !in w.streams && !Trusted(w.disk, server)
    case Migrate(server, stream, _) =>
      LeaseFree(w) && stream !in w.streams && w.disk.anchor.Missing? && w.disk.primary.Legacy?
        && IsCounter(w.disk.primary.next)
  }

  function Next(w: World, a: Action): World
    requires Enabled(w, a) && (!w.phase.Idle? ==> w.session.Some? && w.session.value.pending.Some?)
  {
    match a
    case Boot(server) => w.(session := Some(Open(w.disk, server).value), phase := Idle, damaged := false)
    case Begin(next) =>
      var target := CheckReservation(w.session.value, w.disk, next).value;
      w.(session := Some(w.session.value.(busy := true, pending := Some(target))), phase := Checked)
    case PutAnchor => w.(disk := w.disk.(anchor := Good(w.session.value.pending.value)), phase := AnchorDone)
    case PutPrimary => w.(disk := w.disk.(primary := Good(w.session.value.pending.value)), phase := BothDone)
    case Finish =>
      var s := w.session.value;
      w.(session := Some(Released(s.(record := s.pending.value, pending := None))), phase := Idle,
         issued := w.issued + [(s.record.stream, s.record.next)])
    case Abort => w.(session := Some(Released(w.session.value)), phase := Idle)
    case CloseSession =>
      var s := w.session.value;
      w.(session := Some(s.(closing := true, leased := s.leased && s.busy)))
    case Crash => w.(session := None, phase := Idle)
    case DamagePrimary(left) => w.(disk := w.disk.(primary := left), damaged := true)
    case DamageAnchor(left) => w.(disk := w.disk.(anchor := left), damaged := true)
    case Recover(server, n) => w.(disk := Put(w.disk, Recovered(w.disk, server).value, n))
    case Initialize(server, stream, n) =>
      w.(disk := Put(w.disk, Record(server, stream, NewPairing, 1), n), streams := w.streams + {stream})
    case Migrate(server, stream, n) =>
      w.(disk := Put(w.disk, Record(server, stream, LegacyMigration, w.disk.primary.next), n),
        streams := w.streams + {stream})
  }

  // Every id issued in the stream of `r` is below its counter.
  ghost predicate Above(r: Record, w: World) {
    && r.stream in w.streams
    && (forall e :: e in w.issued && e.0 == r.stream ==> e.1 < r.next)
  }

  ghost predicate SlotSafe(s: Slot, w: World) {
    s.Good? ==> Above(s.record, w)
  }

  ghost predicate NoRepeats(issued: seq<(string, int)>) {
    forall i, j :: 0 <= i < j < |issued| ==> issued[i] != issued[j]
  }

  // While a session holds the lease nobody else writes: apart from damage, the
  // pair is what the session and its reservation have put there.
  ghost predicate Held(w: World, s: Session) {
    && Above(s.record, w)
    && (s.pending.Some? ==> s.pending.value == s.record.(next := s.record.next + 1))
    && (w.phase.AnchorDone? || w.phase.BothDone? ==> w.disk.anchor.Good? ==> Some(w.disk.anchor.record) == s.pending)
    && (w.phase.BothDone? ==> w.disk.primary.Good? ==> Some(w.disk.primary.record) == s.pending)
    && (!w.damaged ==> OnDisk(s, w.disk))
  }

  ghost predicate Inv(w: World) {
    && NoRepeats(w.issued)
    && (forall e :: e in w.issued ==> e.0 in w.streams)
    && SlotSafe(w.disk.primary, w) && SlotSafe(w.disk.anchor, w)
    && (w.phase.Idle? <==> !(w.session.Some? && w.session.value.busy))
    && (!w.phase.Idle? ==> w.session.value.leased && w.session.value.pending.Some?)
    && (w.session.Some? && w.session.value.leased ==> Held(w, w.session.value))
  }

  // The id of a finished reservation is above all those issued before.
  lemma FinishKeepsInv(w: World)
    requires Inv(w) && Enabled(w, Finish)
    ensures Inv(Next(w, Finish))
  {
    var w', s := Next(w, Finish), w.session.value;
    assert forall e :: e in w'.issued <==> e in w.issued || e == (s.record.stream, s.record.next);
    assert forall i :: 0 <= i < |w.issued| ==> w'.issued[i] in w.issued;
  }

  lemma StepKeepsInv(w: World, a: Action)
    requires Inv(w) && Enabled(w, a)
    ensures Inv(Next(w, a))
  {
    if a.Finish? { FinishKeepsInv(w); }
  }

  // A history: steps that cannot happen when their turn comes do nothing.
  function Run(w: World, actions: seq<Action>): World
    requires Inv(w)
    decreases |actions|
  {
    if actions == [] then w
    else if Enabled(w, actions[0]) then
      StepKeepsInv(w, actions[0]);
      Run(Next(w, actions[0]), actions[1..])
    else Run(w, actions[1..])
  }

  // A session has the lease until it is closed, and then as long as a reservation
  // is under way; nothing else takes it away, and no repair writes meanwhile.
  ghost predicate LeaseHeld(w: World) {
    w.session.Some? ==> (w.session.value.leased <==> !w.session.value.closing || w.session.value.busy)
  }

  lemma LeaseIsHeld(w: World, a: Action)
    requires Inv(w) && LeaseHeld(w) && Enabled(w, a)
    ensures LeaseHeld(Next(w, a))
    ensures a == CloseSession ==> Next(w, a).session.Some? && Next(w, a).session.value.closing
    ensures w.session.Some? && w.session.value.leased ==> !a.Boot? && !a.Recover? && !a.Initialize? && !a.Migrate?
  {
  }

  // A new lineage starts at id 1, a migrated one where its counter stood. Both
  // draw a stream of their own, and neither replaces a pair that can be trusted.
  lemma NewLineageStarts(w: World, a: Action)
    requires Inv(w) && Enabled(w, a) && (a.Initialize? || a.Migrate?)
    ensures a.stream !in w.streams && a.stream in Next(w, a).streams
    ensures forall r: Record :: r.server == a.server ==> w.disk != Disk(Good(r), Good(r))
    ensures var next := if a.Initialize? then 1 else w.disk.primary.next;
            var d := Next(w, a).disk;
            && (a.writes == 0 ==> d == w.disk)
            && (a.writes == 1 ==> d.primary == w.disk.primary && d.anchor.Good? && d.anchor.record.next == next)
            && (a.writes >= 2 ==> Open(d, Some(a.server)).Ok? || next > MAX_EVENT_ID)
            && (a.writes >= 2 ==> d.primary.Good? && d.anchor == d.primary && d.primary.record.stream == a.stream
                                  && d.primary.record.next == next)
  {
  }

  // Before anything is initialized: no record, no session, no stream.
  const EMPTY := World(Disk(Missing, Missing), None, Idle, [], {}, false)

  // No id is issued twice in one stream, over any history of reservations, failed
  // writes and retries, closes, crashes between the two writes, damaged records,
  // reopens and offline repairs; and whenever a session opens afterwards, its
  // next id is above everything its stream has ever issued.
  lemma {:induction false} NoIdIsIssuedTwice(w: World, actions: seq<Action>)
    requires Inv(w)
    ensures Inv(Run(w, actions)) && NoRepeats(Run(w, actions).issued)
    ensures w.issued <= Run(w, actions).issued
    ensures forall server :: Open(Run(w, actions).disk, server).Ok? ==>
              var r := Open(Run(w, actions).disk, server).value.record;
              forall e :: e in Run(w, actions).issued && e.0 == r.stream ==> e.1 < r.next
    decreases |actions|
  {
    if actions != [] {
      if Enabled(w, actions[0]) {
        StepKeepsInv(w, actions[0]);
        NoIdIsIssuedTwice(Next(w, actions[0]), actions[1..]);
      } else {
        NoIdIsIssuedTwice(w, actions[1..]);
      }
    }
  }

  lemma EmptyIsInv()
    ensures Inv(EMPTY)
  {
  }

  // Offline recovery repairs: whichever records survive, the pair it writes opens,
  // and it opens above every id the stream has issued. A recovery cut off between
  // its two writes can be run again with the same outcome.
  lemma RecoveryReopens(w: World, server: string, writes: nat)
    requires Inv(w) && Enabled(w, Recover(server, writes))
    ensures var d := Next(w, Recover(server, writes)).disk;
            var r := Recovered(w.disk, server).value;
            && Recovered(d, server) == Some(r)
            && (forall e :: e in w.issued && e.0 == r.stream ==> e.1 < r.next)
            && (writes >= 2 && r.next <= MAX_EVENT_ID ==>
                  Open(d, Some(server)).Ok? && Open(d, Some(server)).value.record == r)
  {
  }

  // Losing either record, or the bytes of it, loses no id: what recovery writes
  // back differs only by an id that was reserved and never issued.
  lemma OneSurvivorSuffices(w: World, s: Session, server: string)
    requires Inv(w) && w.session == Some(s) && s.leased && !w.damaged && s.record.server == server
    ensures Recovered(w.disk, server).Some?
    ensures var r := Recovered(w.disk, server).value;
            && s.record.next <= r.next <= s.record.next + 1
            && Recovered(w.disk.(primary := Missing), server) == Some(r)
            && Recovered(w.disk.(anchor := Missing), server).Some?
            && r.next - 1 <= Recovered(w.disk.(anchor := Missing), server).value.next <= r.next
            && Recovered(w.disk.(anchor := Missing), server).value.next >= s.record.next
  {
  }

  lemma ReserveCompletes(w: World, next: int)
    requires Inv(w) && w.session.Some? && Enabled(w, Begin(next))
    ensures var s := w.session.value;
            var done := Run(w, [Begin(next), PutAnchor, PutPrimary, Finish]);
            && done.session.Some?
            && (Ok(()), done.session.value, done.disk) == Reserve(s, w.disk, next, Completed)
            && done.issued == w.issued + [(s.record.stream, s.record.next)]
  {
    RunTwo(w, Begin(next), PutAnchor, [PutPrimary, Finish]);
    assert [Begin(next), PutAnchor] + [PutPrimary, Finish] == [Begin(next), PutAnchor, PutPrimary, Finish];
    RunTwo(Next(Next(w, Begin(next)), PutAnchor), PutPrimary, Finish, []);
    assert [PutPrimary, Finish] + [] == [PutPrimary, Finish];
  }

  lemma ReserveCutShort(w: World, next: int)
    requires Inv(w) && w.session.Some? && Enabled(w, Begin(next))
    ensures var s := w.session.value;
            var cut := Run(w, [Begin(next), PutAnchor, Abort]);
            && cut.session.Some?
            && (Err(WriteFailed), cut.session.value, cut.disk) == Reserve(s, w.disk, next, AnchorOnly)
            && cut.issued == w.issued
  {
    RunTwo(w, Begin(next), PutAnchor, [Abort]);
    assert [Begin(next), PutAnchor] + [Abort] == [Begin(next), PutAnchor, Abort];
    var w2 := Next(Next(w, Begin(next)), PutAnchor);
    StepKeepsInv(w2, Abort);
    assert [Abort][1..] == [];
    assert Run(w2, [Abort]) == Next(w2, Abort);
  }

  // The step-by-step reservation does what the whole one does.
  lemma ReserveIsItsSteps(w: World, next: int)
    requires Inv(w) && w.session.Some? && Enabled(w, Begin(next))
    ensures var s := w.session.value;
            var done := Run(w, [Begin(next), PutAnchor, PutPrimary, Finish]);
            var cut := Run(w, [Begin(next), PutAnchor, Abort]);
            && done.session.Some? && cut.session.Some?
            && (Ok(()), done.session.value, done.disk) == Reserve(s, w.disk, next, Completed)
            && (Err(WriteFailed), cut.session.value, cut.disk) == Reserve(s, w.disk, next, AnchorOnly)
            && done.issued == w.issued + [(s.record.stream, s.record.next)]
            && cut.issued == w.issued
  {
    ReserveCompletes(w, next);
    ReserveCutShort(w, next);
  }

  lemma RunTwo(w: World, a: Action, b: Action, rest: seq<Action>)
    requires Inv(w) && Enabled(w, a) && Enabled(Next(w, a), b)
    ensures Inv(Next(w, a)) && Inv(Next(Next(w, a), b))
    ensures Run(w, [a, b] + rest) == Run(Next(Next(w, a), b), rest)
  {
    StepKeepsInv(w, a);
    StepKeepsInv(Next(w, a), b);
    assert ([a, b] + rest)[1..] == [b] + rest;
    assert ([b] + rest)[1..] == rest;
  }

  // ----- the session object -------------------------------------------------

  // The two record files of one state path.
  class Files {
    var disk: Disk

    constructor (disk: Disk)
      ensures this.disk == disk
    {
      this.disk := disk;
    }

    // The two writes of a pair, as far as `w` says they come.
    method PutPair(r: Record, w: Written) returns (ok: bool)
      modifies this
      ensures disk == WritePair(old(disk), r, w)
      ensures ok <==> w.Completed?
    {
      if w.Nothing? { return false; }
      disk := disk.(anchor := Good(r));
      if w.AnchorOnly? { return false; }
      disk := disk.(primary := Good(r));
      return w.Completed?;
    }
  }

  class StateSession {
    const files: Files
    var record: Record
    var pending: Option<Record>
    var closing: bool
    var leased: bool
    var busy: bool

    ghost function State(): Session
      reads this
    {
      Session(record, pending, closing, leased, busy)
    }

    constructor (files: Files, record: Record)
      ensures this.files == files
      ensures State() == Session(record, None, false, true, false)
    {
      this.files, this.record := files, record;
      pending, closing, leased, busy := None, false, true, false;
    }

    // Reserve the id below `next`: durable on success, retryable on failure. A
    // close that arrives while the pair is written (`closes`) does not disturb
    // the reservation; the lease goes with its end.
    method ReserveNext(next: int, w: Written, closes: bool) returns (r: Result<(), Error>)
      modifies this, files
      ensures var (result, s, d) := Reserve(old(State()), old(files.disk), next, w);
              && r == result && files.disk == d
              && State() == if closes && old(!closing && leased && !busy)
                            then s.(closing := true, leased := false) else s
    {
      if closing || !leased {
        return Err(SessionClosed);
      }
      if busy {
        return Err(ReservationInProgress);
      }
      busy := true;
      if closes {
        Close();
      }
      var target := CheckReservation(Session(record, pending, closing, leased, busy), files.disk, next);
      if target.Ok? {
        pending := Some(target.value);
        var ok := files.PutPair(target.value, w);
        if ok {
          record, pending := target.value, None;
          r := Ok(());
        } else {
          r := Err(WriteFailed);
        }
      } else {
        r := Err(target.error);
      }
      busy := false;
      if closing {
        leased := false;
      }
    }

    method Close()
      modifies this
      ensures State() == old(State()).(closing := true, leased := old(leased && busy))
    {
      closing := true;
      if !busy {
        leased := false;
      }
    }
  }

  // The offline `recover` command: read what is left of the pair, check that it
  // is one continuing lineage of this machine, write the larger record back.
  method RecoverOffline(files: Files, server: string, w: Written) returns (r: Result<Record, Error>)
    modifies files
    ensures Recovered(old(files.disk), server).Some? <==> r.Ok? || r == Err(WriteFailed)
    ensures r.Ok? ==> w.Completed? && Some(r.value) == Recovered(old(files.disk), server)
    ensures files.disk == if Recovered(old(files.disk), server).Some?
                          then WritePair(old(files.disk), Recovered(old(files.disk), server).value, w)
                          else old(files.disk)
  {
    var sources := [files.disk.primary, files.disk.anchor];
    var records := [];
    for i := 0 to 2
      invariant records == Readable(Disk(if i > 0 then sources[0] else Missing, if i > 1 then sources[1] else Missing))
    {
      var record := ReadRecord(sources[i]);
      if record.Ok? {
        records := records + [record.value];
      }
    }
    assert records == Readable(files.disk);
    if records == [] || exists x :: x in records && x.server != server {
      return Err(NoIntactLineage);
    }
    var first := records[0];
    if exists x :: x in records && (x.server, x.stream, x.origin) != (first.server, first.stream, first.origin) {
      return Err(IdentityMismatch);
    }
    var largest := Larger(records);
    var ok := files.PutPair(largest, w);
    return if ok then Ok(largest) else Err(WriteFailed);
  }
}
