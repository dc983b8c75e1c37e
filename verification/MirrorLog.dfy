// The write side of the task log: ids that only grow, and the cap on mirrored
// events whose excess is counted in suppressed rows instead of being stored.
module MirrorLog {
  import opened Wrappers

  const MIRROR_CAP: nat := 500
  const DELTA_SECONDS: real := 3600.0
  const UNSCANNED_BASE: nat := 1_000_000

  // A day is a calendar day in order; the number counts rows within it.
  datatype Payload =
    | Mirrored
    | SinceCap            // the cap of the task was reached
    | Suppressed(count: nat)
    | Plain

  datatype Entry = Entry(day: nat, number: nat, task: string, payload: Payload)

  // A row already in the day file when it is scanned.
  datatype Stored = Stored(number: nat, task: string, mirrored: bool, suppressed: bool)

  // The events of a task not yet in any suppressed row, in the order the tasks
  // first exceeded their cap.
  datatype Pending = Pending(task: string, count: nat)

  datatype Log = Log(
    day: nat,
    n: nat,
    scanned: bool,
    mirrored: map<string, nat>,
    capped: set<string>,
    pending: seq<Pending>,
    lastDelta: map<string, real>,
    rows: seq<Entry>)

  // What one call finds around it: the wall-clock day and second of the day, the
  // monotonic clock, and what reading the day file yields (nothing on an error).
  datatype Now = Now(day: nat, second: nat, mono: real, file: Option<seq<Stored>>)

  datatype Call = Mirror(task: string) | Stopping | Other(task: string)

  function Max(x: nat, y: nat): nat {
    if x < y then y else x
  }

  function CountOf(m: map<string, nat>, task: string): nat {
    if task in m then m[task] else 0
  }

  function PendingOf(ps: seq<Pending>, task: string): nat {
    if ps == [] then 0
    else if ps[0].task == task then ps[0].count
    else PendingOf(ps[1..], task)
  }

  function SetPending(ps: seq<Pending>, task: string, count: nat): seq<Pending> {
    if ps == [] then [Pending(task, count)]
    else if ps[0].task == task then [Pending(task, count)] + ps[1..]
    else [ps[0]] + SetPending(ps[1..], task, count)
  }

  // ----- the steps of one call ----------------------------------------------

  // A failed append still consumes its id. Without a scanned counter the ids of
  // this process start above a base that grows with the time of day.
  function Insert(l: Log, now: Now, task: string, payload: Payload): Log {
    var n := (if l.scanned then l.n else Max(l.n, UNSCANNED_BASE + 1000 * now.second)) + 1;
    l.(n := n, rows := l.rows + [Entry(l.day, n, task, payload)])
  }

  function ScanRow(l: Log, r: Stored, mono: real): Log {
    var l1 := l.(n := Max(l.n, r.number));
    if r.mirrored then l1.(mirrored := l1.mirrored[r.task := CountOf(l1.mirrored, r.task) + 1])
    else if r.suppressed then l1.(capped := l1.capped + {r.task}, lastDelta := l1.lastDelta[r.task := mono])
    else l1
  }

  function ScanStored(l: Log, stored: seq<Stored>, mono: real): Log
    decreases |stored|
  {
    if stored == [] then l else ScanStored(ScanRow(l, stored[0], mono), stored[1..], mono)
  }

  // Scan state is committed only after the whole file was read.
  function ScanDay(l: Log, now: Now): Log {
    if now.file.None? then l else ScanStored(l, now.file.value, now.mono).(scanned := true)
  }

  function LoadDay(l: Log, now: Now): Log {
    ScanDay(l.(n := 0, scanned := false, mirrored := map[], capped := {}, pending := [], lastDelta := map[]), now)
  }

  // A final row for every task with suppressed events not yet counted.
  function Flush(l: Log, now: Now, i: nat): Log
    requires i <= |l.pending|
    decreases |l.pending| - i
  {
    if i == |l.pending| then l
    else
      var p := l.pending[i];
      if p.count == 0 then Flush(l, now, i + 1)
      else
        var l' := Insert(l, now, p.task, Suppressed(p.count));
        Flush(l'.(pending := l.pending[i := Pending(p.task, 0)], lastDelta := l'.lastDelta[p.task := now.mono]), now,
          i + 1)
  }

  function Roll(l: Log, now: Now): Log {
    if now.day > l.day then LoadDay(Flush(l, now, 0).(day := now.day), now)
    else if !l.scanned then ScanDay(l, now)
    else l
  }

  // Under the cap an event is a row of its own.
  function UnderCap(l: Log, now: Now, task: string): Log {
    Insert(l.(mirrored := l.mirrored[task := CountOf(l.mirrored, task) + 1]), now, task, Mirrored)
  }

  // The first event over the cap leaves a row that says so, ...
  function ReachCap(l: Log, now: Now, task: string): Log {
    if task in l.capped then l
    else Insert(l.(capped := l.capped + {task}, lastDelta := l.lastDelta[task := now.mono]), now, task, SinceCap)
  }

  // ... and every such event is counted, in a suppressed row once an hour.
  function OverCap(l: Log, now: Now, task: string): Log
    requires task in l.lastDelta
  {
    var total := PendingOf(l.pending, task) + 1;
    if now.mono - l.lastDelta[task] >= DELTA_SECONDS then
      Insert(l, now, task, Suppressed(total)).(pending := SetPending(l.pending, task, 0),
                                               lastDelta := l.lastDelta[task := now.mono])
    else
      l.(pending := SetPending(l.pending, task, total))
  }

  function MirrorEvent(l: Log, now: Now, task: string): Log
    requires l.capped <= l.lastDelta.Keys
  {
    var count := CountOf(l.mirrored, task);
    if count < MIRROR_CAP then
      UnderCap(l, now, task)
    else
      OverCap(ReachCap(l, now, task), now, task)
  }

  function Record(l: Log, now: Now, call: Call): Log
    requires Inv(l)
  {
    RollKeepsInv(l, now);
    var l1 := Roll(l, now);
    match call
    case Mirror(task) => MirrorEvent(l1, now, task)
    case Stopping => Insert(Flush(l1, now, 0), now, "", Plain)
    case Other(task) => Insert(l1, now, task, Plain)
  }

  // ----- the invariant ------------------------------------------------------

  ghost predicate Before(a: Entry, b: Entry) {
    a.day < b.day || (a.day == b.day && a.number < b.number)
  }

  ghost predicate Ordered(l: Log) {
    && (forall i, j :: 0 <= i < j < |l.rows| ==> Before(l.rows[i], l.rows[j]))
    && (forall e :: e in l.rows ==> e.day < l.day || (e.day == l.day && e.number <= l.n))
  }

  // The mirrored rows of a task on a day, the events in its suppressed rows.
  function MirroredOn(rows: seq<Entry>, task: string, day: nat): nat {
    if rows == [] then 0
    else MirroredOn(rows[..|rows| - 1], task, day)
         + (var e := rows[|rows| - 1]; if e.task == task && e.payload.Mirrored? && e.day == day then 1 else 0)
  }

  function Accounted(rows: seq<Entry>, task: string): nat {
    if rows == [] then 0
    else Accounted(rows[..|rows| - 1], task)
         + (var e := rows[|rows| - 1];
            if e.task != task then 0 else if e.payload.Mirrored? then 1
            else if e.payload.Suppressed? then e.payload.count else 0)
  }

  ghost predicate DistinctTasks(ps: seq<Pending>) {
    forall i, j :: 0 <= i < j < |ps| ==> ps[i].task != ps[j].task
  }

  ghost predicate WithinCap(rows: seq<Entry>) {
    forall task, day :: MirroredOn(rows, task, day) <= MIRROR_CAP
  }

  // The counter of a task covers the rows of the current day.
  ghost predicate CountedToday(rows: seq<Entry>, mirrored: map<string, nat>, day: nat) {
    forall task :: MirroredOn(rows, task, day) <= CountOf(mirrored, task)
  }

  ghost predicate NoneLater(rows: seq<Entry>, day: nat) {
    forall task, later :: later > day ==> MirroredOn(rows, task, later) == 0
  }

  ghost predicate Inv(l: Log) {
    && Ordered(l)
    && l.capped <= l.lastDelta.Keys
    && DistinctTasks(l.pending)
    && WithinCap(l.rows) && CountedToday(l.rows, l.mirrored, l.day) && NoneLater(l.rows, l.day)
  }

  // The events of a task that are in a row or still to be counted in one.
  function Known(l: Log, task: string): nat {
    Accounted(l.rows, task) + PendingOf(l.pending, task)
  }

  // ----- what each step keeps -----------------------------------------------

  function One(payload: Payload): nat {
    if payload.Mirrored? then 1 else 0
  }

  function Weight(payload: Payload): nat {
    if payload.Suppressed? then payload.count else One(payload)
  }

  lemma InsertOrders(l: Log, now: Now, task: string, payload: Payload)
    requires Ordered(l)
    ensures Ordered(Insert(l, now, task, payload)) && Insert(l, now, task, payload).n > l.n
  {
    var l' := Insert(l, now, task, payload);
    assert forall e :: e in l'.rows <==> e in l.rows || e == l'.rows[|l.rows|];
    forall i, j | 0 <= i < j < |l'.rows| ensures Before(l'.rows[i], l'.rows[j]) {
      if j == |l.rows| { assert l.rows[i] in l.rows; }
    }
  }

  lemma InsertEffect(l: Log, now: Now, task: string, payload: Payload)
    requires Ordered(l)
    ensures var l' := Insert(l, now, task, payload);
            && Ordered(l') && l'.n > l.n
            && (forall t :: Accounted(l'.rows, t) == Accounted(l.rows, t) + if t == task then Weight(payload) else 0)
            && (forall t, d :: MirroredOn(l'.rows, t, d) ==
                  MirroredOn(l.rows, t, d) + if t == task && d == l.day then One(payload) else 0)
  {
    InsertOrders(l, now, task, payload);
    var l' := Insert(l, now, task, payload);
    assert l'.rows[..|l'.rows| - 1] == l.rows;
  }

  lemma {:induction false} PendingAt(ps: seq<Pending>, i: nat, count: nat)
    requires DistinctTasks(ps) && i < |ps|
    ensures PendingOf(ps, ps[i].task) == ps[i].count
    ensures DistinctTasks(ps[i := Pending(ps[i].task, count)])
    ensures forall t ::
      PendingOf(ps[i := Pending(ps[i].task, count)], t) == if t == ps[i].task then count else PendingOf(ps, t)
  {
    var ps' := ps[i := Pending(ps[i].task, count)];
    if i > 0 {
      assert DistinctTasks(ps[1..]);
      PendingAt(ps[1..], i - 1, count);
      assert ps'[1..] == ps[1..][i - 1 := Pending(ps[i].task, count)];
    } else {
      assert ps'[1..] == ps[1..];
    }
  }

  lemma {:induction false} SetPendingTasks(ps: seq<Pending>, task: string, count: nat)
    ensures forall p :: p in SetPending(ps, task, count) ==>
      p.task == task || exists k :: 0 <= k < |ps| && ps[k].task == p.task
  {
    if ps != [] && ps[0].task != task {
      SetPendingTasks(ps[1..], task, count);
      forall p | p in SetPending(ps[1..], task, count) && p.task != task
        ensures exists k :: 0 <= k < |ps| && ps[k].task == p.task
      {
        var k :| 0 <= k < |ps[1..]| && ps[1..][k].task == p.task;
        assert ps[k + 1].task == p.task;
      }
    }
  }

  lemma {:induction false} SetPendingEffect(ps: seq<Pending>, task: string, count: nat)
    requires DistinctTasks(ps)
    ensures DistinctTasks(SetPending(ps, task, count))
    ensures forall t :: PendingOf(SetPending(ps, task, count), t) == if t == task then count else PendingOf(ps, t)
  {
    if ps != [] {
      assert DistinctTasks(ps[1..]);
      SetPendingEffect(ps[1..], task, count);
      SetPendingTasks(ps[1..], task, count);
      if ps[0].task != task {
        assert SetPending(ps, task, count)[1..] == SetPending(ps[1..], task, count);
        assert forall p :: p in SetPending(ps[1..], task, count) ==> p.task != ps[0].task;
      }
    }
  }

  // Inserting a row that is not a mirrored one keeps everything but the totals.
  lemma InsertKeepsInv(l: Log, now: Now, task: string, payload: Payload)
    requires Inv(l) && !payload.Mirrored?
    ensures Inv(Insert(l, now, task, payload))
  {
    InsertEffect(l, now, task, payload);
  }

  lemma {:induction false} FlushKeepsInv(l: Log, now: Now, i: nat)
    requires Inv(l) && i <= |l.pending|
    requires forall k :: 0 <= k < i ==> l.pending[k].count == 0
    ensures var f := Flush(l, now, i);
            && Inv(f) && f.day == l.day && f.mirrored == l.mirrored
            && (forall task :: Known(f, task) == Known(l, task))
            && (forall k :: 0 <= k < |f.pending| ==> f.pending[k].count == 0)
    decreases |l.pending| - i
  {
    if i < |l.pending| {
      var p := l.pending[i];
      if p.count == 0 {
        FlushKeepsInv(l, now, i + 1);
      } else {
        InsertKeepsInv(l, now, p.task, Suppressed(p.count));
        InsertEffect(l, now, p.task, Suppressed(p.count));
        PendingAt(l.pending, i, 0);
        var l' := Insert(l, now, p.task, Suppressed(p.count));
        var l'' := l'.(pending := l.pending[i := Pending(p.task, 0)], lastDelta := l'.lastDelta[p.task := now.mono]);
        FlushKeepsInv(l'', now, i + 1);
      }
    }
  }

  lemma {:induction false} NothingPending(ps: seq<Pending>, task: string)
    requires forall k :: 0 <= k < |ps| ==> ps[k].count == 0
    ensures PendingOf(ps, task) == 0
  {
    if ps != [] { NothingPending(ps[1..], task); }
  }

  lemma {:induction false} ScanKeepsInv(l: Log, stored: seq<Stored>, mono: real)
    requires Inv(l)
    ensures var s := ScanStored(l, stored, mono);
            Inv(s) && s.rows == l.rows && s.pending == l.pending && s.day == l.day
    decreases |stored|
  {
    if stored != [] {
      var l2 := ScanRow(l, stored[0], mono);
      ScanKeepsInv(l2, stored[1..], mono);
    }
  }

  function MirroredIn(stored: seq<Stored>, task: string): nat {
    if stored == [] then 0
    else (if stored[0].mirrored && stored[0].task == task then 1 else 0) + MirroredIn(stored[1..], task)
  }

  ghost predicate SuppressedIn(stored: seq<Stored>, task: string) {
    exists k :: 0 <= k < |stored| && stored[k].suppressed && !stored[k].mirrored && stored[k].task == task
  }

  lemma SuppressedNext(stored: seq<Stored>, task: string)
    requires stored != []
    ensures SuppressedIn(stored, task) <==>
      (stored[0].suppressed && !stored[0].mirrored && stored[0].task == task) || SuppressedIn(stored[1..], task)
  {
    if SuppressedIn(stored[1..], task) {
      var k :| 0 <= k < |stored[1..]| && stored[1..][k].suppressed && !stored[1..][k].mirrored
        && stored[1..][k].task == task;
      assert stored[k + 1] == stored[1..][k];
    }
    if SuppressedIn(stored, task) {
      var k :| 0 <= k < |stored| && stored[k].suppressed && !stored[k].mirrored && stored[k].task == task;
      if k > 0 { assert stored[1..][k - 1] == stored[k]; }
    }
  }

  // A scan takes the counter to the largest number stored, counts each task's
  // mirrored rows and finds the tasks with a suppressed one.
  lemma {:induction false} ScanRestores(l: Log, stored: seq<Stored>, mono: real, task: string)
    ensures var e := ScanStored(l, stored, mono);
            && (forall k :: 0 <= k < |stored| ==> stored[k].number <= e.n)
            && l.n <= e.n && (e.n == l.n || exists k :: 0 <= k < |stored| && stored[k].number == e.n)
            && CountOf(e.mirrored, task) == CountOf(l.mirrored, task) + MirroredIn(stored, task)
            && (task in e.capped <==> task in l.capped || SuppressedIn(stored, task))
            && (task in e.lastDelta <==> task in l.lastDelta || SuppressedIn(stored, task))
            && (SuppressedIn(stored, task) ==> e.lastDelta[task] == mono)
    decreases |stored|
  {
    if stored != [] {
      var l2 := ScanRow(l, stored[0], mono);
      ScanRestores(l2, stored[1..], mono, task);
      SuppressedNext(stored, task);
      ScanKeepsDelta(l2, stored[1..], mono, task);
      var e := ScanStored(l2, stored[1..], mono);
      forall k | 0 <= k < |stored| ensures stored[k].number <= e.n {
        if k > 0 { assert stored[1..][k - 1] == stored[k]; }
      }
      if e.n != l.n && e.n != stored[0].number {
        var k :| 0 <= k < |stored[1..]| && stored[1..][k].number == e.n;
        assert stored[k + 1].number == e.n;
      }
    }
  }

  lemma {:induction false} ScanKeepsDelta(l: Log, stored: seq<Stored>, mono: real, task: string)
    ensures task in l.lastDelta && (l.lastDelta[task] == mono || !SuppressedIn(stored, task)) ==>
      task in ScanStored(l, stored, mono).lastDelta && ScanStored(l, stored, mono).lastDelta[task] == l.lastDelta[task]
    decreases |stored|
  {
    if stored != [] {
      var l2 := ScanRow(l, stored[0], mono);
      SuppressedNext(stored, task);
      ScanKeepsDelta(l2, stored[1..], mono, task);
    }
  }

  // The file of a day that every append reached.
  function FileOf(rows: seq<Entry>, day: nat): seq<Stored> {
    if rows == [] then []
    else
      var e := rows[|rows| - 1];
      FileOf(rows[..|rows| - 1], day) + (if e.day == day then [AsStored(e)] else [])
  }

  function AsStored(e: Entry): Stored {
    Stored(e.number, e.task, e.payload.Mirrored?, e.payload.Suppressed? || e.payload.SinceCap?)
  }

  ghost predicate Numbered(stored: seq<Stored>, number: nat) {
    exists k :: 0 <= k < |stored| && stored[k].number == number
  }

  lemma {:induction false} MirroredInAppend(a: seq<Stored>, r: Stored, task: string)
    ensures MirroredIn(a + [r], task) == MirroredIn(a, task) + (if r.mirrored && r.task == task then 1 else 0)
  {
    if a == [] {
      assert [] + [r] == [r] && [r][1..] == [];
    } else {
      assert (a + [r])[1..] == a[1..] + [r];
      MirroredInAppend(a[1..], r, task);
    }
  }

  lemma {:induction false} FileCounts(rows: seq<Entry>, day: nat, task: string)
    ensures MirroredIn(FileOf(rows, day), task) == MirroredOn(rows, task, day)
    ensures forall e :: e in rows && e.day == day ==> Numbered(FileOf(rows, day), e.number)
  {
    if rows != [] {
      var rest, e := rows[..|rows| - 1], rows[|rows| - 1];
      var f := FileOf(rest, day);
      FileCounts(rest, day, task);
      assert rows == rest + [e];
      if e.day == day {
        MirroredInAppend(f, AsStored(e), task);
        assert (f + [AsStored(e)])[|f|].number == e.number;
        forall x | x in rest && x.day == day ensures Numbered(f + [AsStored(e)], x.number) {
          var k :| 0 <= k < |f| && f[k].number == x.number;
          assert (f + [AsStored(e)])[k].number == x.number;
        }
      } else {
        assert FileOf(rows, day) == f + [] == f;
      }
    }
  }

  ghost predicate CappedOn(rows: seq<Entry>, task: string, day: nat) {
    exists e :: e in rows && e.day == day && e.task == task && (e.payload.SinceCap? || e.payload.Suppressed?)
  }

  lemma {:induction false} FileCaps(rows: seq<Entry>, day: nat, task: string)
    ensures SuppressedIn(FileOf(rows, day), task) <==> CappedOn(rows, task, day)
  {
    if rows != [] {
      var rest, e := rows[..|rows| - 1], rows[|rows| - 1];
      var f := FileOf(rest, day);
      FileCaps(rest, day, task);
      assert rows == rest + [e];
      assert CappedOn(rows, task, day) <==>
        CappedOn(rest, task, day) ||
        (e.day == day && e.task == task && (e.payload.SinceCap? || e.payload.Suppressed?));
      if e.day == day { SuppressedInAppend(f, AsStored(e), task); } else { assert FileOf(rows, day) == f + [] == f; }
    }
  }

  lemma SuppressedInAppend(a: seq<Stored>, r: Stored, task: string)
    ensures SuppressedIn(a + [r], task) <==>
      SuppressedIn(a, task) || (r.suppressed && !r.mirrored && r.task == task)
  {
    var b := a + [r];
    if SuppressedIn(a, task) {
      var k :| 0 <= k < |a| && a[k].suppressed && !a[k].mirrored && a[k].task == task;
      assert b[k] == a[k];
    }
    assert b[|a|] == r;
  }

  // A restart that can read the day's file goes on where the log stopped: no
  // number of the day is used again, and the cap counts what is mirrored already.
  lemma RestartContinues(l: Log, now: Now)
    requires Inv(l) && l.day <= now.day && now.file == Some(FileOf(l.rows, now.day))
    ensures var e := LoadDay(Log(now.day, 0, false, map[], {}, [], map[], l.rows), now);
            && Inv(e) && e.scanned && e.rows == l.rows && e.pending == []
            && (forall t :: CountOf(e.mirrored, t) == MirroredOn(l.rows, t, now.day))
            && (forall t :: t in e.capped <==> CappedOn(l.rows, t, now.day))
            && (forall x :: x in l.rows && x.day == now.day ==> x.number <= e.n)
  {
    var stored := FileOf(l.rows, now.day);
    var l0 := Log(now.day, 0, false, map[], {}, [], map[], l.rows);
    var e := ScanStored(l0, stored, now.mono);
    ScanKeepsRest(l0, stored, now.mono);
    forall t ensures CountOf(e.mirrored, t) == MirroredOn(l.rows, t, now.day) {
      ScanRestores(l0, stored, now.mono, t);
      FileCounts(l.rows, now.day, t);
    }
    forall t ensures (t in e.capped <==> CappedOn(l.rows, t, now.day)) && (t in e.capped ==> t in e.lastDelta) {
      ScanRestores(l0, stored, now.mono, t);
      FileCaps(l.rows, now.day, t);
    }
    FileCounts(l.rows, now.day, "");
    ScanRestores(l0, stored, now.mono, "");
    forall x | x in l.rows && x.day == now.day ensures x.number <= e.n {
      assert Numbered(stored, x.number);
      var k :| 0 <= k < |stored| && stored[k].number == x.number;
    }
  }

  lemma {:induction false} ScanKeepsRest(l: Log, stored: seq<Stored>, mono: real)
    ensures var e := ScanStored(l, stored, mono);
            e.rows == l.rows && e.pending == l.pending && e.day == l.day && e.scanned == l.scanned
    decreases |stored|
  {
    if stored != [] {
      var l2 := ScanRow(l, stored[0], mono);
      ScanKeepsRest(l2, stored[1..], mono);
    }
  }

  // A new day starts its counters afresh; the rows of the old days stay.
  lemma RollKeepsInv(l: Log, now: Now)
    requires Inv(l)
    ensures Inv(Roll(l, now))
    ensures forall task :: Known(Roll(l, now), task) == Known(l, task)
  {
    if now.day > l.day {
      FlushKeepsInv(l, now, 0);
      var f := Flush(l, now, 0);
      var e := f.(day := now.day, n := 0, scanned := false, mirrored := map[], capped := {}, pending := [],
        lastDelta := map[]);
      assert Inv(e);
      if now.file.Some? { ScanKeepsInv(e, now.file.value, now.mono); }
      forall task ensures Known(Roll(l, now), task) == Known(l, task) { NothingPending(f.pending, task); }
    } else if !l.scanned && now.file.Some? {
      ScanKeepsInv(l, now.file.value, now.mono);
    }
  }

  // One mirror call is accounted for exactly once: under the cap as a row of its
  // own, over it in the pending count or the suppressed row that takes that over.
  lemma MirrorEventCounts(l: Log, now: Now, task: string)
    requires Inv(l)
    ensures Inv(MirrorEvent(l, now, task))
    ensures forall t :: Known(MirrorEvent(l, now, task), t) == Known(l, t) + if t == task then 1 else 0
  {
    var count := CountOf(l.mirrored, task);
    if count < MIRROR_CAP {
      UnderCapCounts(l, now, task);
      UnderCapKeeps(l, now, task);
    } else {
      ReachCapKeeps(l, now, task);
      OverCapCounts(ReachCap(l, now, task), now, task);
    }
  }

  lemma UnderCapCounts(l: Log, now: Now, task: string)
    requires Ordered(l)
    ensures forall t :: Known(UnderCap(l, now, task), t) == Known(l, t) + if t == task then 1 else 0
  {
    InsertEffect(l.(mirrored := l.mirrored[task := CountOf(l.mirrored, task) + 1]), now, task, Mirrored);
  }

  lemma UnderCapKeeps(l: Log, now: Now, task: string)
    requires Inv(l) && CountOf(l.mirrored, task) < MIRROR_CAP
    ensures Inv(UnderCap(l, now, task))
  {
    InsertEffect(l.(mirrored := l.mirrored[task := CountOf(l.mirrored, task) + 1]), now, task, Mirrored);
    OneMoreMirrored(l.rows, UnderCap(l, now, task).rows, l.mirrored, l.day, task);
  }

  lemma OneMoreMirrored(rows: seq<Entry>, rows': seq<Entry>, mirrored: map<string, nat>, day: nat, task: string)
    requires WithinCap(rows) && CountedToday(rows, mirrored, day) && NoneLater(rows, day)
    requires CountOf(mirrored, task) < MIRROR_CAP
    requires forall t, d :: MirroredOn(rows', t, d) == MirroredOn(rows, t, d) + if t == task && d == day then 1 else 0
    ensures WithinCap(rows') && NoneLater(rows', day)
    ensures CountedToday(rows', mirrored[task := CountOf(mirrored, task) + 1], day)
  {
    assert MirroredOn(rows, task, day) <= CountOf(mirrored, task);
  }

  // A row takes the next number; while the day file is unread, one above a base
  // that grows by 1000 a second.
  lemma InsertNumbers(l: Log, now: Now, task: string, payload: Payload)
    ensures var l' := Insert(l, now, task, payload);
            && l'.rows == l.rows + [Entry(l.day, l'.n, task, payload)]
            && (l.scanned ==> l'.n == l.n + 1)
            && (!l.scanned ==> l'.n > l.n && l'.n > 1_000_000 + 1000 * now.second)
            && (!l.scanned ==> l'.n == l.n + 1 || l'.n == 1_000_001 + 1000 * now.second)
  {
  }

  // What one mirror call writes: under the cap a mirrored row; over it the row that
  // says so if the task has none yet, and a suppressed row with all that is
  // pending if and only if the last one of the task is an hour old.
  ghost predicate Written(rows: seq<Entry>, rows': seq<Entry>, day: nat, task: string, payloads: seq<Payload>) {
    && |rows'| == |rows| + |payloads| && rows <= rows'
    && forall k :: 0 <= k < |payloads| ==>
         var e := rows'[|rows| + k]; e.day == day && e.task == task && e.payload == payloads[k]
  }

  lemma MirrorWrites(l: Log, now: Now, task: string)
    requires Inv(l)
    ensures var l' := MirrorEvent(l, now, task);
            var first := task !in l.capped;
            var hour := task in l.lastDelta && now.mono - l.lastDelta[task] >= 3600.0;
            var total := PendingOf(l.pending, task) + 1;
            && (CountOf(l.mirrored, task) < 500 ==>
                  && Written(l.rows, l'.rows, l.day, task, [Mirrored])
                  && CountOf(l'.mirrored, task) == CountOf(l.mirrored, task) + 1
                  && l'.pending == l.pending && l'.lastDelta == l.lastDelta && l'.capped == l.capped)
            && (CountOf(l.mirrored, task) >= 500 ==>
                  && task in l'.capped && l'.mirrored == l.mirrored
                  && (first ==> Written(l.rows, l'.rows, l.day, task, [SinceCap]))
                  && (!first && hour ==> Written(l.rows, l'.rows, l.day, task, [Suppressed(total)]))
                  && (!first && !hour ==> l'.rows == l.rows)
                  && PendingOf(l'.pending, task) == (if !first && hour then 0 else total)
                  && task in l'.lastDelta
                  && l'.lastDelta[task] == (if first || hour then now.mono else l.lastDelta[task]))
            && (forall t :: t != task ==>
                  && CountOf(l'.mirrored, t) == CountOf(l.mirrored, t)
                  && PendingOf(l'.pending, t) == PendingOf(l.pending, t)
                  && (t in l'.capped <==> t in l.capped))
  {
    SetPendingEffect(l.pending, task, PendingOf(l.pending, task) + 1);
    SetPendingEffect(l.pending, task, 0);
  }

  lemma ReachCapKeeps(l: Log, now: Now, task: string)
    requires Inv(l)
    ensures var l' := ReachCap(l, now, task);
            && Inv(l') && task in l'.lastDelta
            && (forall t :: Known(l', t) == Known(l, t))
  {
    if task !in l.capped {
      var l0 := l.(capped := l.capped + {task}, lastDelta := l.lastDelta[task := now.mono]);
      InsertKeepsInv(l0, now, task, SinceCap);
      InsertEffect(l0, now, task, SinceCap);
    }
  }

  lemma OverCapCounts(l: Log, now: Now, task: string)
    requires Inv(l) && task in l.lastDelta
    ensures Inv(OverCap(l, now, task))
    ensures forall t :: Known(OverCap(l, now, task), t) == Known(l, t) + if t == task then 1 else 0
  {
    var total := PendingOf(l.pending, task) + 1;
    SetPendingEffect(l.pending, task, total);
    SetPendingEffect(l.pending, task, 0);
    InsertKeepsInv(l, now, task, Suppressed(total));
    InsertEffect(l, now, task, Suppressed(total));
  }

  lemma RecordKeepsInv(l: Log, now: Now, call: Call)
    requires Inv(l)
    ensures Inv(Record(l, now, call))
    ensures forall t :: Known(Record(l, now, call), t) == Known(l, t) + if call == Mirror(t) then 1 else 0
    ensures call.Stopping? ==> forall t :: PendingOf(Record(l, now, call).pending, t) == 0
    ensures l.rows <= Record(l, now, call).rows
  {
    RollKeepsInv(l, now);
    var l1 := Roll(l, now);
    RollExtends(l, now);
    match call
    case Mirror(task) =>
      MirrorEventCounts(l1, now, task);
      MirrorExtends(l1, now, task);
    case Stopping =>
      StopCounts(l1, now);
    case Other(task) =>
      PlainCounts(l1, now, task);
  }

  lemma PlainCounts(l: Log, now: Now, task: string)
    requires Inv(l)
    ensures var s := Insert(l, now, task, Plain);
            Inv(s) && l.rows <= s.rows && forall t :: Known(s, t) == Known(l, t)
  {
    InsertKeepsInv(l, now, task, Plain);
    InsertEffect(l, now, task, Plain);
  }

  lemma MirrorExtends(l: Log, now: Now, task: string)
    requires Inv(l)
    ensures l.rows <= MirrorEvent(l, now, task).rows
  {
  }

  lemma StopCounts(l: Log, now: Now)
    requires Inv(l)
    ensures var s := Insert(Flush(l, now, 0), now, "", Plain);
            && Inv(s) && l.rows <= s.rows
            && (forall t :: Known(s, t) == Known(l, t) && PendingOf(s.pending, t) == 0)
  {
    FlushKeepsInv(l, now, 0);
    FlushExtends(l, now, 0);
    var f := Flush(l, now, 0);
    InsertKeepsInv(f, now, "", Plain);
    InsertEffect(f, now, "", Plain);
    forall t ensures PendingOf(f.pending, t) == 0 { NothingPending(f.pending, t); }
  }

  // Rows are only ever appended.
  lemma {:induction false} FlushExtends(l: Log, now: Now, i: nat)
    requires i <= |l.pending|
    ensures l.rows <= Flush(l, now, i).rows
    decreases |l.pending| - i
  {
    if i < |l.pending| {
      var p := l.pending[i];
      if p.count == 0 {
        FlushExtends(l, now, i + 1);
      } else {
        var l' := Insert(l, now, p.task, Suppressed(p.count));
        FlushExtends(l'.(pending := l.pending[i := Pending(p.task, 0)], lastDelta := l'.lastDelta[p.task := now.mono]),
          now, i + 1);
      }
    }
  }

  lemma RollExtends(l: Log, now: Now)
    requires Inv(l)
    ensures l.rows <= Roll(l, now).rows
  {
    if now.day > l.day {
      FlushKeepsInv(l, now, 0);
      FlushExtends(l, now, 0);
      var f := Flush(l, now, 0);
      var e := f.(day := now.day, n := 0, scanned := false, mirrored := map[], capped := {}, pending := [],
        lastDelta := map[]);
      assert Inv(e);
      if now.file.Some? { ScanKeepsInv(e, now.file.value, now.mono); }
    } else if !l.scanned && now.file.Some? {
      ScanKeepsInv(l, now.file.value, now.mono);
    }
  }

  // ----- whole runs ---------------------------------------------------------

  function Run(l: Log, calls: seq<(Now, Call)>): (e: Log)
    requires Inv(l)
    ensures Inv(e)
    decreases |calls|
  {
    if calls == [] then l
    else
      RecordKeepsInv(l, calls[0].0, calls[0].1);
      Run(Record(l, calls[0].0, calls[0].1), calls[1..])
  }

  function MirrorCalls(calls: seq<(Now, Call)>, task: string): nat {
    if calls == [] then 0
    else (if calls[0].1 == Mirror(task) then 1 else 0) + MirrorCalls(calls[1..], task)
  }

  // Over any run, whatever the clocks and the day files do: ids strictly increase
  // by day and number, no task has more than the cap of mirrored rows on any day
  // of the process, and the mirror calls of every task equal its mirrored rows
  // plus the counts in its suppressed rows plus what is still pending.
  lemma {:induction false} EveryMirrorIsAccounted(l: Log, calls: seq<(Now, Call)>, task: string)
    requires Inv(l)
    ensures var e := Run(l, calls);
            && (forall i, j :: 0 <= i < j < |e.rows| ==> Before(e.rows[i], e.rows[j]))
            && (forall day :: MirroredOn(e.rows, task, day) <= MIRROR_CAP)
            && Known(e, task) == Known(l, task) + MirrorCalls(calls, task)
            && l.rows <= e.rows
    decreases |calls|
  {
    if calls != [] {
      RecordKeepsInv(l, calls[0].0, calls[0].1);
      EveryMirrorIsAccounted(Record(l, calls[0].0, calls[0].1), calls[1..], task);
    }
  }

  // A run that ends with the agent's stop leaves nothing pending: the rows alone
  // then account for every mirror call.
  lemma StopLeavesNothingPending(l: Log, calls: seq<(Now, Call)>, now: Now, task: string)
    requires Inv(l) && l.rows == [] && l.pending == []
    ensures var e := Run(l, calls);
            Accounted(Record(e, now, Stopping).rows, task) == MirrorCalls(calls, task)
  {
    EveryMirrorIsAccounted(l, calls, task);
    RecordKeepsInv(Run(l, calls), now, Stopping);
  }

  function NewLog(now: Now): Log {
    LoadDay(Log(now.day, 0, false, map[], {}, [], map[], []), now)
  }

  lemma NewLogIsInv(now: Now)
    ensures Inv(NewLog(now)) && NewLog(now).rows == [] && NewLog(now).pending == []
  {
    var l := Log(now.day, 0, false, map[], {}, [], map[], []);
    if now.file.Some? { ScanKeepsInv(l, now.file.value, now.mono); }
  }

  // ----- the log object -----------------------------------------------------

  // `rows` is every row the object has written to its ring, whether or not the
  // append to the day file succeeded.
  class TaskLog {
    var day: nat
    var n: nat
    var scanned: bool
    var mirrored: map<string, nat>
    var capped: set<string>
    var pending: seq<Pending>
    var lastDelta: map<string, real>
    var rows: seq<Entry>

    ghost function State(): Log
      reads this
    {
      Log(day, n, scanned, mirrored, capped, pending, lastDelta, rows)
    }

    constructor (now: Now)
      ensures State() == NewLog(now) && Inv(State())
    {
      day, rows := now.day, [];
      n, scanned, mirrored, capped, pending, lastDelta := 0, false, map[], {}, [], map[];
      new;
      NewLogIsInv(now);
      ScanToday(now);
    }

    method InsertRow(now: Now, task: string, payload: Payload)
      modifies this
      ensures State() == Insert(old(State()), now, task, payload)
    {
      if !scanned {
        n := Max(n, UNSCANNED_BASE + 1000 * now.second);
      }
      n := n + 1;
      rows := rows + [Entry(day, n, task, payload)];
    }

    method ScanToday(now: Now)
      modifies this
      ensures State() == ScanDay(old(State()), now)
    {
      if now.file.None? {
        return;
      }
      var stored := now.file.value;
      var i := 0;
      while i < |stored|
        invariant 0 <= i <= |stored|
        invariant ScanStored(State(), stored[i..], now.mono) == ScanStored(old(State()), stored, now.mono)
      {
        var r := stored[i];
        assert stored[i..][1..] == stored[i + 1..];
        n := Max(n, r.number);
        if r.mirrored {
          mirrored := mirrored[r.task := CountOf(mirrored, r.task) + 1];
        } else if r.suppressed {
          capped := capped + {r.task};
          lastDelta := lastDelta[r.task := now.mono];
        }
        i := i + 1;
      }
      scanned := true;
    }

    method FlushDeltas(now: Now)
      modifies this
      ensures State() == Flush(old(State()), now, 0)
    {
      var i := 0;
      while i < |pending|
        invariant 0 <= i <= |pending|
        invariant Flush(State(), now, i) == Flush(old(State()), now, 0)
      {
        var p := pending[i];
        if p.count != 0 {
          InsertRow(now, p.task, Suppressed(p.count));
          pending := pending[i := Pending(p.task, 0)];
          lastDelta := lastDelta[p.task := now.mono];
        }
        i := i + 1;
      }
    }

    // The first call of a new day closes the old one; a day whose file could not
    // be read is tried again.
    method RollOver(now: Now)
      modifies this
      ensures State() == Roll(old(State()), now)
    {
      if now.day > day {
        FlushDeltas(now);
        day := now.day;
        n, scanned, mirrored, capped, pending, lastDelta := 0, false, map[], {}, [], map[];
        ScanToday(now);
      } else if !scanned {
        ScanToday(now);
      }
    }

    // One observed activity.
    method RecordCall(now: Now, call: Call)
      requires Inv(State())
      modifies this
      ensures Inv(State()) && State() == Record(old(State()), now, call)
    {
      RecordKeepsInv(State(), now, call);
      RollKeepsInv(State(), now);
      RollOver(now);
      match call {
        case Mirror(task) =>
          MirrorOne(now, task);
        case Stopping =>
          FlushDeltas(now);
          InsertRow(now, "", Plain);
        case Other(task) =>
          InsertRow(now, task, Plain);
      }
    }

    method MirrorOne(now: Now, task: string)
      requires capped <= lastDelta.Keys
      modifies this
      ensures State() == MirrorEvent(old(State()), now, task)
    {
      var count := CountOf(mirrored, task);
      if count < MIRROR_CAP {
        mirrored := mirrored[task := count + 1];
        InsertRow(now, task, Mirrored);
        return;
      }
      if task !in capped {
        capped := capped + {task};
        lastDelta := lastDelta[task := now.mono];
        InsertRow(now, task, SinceCap);
      }
      var total := PendingOf(pending, task) + 1;
      pending := SetPending(pending, task, total);
      if now.mono - lastDelta[task] >= DELTA_SECONDS {
        InsertRow(now, task, Suppressed(total));
        pending := SetPending(pending, task, 0);
        lastDelta := lastDelta[task := now.mono];
        SetTwice(old(pending), task, total, 0);
      }
    }
  }

  lemma {:induction false} SetTwice(ps: seq<Pending>, task: string, a: nat, b: nat)
    ensures SetPending(SetPending(ps, task, a), task, b) == SetPending(ps, task, b)
  {
    if ps != [] && ps[0].task != task {
      SetTwice(ps[1..], task, a, b);
      assert SetPending(ps, task, a)[1..] == SetPending(ps[1..], task, a);
    }
  }
}
