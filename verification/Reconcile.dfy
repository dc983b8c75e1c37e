// Start-up reconciliation of the task log: one backward scan over the stored
// rows finds the activities an unclean exit left open.
module Reconcile {
  import opened Wrappers

  // The `step` entry of a row's data: not there, a string, or anything else.
  datatype StepField = NoStep | Named(step: string) | NotText

  datatype Row = Row(kind: string, task: string, film: Option<string>, step: StepField, ts: string)

  // An activity: one step of one film of one task.
  datatype Activity = Activity(task: string, film: Option<string>, step: string)

  const STEPS: seq<string> := ["restore", "asr", "translate"]

  const TASK_CLOSERS: set<string> :=
    {"task.done", "task.aborted", "task.started", "subs.skipped_bulk",
     "operator.stop", "operator.remove", "operator.update"}

  const BOUNDARIES: set<string> := {"agent.started", "agent.stopping"}

  function Closers(step: string): set<string> {
    if step == "restore" then {"restore.finished", "restore.failed", "restore.retry", "restore.skipped"}
    else if step == "asr" then {"asr.finished", "asr.retry"}
    else if step == "translate" then {"translate.finished", "translate.paused"}
    else {}
  }

  predicate Starts(row: Row, step: string) {
    row.kind == step + ".started"
  }

  predicate Ends(row: Row, step: string) {
    || row.kind in Closers(step)
    || (step != "restore" && "subs." <= row.kind)
    || (row.kind == "task.interrupted" && (row.step.NoStep? || row.step == Named(step)))
  }

  // ----- the meaning: a forward state machine -------------------------------

  // The open activities, each with the position of its latest start row. An agent
  // boundary forgets everything, a task closer everything of its task, a step
  // closer one activity; a start opens its activity anew.
  type Open = map<Activity, nat>

  predicate ClosedBy(a: Activity, row: Row) {
    (row.kind in TASK_CLOSERS && a.task == row.task) || (a.task == row.task && a.film == row.film && Ends(row, a.step))
  }

  predicate Opens(a: Activity, row: Row) {
    a.step in STEPS && a.task == row.task && a.film == row.film && Starts(row, a.step)
  }

  function StartOf(row: Row): Option<Activity> {
    if Starts(row, "restore") then Some(Activity(row.task, row.film, "restore"))
    else if Starts(row, "asr") then Some(Activity(row.task, row.film, "asr"))
    else if Starts(row, "translate") then Some(Activity(row.task, row.film, "translate"))
    else None
  }

  function Forward(open: Open, row: Row, i: nat): Open {
    if row.kind in BOUNDARIES then map[]
    else
      var left := map a | a in open && !ClosedBy(a, row) :: open[a];
      if StartOf(row).Some? then left[StartOf(row).value := i] else left
  }

  function ForwardFrom(open: Open, rows: seq<Row>, i: nat): Open
    requires i <= |rows|
    decreases |rows| - i
  {
    if i == |rows| then open else ForwardFrom(Forward(open, rows[i], i), rows, i + 1)
  }

  // ----- the code: a backward scan ------------------------------------------

  datatype Scan = Scan(closedTasks: set<string>, closed: set<Activity>, starts: seq<(Activity, nat)>)

  const NOTHING := Scan({}, {}, [])

  function ScanStep(s: Scan, row: Row, i: nat, step: string): Scan {
    var key := Activity(row.task, row.film, step);
    var s1 := if Starts(row, step)
              then Scan(s.closedTasks, s.closed + {key},
                        if row.task !in s.closedTasks && key !in s.closed then s.starts + [(key, i)] else s.starts)
              else s;
    if Ends(row, step) then s1.(closed := s1.closed + {key}) else s1
  }

  function ScanRow(s: Scan, row: Row, i: nat): Scan {
    var s0 := if row.kind in TASK_CLOSERS then s.(closedTasks := s.closedTasks + {row.task}) else s;
    ScanStep(ScanStep(ScanStep(s0, row, i, "restore"), row, i, "asr"), row, i, "translate")
  }

  // The scan after it has read every row from the last one down to row `i`.
  function ScanFrom(rows: seq<Row>, i: nat): Scan
    requires i <= |rows|
    decreases |rows| - i
  {
    if i == |rows| then NOTHING else ScanRow(ScanFrom(rows, i + 1), rows[i], i)
  }

  // Where the scan stops: just after the last agent boundary.
  function Session(rows: seq<Row>): (i: nat)
    ensures i <= |rows|
    ensures i > 0 ==> rows[i - 1].kind in BOUNDARIES
    ensures forall j :: i <= j < |rows| ==> rows[j].kind !in BOUNDARIES
  {
    if rows == [] then 0
    else if rows[|rows| - 1].kind in BOUNDARIES then |rows|
    else Session(rows[..|rows| - 1])
  }

  function AsMap(starts: seq<(Activity, nat)>): Open {
    if starts == [] then map[]
    else AsMap(starts[..|starts| - 1])[starts[|starts| - 1].0 := starts[|starts| - 1].1]
  }

  // The rows already read decide about an activity whatever came before them.
  predicate Decided(s: Scan, a: Activity) {
    a.task in s.closedTasks || a in s.closed
  }

  // What the rows from `i` on make of the activities open before them.
  function Resolved(open: Open, s: Scan): Open {
    (map a | a in open && !Decided(s, a) :: open[a]) + AsMap(s.starts)
  }

  ghost predicate ScanInv(s: Scan, i: nat, n: nat) {
    && (forall k :: 0 <= k < |s.starts| ==>
          s.starts[k].0.step in STEPS && Decided(s, s.starts[k].0) && i <= s.starts[k].1 < n)
    && (forall k, l :: 0 <= k < l < |s.starts| ==> s.starts[k].1 > s.starts[l].1 && s.starts[k].0 != s.starts[l].0)
  }

  // What ends which step: its own closers, anything about subtitles unless it is a
  // restore, and an interruption of it, or of no step in particular.
  lemma EndsOfSteps(row: Row)
    ensures var interrupted := row.kind == "task.interrupted";
            var subtitles := |row.kind| >= 5 && row.kind[..5] == "subs.";
            && (Ends(row, "restore") <==>
                  || row.kind in ["restore.finished", "restore.failed", "restore.retry", "restore.skipped"]
                  || (interrupted && row.step in [NoStep, Named("restore")]))
            && (Ends(row, "asr") <==>
                  || row.kind in ["asr.finished", "asr.retry"] || subtitles
                  || (interrupted && row.step in [NoStep, Named("asr")]))
            && (Ends(row, "translate") <==>
                  || row.kind in ["translate.finished", "translate.paused"] || subtitles
                  || (interrupted && row.step in [NoStep, Named("translate")]))
  {
  }

  // The three start kinds exclude one another and every closer.
  lemma KindsAreDisjoint(row: Row, step: string)
    requires step in STEPS && Starts(row, step)
    ensures StartOf(row) == Some(Activity(row.task, row.film, step))
    ensures row.kind !in TASK_CLOSERS && row.kind !in BOUNDARIES
    ensures forall s :: s in STEPS ==> !Ends(row, s)
    ensures forall s :: s in STEPS && s != step ==> !Starts(row, s)
  {
    assert "restore" + ".started" == "restore.started";
    assert "asr" + ".started" == "asr.started";
    assert "translate" + ".started" == "translate.started";
    assert "restore.started"[2] == 's' && "restore.started"[0] == 'r';
    assert "asr.started"[0] == 'a';
    assert "translate.started"[0] == 't' && "translate.started"[1] == 'r';
    assert "subs."[0] == 's';
    forall s | s in STEPS ensures !Ends(row, s) {
      assert |row.kind| == 15 || |row.kind| == 11 || |row.kind| == 17;
    }
  }

  // What one step of a row adds to the scan.
  lemma ScanStepEffect(s: Scan, row: Row, i: nat, step: string)
    ensures var (s', key) := (ScanStep(s, row, i, step), Activity(row.task, row.film, step));
            && (forall a :: Decided(s', a) <==> Decided(s, a) || (a == key && (Starts(row, step) || Ends(row, step))))
            && s'.starts == if Starts(row, step) && !Decided(s, key) then s.starts + [(key, i)] else s.starts
  {
  }

  // What one row adds to the scan, all three steps taken together.
  lemma ScanRowEffect(s: Scan, row: Row, i: nat)
    ensures var s' := ScanRow(s, row, i);
            && (forall a: Activity :: a.step in STEPS ==>
                  (Decided(s', a) <==> Decided(s, a) || ClosedBy(a, row) || Opens(a, row)))
            && s'.starts == if StartOf(row).Some? && !Decided(s, StartOf(row).value)
                            then s.starts + [(StartOf(row).value, i)] else s.starts
  {
    var s0 := if row.kind in TASK_CLOSERS then s.(closedTasks := s.closedTasks + {row.task}) else s;
    var s1 := ScanStep(s0, row, i, "restore");
    var s2 := ScanStep(s1, row, i, "asr");
    ScanStepEffect(s0, row, i, "restore");
    ScanStepEffect(s1, row, i, "asr");
    ScanStepEffect(s2, row, i, "translate");
    if Starts(row, "restore") { KindsAreDisjoint(row, "restore"); }
    if Starts(row, "asr") { KindsAreDisjoint(row, "asr"); }
    if Starts(row, "translate") { KindsAreDisjoint(row, "translate"); }
  }

  lemma ScanRowKeepsInv(s: Scan, row: Row, i: nat, n: nat)
    requires ScanInv(s, i + 1, n) && i < n
    ensures ScanInv(ScanRow(s, row, i), i, n)
  {
    ScanRowEffect(s, row, i);
    if StartOf(row).Some? && !Decided(s, StartOf(row).value) {
      OneMoreStart(s, ScanRow(s, row, i), StartOf(row).value, i, n);
    }
  }

  lemma OneMoreStart(s: Scan, s': Scan, a: Activity, i: nat, n: nat)
    requires ScanInv(s, i + 1, n) && i < n && !Decided(s, a) && a.step in STEPS && Decided(s', a)
    requires s'.starts == s.starts + [(a, i)]
    requires forall b: Activity :: b.step in STEPS && Decided(s, b) ==> Decided(s', b)
    ensures ScanInv(s', i, n)
  {
  }

  lemma {:induction false} ScanFromInv(rows: seq<Row>, i: nat)
    requires i <= |rows|
    ensures ScanInv(ScanFrom(rows, i), i, |rows|)
    decreases |rows| - i
  {
    if i < |rows| {
      ScanFromInv(rows, i + 1);
      ScanRowKeepsInv(ScanFrom(rows, i + 1), rows[i], i, |rows|);
    }
  }

  lemma {:induction false} MapOfStarts(starts: seq<(Activity, nat)>)
    requires forall k, l :: 0 <= k < l < |starts| ==> starts[k].0 != starts[l].0
    ensures forall a :: a in AsMap(starts) <==> exists k :: 0 <= k < |starts| && starts[k].0 == a
    ensures forall k :: 0 <= k < |starts| ==> AsMap(starts)[starts[k].0] == starts[k].1
  {
    if starts != [] {
      MapOfStarts(starts[..|starts| - 1]);
    }
  }

  // The rows that start an activity, as a closed form.
  lemma StartOfMeans(row: Row)
    ensures forall a :: StartOf(row) == Some(a) <==> Opens(a, row)
    ensures StartOf(row).Some? ==> row.kind !in TASK_CLOSERS && row.kind !in BOUNDARIES
    ensures forall a :: Opens(a, row) ==> !ClosedBy(a, row)
  {
    if Starts(row, "restore") { KindsAreDisjoint(row, "restore"); }
    if Starts(row, "asr") { KindsAreDisjoint(row, "asr"); }
    if Starts(row, "translate") { KindsAreDisjoint(row, "translate"); }
  }

  lemma ReportedIsDecided(s: Scan, i: nat, n: nat)
    requires ScanInv(s, i, n)
    ensures forall a :: a in AsMap(s.starts) ==> Decided(s, a)
  {
    MapOfStarts(s.starts);
  }

  // Reading one more row backwards agrees with running it forwards first.
  lemma ResolvedStep(open: Open, s: Scan, row: Row, i: nat, n: nat)
    requires forall a :: a in open ==> a.step in STEPS
    requires ScanInv(s, i + 1, n) && row.kind !in BOUNDARIES
    ensures Resolved(open, ScanRow(s, row, i)) == Resolved(Forward(open, row, i), s)
  {
    ScanRowEffect(s, row, i);
    StartOfMeans(row);
    ReportedIsDecided(s, i + 1, n);
    ResolvedOnce(open, s, ScanRow(s, row, i), row, i);
  }

  lemma ResolvedOnce(open: Open, s: Scan, s': Scan, row: Row, i: nat)
    requires forall a :: a in open ==> a.step in STEPS
    requires row.kind !in BOUNDARIES
    requires forall a: Activity :: a.step in STEPS ==>
      (Decided(s', a) <==> Decided(s, a) || ClosedBy(a, row) || Opens(a, row))
    requires forall a :: StartOf(row) == Some(a) <==> Opens(a, row)
    requires forall a :: a in AsMap(s.starts) ==> Decided(s, a)
    requires s'.starts == if StartOf(row).Some? && !Decided(s, StartOf(row).value)
                          then s.starts + [(StartOf(row).value, i)] else s.starts
    ensures Resolved(open, s') == Resolved(Forward(open, row, i), s)
  {
    var reported := AsMap(s.starts);
    if s'.starts != s.starts {
      assert s'.starts[..|s'.starts| - 1] == s.starts;
      assert AsMap(s'.starts) == reported[StartOf(row).value := i];
    }
    var l, r := Resolved(open, s'), Resolved(Forward(open, row, i), s);
    forall a ensures (a in l <==> a in r) && (a in l ==> l[a] == r[a]) {
      ResolvedAt(open, s, s', row, i, reported, AsMap(s'.starts), a);
    }
    assert l.Keys == r.Keys;
  }

  // The same for one activity, with what each scan reports.
  lemma ResolvedAt(open: Open, s: Scan, s': Scan, row: Row, i: nat, reported: Open, reported': Open, a: Activity)
    requires (a in open ==> a.step in STEPS) && row.kind !in BOUNDARIES
    requires a.step in STEPS ==> (Decided(s', a) <==> Decided(s, a) || ClosedBy(a, row) || Opens(a, row))
    requires StartOf(row) == Some(a) <==> Opens(a, row)
    requires reported == AsMap(s.starts) && reported' == AsMap(s'.starts) && (a in reported ==> Decided(s, a))
    requires reported' ==
      if StartOf(row).Some? && !Decided(s, StartOf(row).value) then reported[StartOf(row).value := i] else reported
    requires StartOf(row) == Some(a) ==> a.step in STEPS
    ensures var (l, r) := (Resolved(open, s'), Resolved(Forward(open, row, i), s));
            (a in l <==> a in r) && (a in l ==> l[a] == r[a])
  {
  }

  lemma {:induction false} ScanMeansForward(open: Open, rows: seq<Row>, i: nat)
    requires i <= |rows|
    requires forall a :: a in open ==> a.step in STEPS
    requires forall j :: i <= j < |rows| ==> rows[j].kind !in BOUNDARIES
    ensures ForwardFrom(open, rows, i) == Resolved(open, ScanFrom(rows, i))
    decreases |rows| - i
  {
    if i < |rows| {
      ScanFromInv(rows, i + 1);
      ResolvedStep(open, ScanFrom(rows, i + 1), rows[i], i, |rows|);
      ScanMeansForward(Forward(open, rows[i], i), rows, i + 1);
    }
  }

  // Everything before the last boundary is forgotten.
  lemma {:induction false} BoundaryForgets(open: Open, rows: seq<Row>, i: nat, b: nat)
    requires i < b <= |rows| && rows[b - 1].kind in BOUNDARIES
    ensures ForwardFrom(open, rows, i) == ForwardFrom(map[], rows, b)
    decreases b - i
  {
    if i + 1 < b { BoundaryForgets(Forward(open, rows[i], i), rows, i + 1, b); }
  }

  // No row from `i` on starts or closes the activity, or ends the session.
  ghost predicate Untouched(rows: seq<Row>, i: nat, a: Activity) {
    forall k :: i <= k < |rows| ==> rows[k].kind !in BOUNDARIES && !ClosedBy(a, rows[k]) && !Opens(a, rows[k])
  }

  // Left open by the rows: row `k` starts the activity and nothing after it
  // starts or closes it or ends the session.
  ghost predicate LeftOpen(rows: seq<Row>, a: Activity, k: nat) {
    k < |rows| && Opens(a, rows[k]) && Untouched(rows, k + 1, a)
  }

  // What one row does to one activity.
  lemma ForwardStep(open: Open, row: Row, i: nat, a: Activity)
    ensures var next := Forward(open, row, i);
            && (a in next <==> Opens(a, row) || (row.kind !in BOUNDARIES && !ClosedBy(a, row) && a in open))
            && (a in next ==> next[a] == if Opens(a, row) then i else open[a])
  {
    StartOfMeans(row);
  }

  lemma UntouchedStep(rows: seq<Row>, i: nat, a: Activity)
    requires i < |rows|
    ensures Untouched(rows, i, a) <==>
      rows[i].kind !in BOUNDARIES && !ClosedBy(a, rows[i]) && !Opens(a, rows[i]) && Untouched(rows, i + 1, a)
  {
  }

  // The forward machine holds what is left open.
  lemma {:induction false} ForwardMeans(open: Open, rows: seq<Row>, i: nat, a: Activity)
    requires i <= |rows|
    ensures var end := ForwardFrom(open, rows, i);
            && (Untouched(rows, i, a) ==> (a in end <==> a in open) && (a in end ==> end[a] == open[a]))
            && (forall k :: i <= k && LeftOpen(rows, a, k) ==> a in end && end[a] == k)
            && (a in end ==> Untouched(rows, i, a) || (i <= end[a] && LeftOpen(rows, a, end[a])))
    decreases |rows| - i
  {
    if i < |rows| {
      ForwardStep(open, rows[i], i, a);
      UntouchedStep(rows, i, a);
      ForwardMeans(Forward(open, rows[i], i), rows, i + 1, a);
    }
  }

  // The single backward scan agrees with the forward state machine ...
  lemma ScanIsForward(rows: seq<Row>)
    ensures AsMap(ScanFrom(rows, Session(rows)).starts) == ForwardFrom(map[], rows, 0)
  {
    var b := Session(rows);
    if b > 0 { BoundaryForgets(map[], rows, 0, b); }
    ScanMeansForward(map[], rows, b);
  }

  // ... and so it reports exactly the activities left open over all the stored
  // rows, each once, with its latest start, the most recent first.
  lemma ScanFindsOpenActivities(rows: seq<Row>)
    ensures var starts := ScanFrom(rows, Session(rows)).starts;
            && (forall a, k: nat :: LeftOpen(rows, a, k) <==> (a, k) in starts)
            && (forall k, l :: 0 <= k < l < |starts| ==> starts[k].1 > starts[l].1 && starts[k].0 != starts[l].0)
  {
    var starts := ScanFrom(rows, Session(rows)).starts;
    ScanIsForward(rows);
    ScanFromInv(rows, Session(rows));
    MapOfStarts(starts);
    forall a, k: nat ensures LeftOpen(rows, a, k) <==> (a, k) in starts {
      ForwardMeans(map[], rows, 0, a);
      InStarts(starts, a, k);
    }
  }

  lemma InStarts(starts: seq<(Activity, nat)>, a: Activity, k: nat)
    requires forall k, l :: 0 <= k < l < |starts| ==> starts[k].0 != starts[l].0
    ensures (a, k) in starts <==> a in AsMap(starts) && AsMap(starts)[a] == k
  {
    MapOfStarts(starts);
  }

  // ----- the stored log -----------------------------------------------------

  datatype Exit = Clean | First | Unclean(lastTs: string)

  function ExitOf(rows: seq<Row>): Exit {
    var b := Session(rows);
    if b > 0 && rows[b - 1].kind == "agent.stopping" then Clean
    else if rows == [] then First
    else Unclean(rows[|rows| - 1].ts)
  }

  // Row `k` ends or begins a session, and it is the last to do so.
  ghost predicate LastBoundary(rows: seq<Row>, k: nat) {
    && k < |rows| && (rows[k].kind == "agent.started" || rows[k].kind == "agent.stopping")
    && forall j :: k < j < |rows| ==> rows[j].kind != "agent.started" && rows[j].kind != "agent.stopping"
  }

  lemma SessionIsLast(rows: seq<Row>)
    ensures Session(rows) > 0 ==> LastBoundary(rows, Session(rows) - 1)
    ensures forall k: nat :: LastBoundary(rows, k) ==> k == Session(rows) - 1
  {
    var b := Session(rows);
    forall k: nat | LastBoundary(rows, k) ensures k == b - 1 {
      assert rows[k].kind in BOUNDARIES && k < b;
      assert b > 0 && rows[b - 1].kind in BOUNDARIES;
    }
  }

  // What the exit was: clean when the last boundary is the stop of an agent, the
  // first run when nothing is stored, unclean otherwise, at the time of the last
  // row.
  lemma ExitMeans(rows: seq<Row>)
    ensures ExitOf(rows) == Clean <==> exists k: nat :: LastBoundary(rows, k) && rows[k].kind == "agent.stopping"
    ensures ExitOf(rows) == First <==> rows == []
    ensures ExitOf(rows).Unclean? ==> rows != [] && ExitOf(rows).lastTs == rows[|rows| - 1].ts
  {
    SessionIsLast(rows);
    var b := Session(rows);
    if b > 0 { assert LastBoundary(rows, b - 1); }
  }

  // The start rows found are those of the activities left open, each once, the
  // most recent first.
  ghost predicate FoundOpen(rows: seq<Row>, found: seq<(Row, string)>, at: seq<nat>) {
    && |at| == |found|
    && (forall k :: 0 <= k < |at| ==>
          at[k] < |rows| && found[k].0 == rows[at[k]] && LeftOpen(rows, OpenedBy(found[k]), at[k]))
    && (forall k, l :: 0 <= k < l < |at| ==> at[k] > at[l])
    && (forall a, i: nat :: LeftOpen(rows, a, i) ==>
          exists k :: 0 <= k < |at| && at[k] == i && OpenedBy(found[k]) == a)
  }

  function OpenedBy(start: (Row, string)): Activity {
    Activity(start.0.task, start.0.film, start.1)
  }

  function Places(starts: seq<(Activity, nat)>): seq<nat> {
    seq(|starts|, k requires 0 <= k < |starts| => starts[k].1)
  }

  lemma StartIsFound(rows: seq<Row>, starts: seq<(Activity, nat)>, k: nat)
    requires k < |starts| && forall l :: 0 <= l < |starts| ==> starts[l].1 < |rows|
    requires LeftOpen(rows, starts[k].0, starts[k].1)
    ensures StartRows(rows, starts)[k].0 == rows[Places(starts)[k]] && Places(starts)[k] == starts[k].1
    ensures OpenedBy(StartRows(rows, starts)[k]) == starts[k].0
  {
    assert Opens(starts[k].0, rows[starts[k].1]);
  }

  lemma ScannedIsOpen(rows: seq<Row>, k: nat)
    requires k < |ScanFrom(rows, Session(rows)).starts|
    ensures var start := ScanFrom(rows, Session(rows)).starts[k]; LeftOpen(rows, start.0, start.1)
  {
    ScanFindsOpenActivities(rows);
    var starts := ScanFrom(rows, Session(rows)).starts;
    assert (starts[k].0, starts[k].1) in starts;
  }

  lemma OpenIsScanned(rows: seq<Row>, a: Activity, i: nat)
    requires LeftOpen(rows, a, i)
    ensures var starts := ScanFrom(rows, Session(rows)).starts; exists k :: 0 <= k < |starts| && starts[k] == (a, i)
  {
    ScanFindsOpenActivities(rows);
  }

  lemma ScannedInOrder(rows: seq<Row>)
    ensures var starts := ScanFrom(rows, Session(rows)).starts;
      forall k, l :: 0 <= k < l < |starts| ==> starts[k].1 > starts[l].1
  {
    ScanFindsOpenActivities(rows);
  }

  lemma FoundIsOpen(rows: seq<Row>)
    ensures var starts := ScanFrom(rows, Session(rows)).starts;
            && (forall k :: 0 <= k < |starts| ==> starts[k].1 < |rows|)
            && FoundOpen(rows, StartRows(rows, starts), Places(starts))
  {
    var starts := ScanFrom(rows, Session(rows)).starts;
    ScannedInOrder(rows);
    forall k | 0 <= k < |starts| ensures LeftOpen(rows, starts[k].0, starts[k].1) { ScannedIsOpen(rows, k); }
    forall k | 0 <= k < |starts|
      ensures StartRows(rows, starts)[k].0 == rows[Places(starts)[k]] && Places(starts)[k] == starts[k].1
      ensures OpenedBy(StartRows(rows, starts)[k]) == starts[k].0
    {
      StartIsFound(rows, starts, k);
    }
    forall a, i: nat | LeftOpen(rows, a, i)
      ensures exists k :: 0 <= k < |starts| && Places(starts)[k] == i && OpenedBy(StartRows(rows, starts)[k]) == a
    {
      OpenIsScanned(rows, a, i);
      var k :| 0 <= k < |starts| && starts[k] == (a, i);
      assert Places(starts)[k] == i;
    }
  }

  // The row recorded for an activity found open, and the rows of all of them, the
  // oldest start first.
  function InterruptedRow(start: (Row, string), ts: string): Row {
    Row("task.interrupted", start.0.task, start.0.film, Named(start.1), ts)
  }

  function Recorded(found: seq<(Row, string)>, ts: string): (rows: seq<Row>)
    ensures |rows| == |found|
    ensures forall k :: 0 <= k < |rows| ==> rows[k] == InterruptedRow(found[|found| - 1 - k], ts)
  {
    if found == [] then [] else Recorded(found[1..], ts) + [InterruptedRow(found[0], ts)]
  }

  // An activity found open is closed by its own row.
  lemma RecordedCloses(rows: seq<Row>, found: seq<(Row, string)>, at: seq<nat>, ts: string, a: Activity, i: nat)
    requires FoundOpen(rows, found, at) && LeftOpen(rows, a, i)
    ensures exists k :: |rows| <= k < |rows + Recorded(found, ts)| && ClosedBy(a, (rows + Recorded(found, ts))[k])
  {
    var k :| 0 <= k < |at| && at[k] == i && OpenedBy(found[k]) == a;
    var last := |rows| + |found| - 1 - k;
    assert (rows + Recorded(found, ts))[last] == Recorded(found, ts)[|found| - 1 - k] == InterruptedRow(found[k], ts);
    assert ClosedBy(a, InterruptedRow(found[k], ts));
  }

  lemma InterruptedOpensNothing(a: Activity, start: (Row, string), ts: string)
    ensures !Opens(a, InterruptedRow(start, ts))
  {
    var row := InterruptedRow(start, ts);
    if Opens(a, row) { KindsAreDisjoint(row, a.step); }
  }

  lemma LeftOpenBefore(rows: seq<Row>, more: seq<Row>, a: Activity, i: nat)
    requires i < |rows| && LeftOpen(rows + more, a, i)
    ensures LeftOpen(rows, a, i)
  {
    assert forall k :: 0 <= k < |rows| ==> (rows + more)[k] == rows[k];
  }

  lemma NotLeftOpen(rows: seq<Row>, found: seq<(Row, string)>, at: seq<nat>, ts: string, a: Activity, i: nat)
    requires FoundOpen(rows, found, at)
    ensures !LeftOpen(rows + Recorded(found, ts), a, i)
  {
    var recorded := Recorded(found, ts);
    if |rows| <= i < |rows| + |recorded| {
      assert (rows + recorded)[i] == recorded[i - |rows|];
      InterruptedOpensNothing(a, found[|found| - 1 - (i - |rows|)], ts);
    } else if LeftOpen(rows, a, i) {
      RecordedCloses(rows, found, at, ts, a, i);
    } else if i < |rows| && LeftOpen(rows + recorded, a, i) {
      LeftOpenBefore(rows, recorded, a, i);
    }
  }

  // Once they are recorded nothing is open any more: a reconciliation that runs
  // again before the next session finds nothing to report.
  lemma RecordedOnce(rows: seq<Row>, found: seq<(Row, string)>, at: seq<nat>, ts: string)
    requires FoundOpen(rows, found, at)
    ensures forall a, i: nat :: !LeftOpen(rows + Recorded(found, ts), a, i)
  {
    forall a, i: nat ensures !LeftOpen(rows + Recorded(found, ts), a, i) { NotLeftOpen(rows, found, at, ts, a, i); }
  }

  // The days of the log, newest first, as one sequence of rows.
  function Flatten(days: seq<seq<Row>>): seq<Row> {
    if days == [] then [] else Flatten(days[1..]) + days[0]
  }

  // The start rows the scan found, with their steps.
  function StartRows(rows: seq<Row>, starts: seq<(Activity, nat)>): seq<(Row, string)>
    requires forall k :: 0 <= k < |starts| ==> starts[k].1 < |rows|
  {
    seq(|starts|, k requires 0 <= k < |starts| => (rows[starts[k].1], starts[k].0.step))
  }

  function ScanSteps(s: Scan, row: Row, i: nat, n: nat): Scan
    requires n <= |STEPS|
  {
    if n == 0 then s else ScanStep(ScanSteps(s, row, i, n - 1), row, i, STEPS[n - 1])
  }

  lemma ScanStepsIsScanRow(s: Scan, row: Row, i: nat)
    ensures var s0 := if row.kind in TASK_CLOSERS then s.(closedTasks := s.closedTasks + {row.task}) else s;
            ScanSteps(s0, row, i, |STEPS|) == ScanRow(s, row, i)
  {
    var s0 := if row.kind in TASK_CLOSERS then s.(closedTasks := s.closedTasks + {row.task}) else s;
    assert ScanSteps(s0, row, i, 1) == ScanStep(s0, row, i, STEPS[0]);
    assert ScanSteps(s0, row, i, 2) == ScanStep(ScanSteps(s0, row, i, 1), row, i, STEPS[1]);
  }

  // The scan of the rows from `pos` on, with the start rows it found.
  ghost predicate Read(rows: seq<Row>, pos: nat, scan: Scan, found: seq<(Row, string)>)
    requires pos <= |rows|
  {
    scan == ScanFrom(rows, pos) && ScanInv(scan, pos, |rows|) && found == StartRows(rows, scan.starts)
  }

  // Where the scan stands: it has read the rows from `pos` on, and it stops
  // once `boundary` is set, with `pos` just after that row.
  ghost predicate At(rows: seq<Row>, pos: int, scan: Scan, found: seq<(Row, string)>, lastTs: Option<string>,
                     boundary: Option<string>)
  {
    && 0 <= pos <= |rows|
    && (forall j :: pos <= j < |rows| ==> rows[j].kind !in BOUNDARIES)
    && (boundary.Some? ==> pos > 0 && rows[pos - 1].kind == boundary.value && boundary.value in BOUNDARIES)
    && lastTs == (if boundary.Some? || pos < |rows| then Some(rows[|rows| - 1].ts) else None)
    && Read(rows, pos, scan, found)
  }

  // The first row read is the last of the log.
  lemma FirstSeen(rows: seq<Row>, pos: int, scan: Scan, found: seq<(Row, string)>, lastTs: Option<string>)
    requires At(rows, pos, scan, found, lastTs, None) && pos > 0
    ensures (if lastTs.None? then Some(rows[pos - 1].ts) else lastTs) == Some(rows[|rows| - 1].ts)
  {
  }

  lemma RowBefore(rows: seq<Row>, pos: int, scan: Scan, found: seq<(Row, string)>, lastTs: Option<string>)
    requires 0 < pos <= |rows| && rows[pos - 1].kind !in BOUNDARIES && lastTs == Some(rows[|rows| - 1].ts)
    requires (forall j :: pos <= j < |rows| ==> rows[j].kind !in BOUNDARIES) && Read(rows, pos - 1, scan, found)
    ensures At(rows, pos - 1, scan, found, lastTs, None)
  {
  }

  lemma RowOfDay(rows: seq<Row>, base: nat, day: seq<Row>, k: nat)
    requires base + |day| <= |rows| && rows[base..base + |day|] == day && k < |day|
    ensures rows[base + k] == day[k]
  {
    assert rows[base..base + |day|][k] == day[k];
  }

  lemma DaySlice(rows: seq<Row>, pos: int, earlier: seq<Row>, day: seq<Row>)
    requires 0 <= pos <= |rows| && rows[..pos] == earlier + day
    ensures pos == |earlier| + |day|
    ensures rows[|earlier|..|earlier| + |day|] == day && rows[..|earlier|] == earlier
  {
    assert rows[|earlier|..pos] == rows[..pos][|earlier|..];
    assert rows[..|earlier|] == rows[..pos][..|earlier|];
  }

  lemma NothingRead(rows: seq<Row>)
    ensures At(rows, |rows|, NOTHING, [], None, None)
  {
  }

  // At a boundary or at the first row of the log the scan has read the session.
  lemma SessionRead(rows: seq<Row>, pos: int, scan: Scan, found: seq<(Row, string)>, lastTs: Option<string>,
                    boundary: Option<string>)
    requires At(rows, pos, scan, found, lastTs, boundary) && (boundary.None? ==> pos == 0)
    ensures var starts := ScanFrom(rows, Session(rows)).starts;
            && (forall k :: 0 <= k < |starts| ==> starts[k].1 < |rows|)
            && found == StartRows(rows, starts)
  {
    SessionIs(rows, pos);
  }

  lemma ExitRead(rows: seq<Row>, pos: int, scan: Scan, found: seq<(Row, string)>, lastTs: Option<string>,
                 boundary: Option<string>)
    requires At(rows, pos, scan, found, lastTs, boundary) && (boundary.None? ==> pos == 0)
    ensures ExitOf(rows) == if boundary == Some("agent.stopping") then Clean
                            else if lastTs.None? then First
                            else Unclean(lastTs.value)
  {
    SessionIs(rows, pos);
  }

  class StoredLog {
    var days: seq<seq<Row>>

    constructor (days: seq<seq<Row>>)
      ensures this.days == days
    {
      this.days := days;
    }

    // One row of the backward scan: what it closes, and the starts it reveals.
    method ReadRow(row: Row, tasks: set<string>, keys: set<Activity>, found: seq<(Row, string)>,
                   ghost scan: Scan, ghost rows: seq<Row>, ghost i: nat)
      returns (tasks': set<string>, keys': set<Activity>, found': seq<(Row, string)>, ghost scan': Scan)
      requires i < |rows| && rows[i] == row && Read(rows, i + 1, scan, found)
      requires scan.closedTasks == tasks && scan.closed == keys
      ensures Read(rows, i, scan', found')
      ensures scan'.closedTasks == tasks' && scan'.closed == keys'
    {
      tasks' := if row.kind in TASK_CLOSERS then tasks + {row.task} else tasks;
      keys', found' := keys, found;
      ghost var s0 := scan.(closedTasks := tasks');
      scan' := s0;
      for n := 0 to |STEPS|
        invariant scan' == ScanSteps(s0, row, i, n)
        invariant scan'.closedTasks == tasks' && scan'.closed == keys'
        invariant forall k :: 0 <= k < |scan'.starts| ==> scan'.starts[k].1 < |rows|
        invariant found' == StartRows(rows, scan'.starts)
      {
        var step := STEPS[n];
        var key := Activity(row.task, row.film, step);
        scan' := ScanStep(scan', row, i, step);
        if Starts(row, step) {
          if row.task !in tasks' && key !in keys' {
            found' := found' + [(row, step)];
          }
          keys' := keys' + {key};
        }
        if Ends(row, step) {
          keys' := keys' + {key};
        }
      }
      ScanStepsIsScanRow(scan, row, i);
      ScanRowKeepsInv(scan, row, i, |rows|);
    }

    // One day of the scan, newest row first, up to a boundary.
    method ReadDay(day: seq<Row>, tasks: set<string>, keys: set<Activity>, found: seq<(Row, string)>,
                   lastTs: Option<string>,
                   ghost scan: Scan, ghost rows: seq<Row>, ghost base: nat)
      returns (tasks': set<string>, keys': set<Activity>, found': seq<(Row, string)>, lastTs': Option<string>,
               boundary: Option<string>, ghost scan': Scan, ghost pos: int)
      requires base + |day| <= |rows| && rows[base..base + |day|] == day
      requires At(rows, base + |day|, scan, found, lastTs, None) && scan.closedTasks == tasks && scan.closed == keys
      ensures At(rows, pos, scan', found', lastTs', boundary) && scan'.closedTasks == tasks' && scan'.closed == keys'
      ensures boundary.None? ==> pos == base
    {
      tasks', keys', found', lastTs', boundary, scan' := tasks, keys, found, lastTs, None, scan;
      var r := |day|;
      pos := base + r;
      while r > 0 && boundary.None?
        invariant 0 <= r <= |day| && (boundary.None? ==> pos == base + r)
        invariant At(rows, pos, scan', found', lastTs', boundary) && scan'.closedTasks == tasks'
          && scan'.closed == keys'
      {
        RowOfDay(rows, base, day, r - 1);
        tasks', keys', found', lastTs', boundary, scan', pos :=
          TakeRow(day[r - 1], tasks', keys', found', lastTs', scan', rows, pos);
        r := r - 1;
      }
    }

    // One row of the log: a boundary ends the scan, any other row is read.
    method TakeRow(row: Row, tasks: set<string>, keys: set<Activity>, found: seq<(Row, string)>, lastTs: Option<string>,
                   ghost scan: Scan, ghost rows: seq<Row>, ghost at: int)
      returns (tasks': set<string>, keys': set<Activity>, found': seq<(Row, string)>, lastTs': Option<string>,
               boundary: Option<string>, ghost scan': Scan, ghost pos: int)
      requires At(rows, at, scan, found, lastTs, None) && at > 0 && rows[at - 1] == row
      requires scan.closedTasks == tasks && scan.closed == keys
      ensures At(rows, pos, scan', found', lastTs', boundary) && scan'.closedTasks == tasks' && scan'.closed == keys'
      ensures boundary.None? ==> pos == at - 1
    {
      tasks', keys', found', lastTs', boundary, scan', pos := tasks, keys, found, lastTs, None, scan, at;
      FirstSeen(rows, at, scan, found, lastTs);
      if lastTs.None? {
        lastTs' := Some(row.ts);
      }
      if row.kind in BOUNDARIES {
        boundary := Some(row.kind);
        return;
      }
      tasks', keys', found', scan' := ReadRow(row, tasks, keys, found, scan, rows, at - 1);
      RowBefore(rows, at, scan', found', lastTs');
      pos := at - 1;
    }

    // Read the log backwards to the last agent boundary. `found` lists the open
    // activities, the most recent start first; a caller reports them in reverse.
    method ReconcileLog() returns (exit: Exit, found: seq<(Row, string)>)
      ensures var rows := Flatten(days);
              && (exit == Clean <==> exists k: nat :: LastBoundary(rows, k) && rows[k].kind == "agent.stopping")
              && (exit == First <==> rows == [])
              && (exit.Unclean? ==> rows != [] && exit.lastTs == rows[|rows| - 1].ts)
              && (if exit.Unclean? then exists at :: FoundOpen(rows, found, at) else found == [])
    {
      ghost var rows := Flatten(days);
      exit, found := ScanBack();
      ExitMeans(rows);
      FoundIsOpen(rows);
      if exit.Unclean? { assert FoundOpen(rows, found, Places(ScanFrom(rows, Session(rows)).starts)); }
    }

    method ScanBack() returns (exit: Exit, found: seq<(Row, string)>)
      ensures exit == ExitOf(Flatten(days))
      ensures exit.Unclean? ==>
                var rows := Flatten(days);
                var starts := ScanFrom(rows, Session(rows)).starts;
                && (forall k :: 0 <= k < |starts| ==> starts[k].1 < |rows|)
                && found == StartRows(rows, starts)
      ensures !exit.Unclean? ==> found == []
    {
      ghost var rows := Flatten(days);
      var lastTs, boundary;
      ghost var scan, pos;
      found, lastTs, boundary, scan, pos := ScanDays();
      SessionRead(rows, pos, scan, found, lastTs, boundary);
      ExitRead(rows, pos, scan, found, lastTs, boundary);
      if boundary == Some("agent.stopping") {
        return Clean, [];
      }
      if lastTs.None? {
        return First, [];
      }
      return Unclean(lastTs.value), found;
    }

    // The days, newest first, up to the one that holds a boundary.
    method ScanDays() returns (found: seq<(Row, string)>, lastTs: Option<string>, boundary: Option<string>,
                               ghost scan: Scan, ghost pos: int)
      ensures At(Flatten(days), pos, scan, found, lastTs, boundary)
      ensures boundary.None? ==> pos == 0
    {
      ghost var rows := Flatten(days);
      scan, pos, found, lastTs, boundary := NOTHING, |rows|, [], None, None;
      NothingRead(rows);
      var tasks: set<string>, keys: set<Activity> := {}, {};
      var d := 0;
      assert rows[..pos] == Flatten(days[d..]);
      while d < |days| && boundary.None?
        invariant 0 <= d <= |days|
        invariant At(rows, pos, scan, found, lastTs, boundary) && scan.closedTasks == tasks && scan.closed == keys
        invariant boundary.None? ==> rows[..pos] == Flatten(days[d..])
      {
        tasks, keys, found, lastTs, boundary, scan, pos := TakeDay(d, tasks, keys, found, lastTs, scan, rows, pos);
        d := d + 1;
      }
    }

    // The next older day.
    method TakeDay(d: nat, tasks: set<string>, keys: set<Activity>, found: seq<(Row, string)>, lastTs: Option<string>,
                   ghost scan: Scan, ghost rows: seq<Row>, ghost pos: int)
      returns (tasks': set<string>, keys': set<Activity>, found': seq<(Row, string)>, lastTs': Option<string>,
               boundary: Option<string>, ghost scan': Scan, ghost pos': int)
      requires d < |days| && 0 <= pos <= |rows| && rows[..pos] == Flatten(days[d..])
      requires At(rows, pos, scan, found, lastTs, None) && scan.closedTasks == tasks && scan.closed == keys
      ensures At(rows, pos', scan', found', lastTs', boundary) && scan'.closedTasks == tasks' && scan'.closed == keys'
      ensures boundary.None? ==> rows[..pos'] == Flatten(days[d + 1..])
    {
      assert days[d..][1..] == days[d + 1..];
      ghost var earlier := Flatten(days[d + 1..]);
      DaySlice(rows, pos, earlier, days[d]);
      tasks', keys', found', lastTs', boundary, scan', pos' :=
        ReadDay(days[d], tasks, keys, found, lastTs, scan, rows, |earlier|);
    }
  }

  lemma {:induction false} SessionIs(rows: seq<Row>, i: nat)
    requires i <= |rows| && (i > 0 ==> rows[i - 1].kind in BOUNDARIES)
    requires forall j :: i <= j < |rows| ==> rows[j].kind !in BOUNDARIES
    ensures Session(rows) == i
  {
  }
}
