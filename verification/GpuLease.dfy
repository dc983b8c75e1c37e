// The process-wide GPU lease: one holder, waiters in registration order, and a
// timed reservation for the first waiter while the lease is free.
module GpuLease {
  import opened Wrappers

  type RunId = (string, int)

  const RESERVE_MIN_S: real := 30.0
  const STALE_MIN_S: real := 30.0
  const STALE_FACTOR: real := 3.0

  datatype Waiter = Waiter(run: RunId, pollInterval: real, lastTry: real, title: string)

  datatype Reservation = Reservation(run: RunId, deadline: real)

  // The whole state of the lease. `waiters` is the insertion-ordered dictionary:
  // an update keeps the position, a removed run registers again at the end.
  datatype Lease = Lease(
    holder: Option<RunId>,
    title: string,
    waiters: seq<Waiter>,
    reserved: Option<Reservation>,
    closed: bool)

  const FREE := Lease(None, "", [], None, false)

  function Max(x: real, y: real): real {
    if x < y then y else x
  }

  // What a caller may hand over as a poll interval: `float()` can fail on it, it
  // can be infinite or not a number, or it is a finite real.
  datatype RawInterval = NotConvertible | NotFinite | Finite(value: real)

  function Interval(raw: RawInterval): (r: real)
    ensures 0.0 <= r
    ensures r > 0.0 ==> raw == Finite(r)
    ensures raw.Finite? && raw.value > 0.0 ==> r == raw.value
  {
    if raw.Finite? && raw.value > 0.0 then raw.value else 0.0
  }

  // ----- the ordered dictionary of waiters ---------------------------------

  predicate Waits(ws: seq<Waiter>, run: RunId) {
    exists i :: 0 <= i < |ws| && ws[i].run == run
  }

  predicate Distinct(ws: seq<Waiter>) {
    forall i, j :: 0 <= i < j < |ws| ==> ws[i].run != ws[j].run
  }

  predicate Stale(w: Waiter, now: real) {
    now - w.lastTry > Max(STALE_MIN_S, STALE_FACTOR * w.pollInterval)
  }

  // How long the lease is kept for a waiter it is reserved for.
  function Window(w: Waiter): real {
    Max(RESERVE_MIN_S, 2.0 * w.pollInterval)
  }

  function Fresh(ws: seq<Waiter>, now: real): seq<Waiter> {
    if ws == [] then []
    else (if Stale(ws[0], now) then [] else [ws[0]]) + Fresh(ws[1..], now)
  }

  function Without(ws: seq<Waiter>, run: RunId): seq<Waiter> {
    if ws == [] then []
    else (if ws[0].run == run then [] else [ws[0]]) + Without(ws[1..], run)
  }

  // Registers the waiter, or replaces the entry of the same run in place.
  function Put(ws: seq<Waiter>, w: Waiter): seq<Waiter> {
    if ws == [] then [w]
    else if ws[0].run == w.run then [w] + ws[1..]
    else [ws[0]] + Put(ws[1..], w)
  }

  // The entry of a waiting run.
  function Entry(ws: seq<Waiter>, run: RunId): (w: Waiter)
    requires Waits(ws, run)
    ensures w in ws && w.run == run
  {
    if ws[0].run == run then ws[0] else Entry(ws[1..], run)
  }

  // The runs that registered before `run` (all of them when it does not wait).
  function Ahead(ws: seq<Waiter>, run: RunId): set<RunId> {
    if ws == [] || ws[0].run == run then {}
    else {ws[0].run} + Ahead(ws[1..], run)
  }

  // ----- the operations as functions of the state --------------------------

  function Pruned(s: Lease, now: real): Lease {
    var kept := Fresh(s.waiters, now);
    var (ws, reserved) :=
      match s.reserved
      case None => (kept, s.reserved)
      case Some(r) =>
        if now >= r.deadline then (Without(kept, r.run), None)
        else if !Waits(kept, r.run) then (kept, None)
        else (kept, s.reserved);
    if s.holder.None? && reserved.None? && ws != [] then
      s.(waiters := ws, reserved := Some(Reservation(ws[0].run, now + Window(ws[0]))))
    else
      s.(waiters := ws, reserved := reserved)
  }

  datatype Op =
    | Try(run: RunId, raw: RawInterval, title: string)
    | Release(run: RunId)
    | Withdraw(run: RunId)
    | Close
    | Observe // blocking_label, reserved_for and waiters: each prunes, then reads

  function TryAcquire(s: Lease, run: RunId, raw: RawInterval, now: real, title: string): (Lease, bool) {
    var p := Pruned(s, now);
    if p.holder == Some(run) then
      (p.(title := title), true)
    else if p.closed then
      (p, false)
    else if p.holder.None? && (p.reserved.None? || p.reserved.value.run == run) then
      (p.(holder := Some(run), title := title, waiters := Without(p.waiters, run), reserved := None), true)
    else
      (p.(waiters := Put(p.waiters, Waiter(run, Interval(raw), now, title))), false)
  }

  function Step(s: Lease, op: Op, now: real): (Lease, bool) {
    match op
    case Try(run, raw, title) =>
      TryAcquire(s, run, raw, now, title)
    case Release(run) =>
      if s.holder == Some(run) then (Pruned(s.(holder := None, title := ""), now), true) else (s, false)
    case Withdraw(run) =>
      var reserved := if s.reserved.Some? && s.reserved.value.run == run then None else s.reserved;
      (Pruned(s.(waiters := Without(s.waiters, run), reserved := reserved), now), true)
    case Close =>
      if s.holder.Some? then (s, false) else (s.(closed := true, waiters := [], reserved := None), true)
    case Observe =>
      (Pruned(s, now), true)
  }

  function BlockingLabel(s: Lease): string {
    if s.holder.Some? then s.title
    else if s.reserved.Some? && Waits(s.waiters, s.reserved.value.run)
    then Entry(s.waiters, s.reserved.value.run).title
    else ""
  }

  // ----- the state invariant -----------------------------------------------

  // What holds even half-way through an operation, before it prunes.
  ghost predicate Consistent(s: Lease) {
    && Distinct(s.waiters)
    && (forall w :: w in s.waiters ==> w.pollInterval >= 0.0)
    && (s.holder.Some? ==> s.reserved.None? && !Waits(s.waiters, s.holder.value))
    && (s.reserved.Some? ==> s.waiters != [] && s.waiters[0].run == s.reserved.value.run)
    && (s.closed ==> s.holder.None? && s.waiters == [])
  }

  // Between operations a free lease that somebody waits for is always reserved.
  ghost predicate Inv(s: Lease) {
    && Consistent(s)
    && (s.holder.None? && s.waiters != [] ==> s.reserved.Some?)
  }

  lemma {:induction false} WaitsTail(ws: seq<Waiter>, run: RunId)
    requires ws != []
    ensures Waits(ws, run) <==> ws[0].run == run || Waits(ws[1..], run)
  {
    if Waits(ws, run) && ws[0].run != run {
      var i :| 0 <= i < |ws| && ws[i].run == run;
      assert ws[1..][i - 1].run == run;
    }
    if Waits(ws[1..], run) {
      var i :| 0 <= i < |ws[1..]| && ws[1..][i].run == run;
      assert ws[i + 1].run == run;
    }
  }

  // Pruning by staleness keeps every entry that is not stale and adds none.
  lemma {:induction false} FreshKeeps(ws: seq<Waiter>, now: real)
    ensures forall w :: w in Fresh(ws, now) <==> w in ws && !Stale(w, now)
    ensures Distinct(ws) ==> Distinct(Fresh(ws, now))
    ensures ws != [] && !Stale(ws[0], now) ==> Fresh(ws, now) != [] && Fresh(ws, now)[0] == ws[0]
  {
    if ws != [] {
      FreshKeeps(ws[1..], now);
      var rest := Fresh(ws[1..], now);
      assert forall w :: w in ws <==> w == ws[0] || w in ws[1..];
      if Distinct(ws) {
        forall w | w in rest ensures w.run != ws[0].run {
          var i :| 0 <= i < |ws[1..]| && ws[1..][i] == w;
          assert ws[i + 1] == w;
        }
        assert Distinct(ws[1..]);
        assert Distinct([ws[0]] + rest);
      }
    }
  }

  lemma {:induction false} WithoutKeeps(ws: seq<Waiter>, run: RunId)
    ensures forall w :: w in Without(ws, run) <==> w in ws && w.run != run
    ensures Distinct(ws) ==> Distinct(Without(ws, run))
    ensures ws != [] && ws[0].run != run ==> Without(ws, run) != [] && Without(ws, run)[0] == ws[0]
  {
    if ws != [] {
      WithoutKeeps(ws[1..], run);
      var rest := Without(ws[1..], run);
      assert forall w :: w in ws <==> w == ws[0] || w in ws[1..];
      if Distinct(ws) {
        forall w | w in rest ensures w.run != ws[0].run {
          var i :| 0 <= i < |ws[1..]| && ws[1..][i] == w;
          assert ws[i + 1] == w;
        }
        assert Distinct(ws[1..]);
        assert Distinct([ws[0]] + rest);
      }
    }
  }

  // A registration keeps the order: an update in place, else at the end.
  lemma {:induction false} PutKeeps(ws: seq<Waiter>, w: Waiter)
    requires Distinct(ws)
    ensures Distinct(Put(ws, w))
    ensures forall v :: v in Put(ws, w) <==> v == w || (v in ws && v.run != w.run)
    ensures Put(ws, w)[0].run == (if ws == [] then w.run else ws[0].run)
    ensures |Put(ws, w)| == if Waits(ws, w.run) then |ws| else |ws| + 1
  {
    if ws != [] {
      WaitsTail(ws, w.run);
      assert Distinct(ws[1..]);
      PutKeeps(ws[1..], w);
      forall v | v in ws[1..] ensures v.run != ws[0].run {
        var i :| 0 <= i < |ws[1..]| && ws[1..][i] == v;
        assert ws[i + 1] == v;
      }
      assert forall v :: v in ws <==> v == ws[0] || v in ws[1..];
    }
  }

  lemma WaitsIsIn(ws: seq<Waiter>, run: RunId)
    ensures Waits(ws, run) <==> exists w :: w in ws && w.run == run
  {
    if Waits(ws, run) {
      var i :| 0 <= i < |ws| && ws[i].run == run;
      assert ws[i] in ws;
    }
  }

  // Staleness alone: the entries kept, and the reservation while it stands.
  lemma FreshConsistent(s: Lease, now: real)
    requires Consistent(s)
    ensures var kept := Fresh(s.waiters, now);
            && Distinct(kept) && (forall w :: w in kept ==> w.pollInterval >= 0.0)
            && (s.holder.Some? ==> !Waits(kept, s.holder.value))
            && (s.closed ==> kept == [])
            && (s.reserved.Some? && Waits(kept, s.reserved.value.run) ==>
                  kept != [] && kept[0].run == s.reserved.value.run)
  {
    var kept := Fresh(s.waiters, now);
    FreshKeeps(s.waiters, now);
    if s.holder.Some? {
      WaitsIsIn(s.waiters, s.holder.value);
      WaitsIsIn(kept, s.holder.value);
    }
    if s.reserved.Some? && Waits(kept, s.reserved.value.run) {
      var i :| 0 <= i < |kept| && kept[i].run == s.reserved.value.run;
      assert kept[i] in s.waiters;
      assert kept[i] == s.waiters[0];
    }
  }

  lemma PrunedInv(s: Lease, now: real)
    requires Consistent(s)
    ensures Inv(Pruned(s, now))
  {
    FreshConsistent(s, now);
    if s.reserved.Some? { WithoutKeeps(Fresh(s.waiters, now), s.reserved.value.run); }
  }

  // Every public operation keeps the invariant, from any state and at any time.
  lemma StepKeepsInv(s: Lease, op: Op, now: real)
    requires Inv(s)
    ensures Inv(Step(s, op, now).0)
  {
    match op
    case Try(run, raw, title) =>
      PrunedInv(s, now);
      var p := Pruned(s, now);
      WithoutKeeps(p.waiters, run);
      WaitsIsIn(Without(p.waiters, run), run);
      var w := Waiter(run, Interval(raw), now, title);
      PutKeeps(p.waiters, w);
      if p.holder.Some? {
        WaitsIsIn(p.waiters, p.holder.value);
        WaitsIsIn(Put(p.waiters, w), p.holder.value);
      }
    case Release(run) =>
      if s.holder == Some(run) { PrunedInv(s.(holder := None, title := ""), now); }
    case Withdraw(run) =>
      WithoutKeeps(s.waiters, run);
      if s.holder.Some? {
        WaitsIsIn(s.waiters, s.holder.value);
        WaitsIsIn(Without(s.waiters, run), s.holder.value);
      }
      var reserved := if s.reserved.Some? && s.reserved.value.run == run then None else s.reserved;
      PrunedInv(s.(waiters := Without(s.waiters, run), reserved := reserved), now);
    case Close =>
    case Observe =>
      PrunedInv(s, now);
  }

  // A try on an open, free lease fails exactly when a reservation that is still
  // running belongs to another run, the earliest waiter; the run then waits.
  lemma TryOnFreeLease(s: Lease, run: RunId, raw: RawInterval, now: real, title: string)
    requires Inv(s) && s.holder.None? && !s.closed
    ensures var (s', granted) := TryAcquire(s, run, raw, now, title);
            var p := Pruned(s, now);
            && (!granted <==> p.reserved.Some? && p.reserved.value.run != run)
            && (granted ==> s'.holder == Some(run) && s'.reserved.None?)
            && (!granted ==> && p.reserved.value.deadline > now
                             && p.waiters[0].run == p.reserved.value.run
                             && s'.holder.None? && s'.reserved == p.reserved
                             && Waits(s'.waiters, run))
  {
    PrunedInv(s, now);
    var p := Pruned(s, now);
    var w := Waiter(run, Interval(raw), now, title);
    PutKeeps(p.waiters, w);
    WaitsIsIn(Put(p.waiters, w), run);
  }

  // A closed lease admits nothing again, whatever is called on it.
  lemma ClosedForever(s: Lease, op: Op, now: real)
    requires Inv(s) && s.closed
    ensures var (s', _) := Step(s, op, now);
            s'.closed && s'.holder.None? && s'.waiters == [] && s'.reserved.None?
    ensures op.Try? ==> !Step(s, op, now).1
  {
  }

  // A waiter is stale once it has been silent for over 30 seconds and for over
  // three of its intervals.
  lemma StaleMeans(w: Waiter, now: real)
    ensures Stale(w, now) <==> now - w.lastTry > 30.0 && now - w.lastTry > 3.0 * w.pollInterval
  {
  }

  // After a prune a free lease somebody waits for is kept for the first waiter:
  // by the reservation it had, which has not run out, or by a new one of 30
  // seconds, or of two of its intervals when they are longer.
  lemma FirstIsReserved(s: Lease, now: real)
    requires Inv(s) && s.holder.None? && Pruned(s, now).waiters != []
    ensures var p := Pruned(s, now);
            && p.reserved.Some? && p.reserved.value.run == p.waiters[0].run && now < p.reserved.value.deadline
            && (p.reserved != s.reserved ==>
                  var length := p.reserved.value.deadline - now;
                  var two := 2.0 * p.waiters[0].pollInterval;
                  length >= 30.0 && length >= two && (length == 30.0 || length == two))
  {
    PrunedInv(s, now);
  }

  // The lease closes exactly when nobody holds it; then nobody waits any more.
  lemma CloseAnswers(s: Lease, now: real)
    ensures var (s', idle) := Step(s, Close, now);
            && (idle <==> s.holder.None?)
            && (idle ==> s'.closed && s'.holder.None? && s'.waiters == [] && s'.reserved.None?)
            && (!idle ==> s' == s)
  {
  }

  // A run that withdraws neither waits nor keeps a reservation; the holder stays.
  lemma WithdrawForgets(s: Lease, run: RunId, now: real)
    requires Inv(s)
    ensures var s' := Step(s, Withdraw(run), now).0;
            && !Waits(s'.waiters, run) && (s'.reserved.Some? ==> s'.reserved.value.run != run)
            && s'.holder == s.holder && s'.title == s.title
  {
    StepKeepsInv(s, Withdraw(run), now);
    var rest := Without(s.waiters, run);
    WithoutKeeps(s.waiters, run);
    WaitsIsIn(rest, run);
    var reserved := if s.reserved.Some? && s.reserved.value.run == run then None else s.reserved;
    PrunedSubset(s.(waiters := rest, reserved := reserved), now, run);
    var s' := Step(s, Withdraw(run), now).0;
    if s'.reserved.Some? { assert s'.waiters[0].run == s'.reserved.value.run; }
  }

  // Who blocks is told by the title of the holder, of the first waiter when the
  // lease is free, or not at all.
  lemma LabelNames(s: Lease)
    requires Inv(s)
    ensures BlockingLabel(s) ==
      (if s.holder.Some? then s.title else if s.waiters != [] then s.waiters[0].title else "")
  {
    if s.reserved.Some? { assert Waits(s.waiters, s.waiters[0].run); }
  }

  // ----- one holder at a time -----------------------------------------------

  // A held lease stays with its holder through everything but its own release.
  lemma HolderStays(s: Lease, op: Op, now: real, h: RunId)
    requires s.holder == Some(h) && op != Release(h)
    ensures Step(s, op, now).0.holder == Some(h)
  {
  }

  // A free lease changes hands only to the run that tries for it.
  lemma OnlyTriesTake(s: Lease, op: Op, now: real)
    requires Step(s, op, now).0.holder != s.holder && Step(s, op, now).0.holder.Some?
    ensures s.holder.None? && op.Try? && Step(s, op, now) == (Step(s, op, now).0, true)
    ensures Step(s, op, now).0.holder == Some(op.run) && Step(s, op, now).0.title == op.title
  {
  }

  // A try on a held lease is granted to the holder alone, who only renews its
  // title; any other run waits, with what it asked for.
  lemma TryOnHeldLease(s: Lease, h: RunId, run: RunId, raw: RawInterval, now: real, title: string)
    requires Inv(s) && s.holder == Some(h)
    ensures var (s', granted) := Step(s, Try(run, raw, title), now);
            && (granted <==> run == h)
            && s'.holder == Some(h) && s'.title == (if run == h then title else s.title)
            && (run != h ==> Waits(s'.waiters, run) && Entry(s'.waiters, run) == Waiter(run, Interval(raw), now, title))
            && (forall w :: w in s'.waiters && w.run != run ==> w in s.waiters)
  {
    PrunedInv(s, now);
    var p, w := Pruned(s, now), Waiter(run, Interval(raw), now, title);
    FreshKeeps(s.waiters, now);
    if run != h {
      PutKeeps(p.waiters, w);
      EntryUnique(Put(p.waiters, w), w);
    }
  }

  // Only the holder's release is one, and it frees the lease.
  lemma ReleaseFrees(s: Lease, run: RunId, now: real)
    ensures var (s', released) := Step(s, Release(run), now);
            && (released <==> s.holder == Some(run))
            && (released ==> s'.holder.None? && s'.title == "")
            && (!released ==> s' == s)
  {
  }

  function After(s: Lease, trace: Trace): Lease
    decreases |trace|
  {
    if trace == [] then s else After(Step(s, trace[0].0, trace[0].1).0, trace[1..])
  }

  // The runs granted a try, in order.
  function Granted(s: Lease, trace: Trace): seq<RunId>
    decreases |trace|
  {
    if trace == [] then []
    else
      var (op, now) := trace[0];
      var (s', done) := Step(s, op, now);
      (if op.Try? && done then [op.run] else []) + Granted(s', trace[1..])
  }

  // Exclusion over any run: until the holder releases, it stays the holder and
  // nobody else is granted the lease.
  lemma {:induction false} HeldUntilReleased(s: Lease, trace: Trace, h: RunId)
    requires Inv(s) && s.holder == Some(h) && forall i :: 0 <= i < |trace| ==> trace[i].0 != Release(h)
    ensures After(s, trace).holder == Some(h)
    ensures forall r :: r in Granted(s, trace) ==> r == h
    decreases |trace|
  {
    if trace != [] {
      var (op, now) := trace[0];
      assert op != Release(h);
      HolderStays(s, op, now, h);
      StepKeepsInv(s, op, now);
      if op.Try? { TryOnHeldLease(s, h, op.run, op.raw, now, op.title); }
      HeldUntilReleased(Step(s, op, now).0, trace[1..], h);
    }
  }

  // ----- fairness over whole runs ------------------------------------------

  // A run of the lease: operations with the clock readings they took.
  type Trace = seq<(Op, real)>

  // `run` waits, its last try is not in the future, and a reservation in its
  // name lasts for a whole window from that try.
  ghost predicate Waiting(s: Lease, run: RunId, clock: real) {
    && Consistent(s)
    && Waits(s.waiters, run)
    && var w := Entry(s.waiters, run);
       && w.lastTry <= clock
       && (s.reserved.Some? && s.reserved.value.run == run ==> w.lastTry + Window(w) <= s.reserved.value.deadline)
  }

  lemma {:induction false} EntryUnique(ws: seq<Waiter>, w: Waiter)
    requires Distinct(ws) && w in ws
    ensures Waits(ws, w.run) && Entry(ws, w.run) == w
  {
    WaitsIsIn(ws, w.run);
    if ws[0] != w {
      var i :| 0 <= i < |ws| && ws[i] == w;
      assert ws[0].run != ws[i].run;
      assert ws[1..][i - 1] == w;
      assert Distinct(ws[1..]);
      EntryUnique(ws[1..], w);
      WaitsTail(ws, w.run);
    }
  }

  // Only runs that wait are ahead of anybody, and nobody is ahead of itself.
  lemma {:induction false} NotAhead(ws: seq<Waiter>, run: RunId, other: RunId)
    requires other == run || !Waits(ws, other)
    ensures other !in Ahead(ws, run)
  {
    if ws != [] && ws[0].run != run {
      WaitsTail(ws, other);
      NotAhead(ws[1..], run, other);
    }
  }

  // Dropping entries never moves anybody in front of `run`.
  lemma {:induction false} AheadFresh(ws: seq<Waiter>, now: real, run: RunId)
    requires Distinct(ws) && Waits(ws, run) && !Stale(Entry(ws, run), now)
    ensures Ahead(Fresh(ws, now), run) <= Ahead(ws, run)
  {
    WaitsTail(ws, run);
    var rest := Fresh(ws[1..], now);
    assert ([ws[0]] + rest)[1..] == rest;
    if ws[0].run != run {
      assert Distinct(ws[1..]);
      AheadFresh(ws[1..], now, run);
      assert Stale(ws[0], now) ==> Fresh(ws, now) == rest;
    }
  }

  lemma {:induction false} AheadWithout(ws: seq<Waiter>, run: RunId, gone: RunId)
    requires Distinct(ws) && gone != run
    ensures Ahead(Without(ws, gone), run) == Ahead(ws, run) - {gone}
  {
    if ws != [] && ws[0].run != run {
      assert Distinct(ws[1..]);
      var rest := Without(ws[1..], gone);
      assert ([ws[0]] + rest)[1..] == rest;
      AheadWithout(ws[1..], run, gone);
      if ws[0].run == gone {
        assert Without(ws, gone) == rest;
      }
    }
  }

  lemma {:induction false} AheadPut(ws: seq<Waiter>, w: Waiter, run: RunId)
    requires Distinct(ws) && Waits(ws, run)
    ensures Ahead(Put(ws, w), run) == Ahead(ws, run)
  {
    WaitsTail(ws, run);
    assert Distinct(ws[1..]);
    if ws[0].run != run && ws[0].run != w.run { AheadPut(ws[1..], w, run); }
  }

  lemma FreshHolds(ws: seq<Waiter>, run: RunId, now: real)
    requires Distinct(ws) && Waits(ws, run)
    ensures Waits(Fresh(ws, now), run) <==> !Stale(Entry(ws, run), now)
  {
    var w, kept := Entry(ws, run), Fresh(ws, now);
    FreshKeeps(ws, now);
    WaitsIsIn(kept, run);
    if Waits(kept, run) { EntryUnique(ws, Entry(kept, run)); }
  }

  // A prune drops a waiter exactly when it is stale or its reservation ran out.
  lemma PruneDropsExactly(s: Lease, run: RunId, now: real)
    requires Consistent(s) && Waits(s.waiters, run)
    ensures Waits(Pruned(s, now).waiters, run) <==>
      && !Stale(Entry(s.waiters, run), now)
      && !(s.reserved.Some? && s.reserved.value.run == run && now >= s.reserved.value.deadline)
  {
    var kept := Fresh(s.waiters, now);
    FreshHolds(s.waiters, run, now);
    FreshKeeps(s.waiters, now);
    if s.reserved.Some? && now >= s.reserved.value.deadline { WithoutHolds(kept, s.reserved.value.run, run); }
  }

  lemma WithoutHolds(ws: seq<Waiter>, gone: RunId, run: RunId)
    requires Distinct(ws)
    ensures Waits(Without(ws, gone), run) <==> Waits(ws, run) && run != gone
  {
    WithoutKeeps(ws, gone);
    WaitsIsIn(ws, run);
    WaitsIsIn(Without(ws, gone), run);
  }

  // What one prune does to a waiter whose window since its last try is not over:
  // it is neither stale nor robbed of its reservation, and nobody overtakes it.
  lemma PruneKeepsWaiter(s: Lease, run: RunId, clock: real, now: real)
    requires Waiting(s, run, clock) && clock <= now
    requires now - Entry(s.waiters, run).lastTry < Window(Entry(s.waiters, run))
    ensures Waiting(Pruned(s, now), run, now)
    ensures Entry(Pruned(s, now).waiters, run) == Entry(s.waiters, run)
    ensures Ahead(Pruned(s, now).waiters, run) <= Ahead(s.waiters, run)
  {
    var w := Entry(s.waiters, run);
    var kept := Fresh(s.waiters, now);
    PrunedInv(s, now);
    FreshKeeps(s.waiters, now);
    EntryUnique(kept, w);
    AheadFresh(s.waiters, now, run);
    if s.reserved.Some? && now >= s.reserved.value.deadline {
      var gone := s.reserved.value.run;
      assert gone != run;
      WithoutKeeps(kept, gone);
      EntryUnique(Without(kept, gone), w);
      AheadWithout(kept, run, gone);
    }
  }

  // `run` keeps its word at this step: the clock does not run backwards, it has
  // not let its whole window pass since its last try, which is at least twice the
  // interval it declared and never under half a minute, it does not withdraw, and
  // nobody closes the free lease.
  ghost predicate Patient(s: Lease, run: RunId, clock: real, op: Op, now: real) {
    && Waits(s.waiters, run)
    && clock <= now
    && now - Entry(s.waiters, run).lastTry < Window(Entry(s.waiters, run))
    && op != Withdraw(run)
    && !(op.Close? && s.holder.None?)
  }

  // The run that this step hands the free lease to, if it does.
  function Grant(s: Lease, s': Lease): Option<RunId> {
    if s.holder != s'.holder && s'.holder.Some? then s'.holder else None
  }

  // One step past a patient waiter: it either gets the lease, or it still waits
  // with nobody new ahead of it; and only a run ahead of it can be served.
  lemma PatientStep(s: Lease, run: RunId, clock: real, op: Op, now: real)
    requires Inv(s) && Waiting(s, run, clock) && Patient(s, run, clock, op, now)
    ensures var s' := Step(s, op, now).0;
            var g := Grant(s, s');
            && Inv(s')
            && (g != Some(run) ==> && Waiting(s', run, now)
                                   && Ahead(s'.waiters, run) <= Ahead(s.waiters, run))
            && (g.Some? && g != Some(run) ==> && g.value in Ahead(s.waiters, run)
                                              && g.value !in Ahead(s'.waiters, run))
  {
    StepKeepsInv(s, op, now);
    match op
    case Try(r, raw, title) =>
      PruneKeepsWaiter(s, run, clock, now);
      TryPastWaiter(s, run, r, raw, now, title);
    case Release(r) =>
      if s.holder == Some(r) { PruneKeepsWaiter(s.(holder := None, title := ""), run, clock, now); }
    case Withdraw(r) =>
      WithdrawPastWaiter(s, run, clock, r, now);
    case Close =>
    case Observe =>
      PruneKeepsWaiter(s, run, clock, now);
  }

  // What one step of somebody else's may do to a waiter.
  ghost predicate Passed(s: Lease, s': Lease, run: RunId, now: real) {
    var g := Grant(s, s');
    && (g != Some(run) ==> Waiting(s', run, now) && Ahead(s'.waiters, run) <= Ahead(s.waiters, run))
    && (g.Some? && g != Some(run) ==> g.value in Ahead(s.waiters, run) && g.value !in Ahead(s'.waiters, run))
  }

  // The lease goes to the run it is reserved for.
  lemma GrantPastWaiter(p: Lease, run: RunId, now: real, title: string)
    requires Inv(p) && Waiting(p, run, now) && p.holder.None? && p.reserved.Some?
    ensures var r := p.reserved.value.run;
            Passed(p, p.(holder := Some(r), title := title, waiters := Without(p.waiters, r), reserved := None), run,
              now)
  {
    var r := p.reserved.value.run;
    if r != run {
      WithoutKeeps(p.waiters, r);
      EntryUnique(Without(p.waiters, r), Entry(p.waiters, run));
      AheadWithout(p.waiters, run, r);
      WaitsIsIn(Without(p.waiters, r), r);
    }
  }

  // A refused try registers its run, or brings its entry up to date.
  lemma RefusedPastWaiter(p: Lease, run: RunId, v: Waiter, now: real)
    requires Inv(p) && Waiting(p, run, now) && p.holder != Some(v.run) && v.pollInterval >= 0.0 && v.lastTry == now
      && !p.closed
    requires p.holder.None? ==> p.reserved.Some? && p.reserved.value.run != v.run
    ensures Passed(p, p.(waiters := Put(p.waiters, v)), run, now)
  {
    PutKeeps(p.waiters, v);
    AheadPut(p.waiters, v, run);
    EntryUnique(Put(p.waiters, v), if v.run == run then v else Entry(p.waiters, run));
    if p.holder.Some? {
      WaitsIsIn(p.waiters, p.holder.value);
      WaitsIsIn(Put(p.waiters, v), p.holder.value);
    }
  }

  lemma TryPastWaiter(s: Lease, run: RunId, r: RunId, raw: RawInterval, now: real, title: string)
    requires Inv(Pruned(s, now)) && Waiting(Pruned(s, now), run, now)
    requires Ahead(Pruned(s, now).waiters, run) <= Ahead(s.waiters, run)
    ensures Passed(s, TryAcquire(s, r, raw, now, title).0, run, now)
  {
    var p := Pruned(s, now);
    if p.holder != Some(r) && !p.closed {
      if p.holder.None? && p.reserved.Some? && p.reserved.value.run == r {
        GrantPastWaiter(p, run, now, title);
      } else {
        RefusedPastWaiter(p, run, Waiter(r, Interval(raw), now, title), now);
      }
    }
  }

  // The state half-way through a withdrawal, before it prunes.
  function Left(s: Lease, r: RunId): Lease {
    s.(waiters := Without(s.waiters, r),
       reserved := if s.reserved.Some? && s.reserved.value.run == r then None else s.reserved)
  }

  lemma LeavingKeepsWaiter(s: Lease, run: RunId, clock: real, r: RunId)
    requires Inv(s) && Waiting(s, run, clock) && r != run
    ensures Waiting(Left(s, r), run, clock) && Entry(Left(s, r).waiters, run) == Entry(s.waiters, run)
    ensures Ahead(Left(s, r).waiters, run) <= Ahead(s.waiters, run)
  {
    var ws := Without(s.waiters, r);
    WithoutKeeps(s.waiters, r);
    EntryUnique(ws, Entry(s.waiters, run));
    AheadWithout(s.waiters, run, r);
    if s.holder.Some? {
      WaitsIsIn(s.waiters, s.holder.value);
      WaitsIsIn(ws, s.holder.value);
    }
  }

  lemma WithdrawPastWaiter(s: Lease, run: RunId, clock: real, r: RunId, now: real)
    requires Inv(s) && Waiting(s, run, clock) && Patient(s, run, clock, Withdraw(r), now)
    ensures var s' := Step(s, Withdraw(r), now).0;
            Waiting(s', run, now) && Ahead(s'.waiters, run) <= Ahead(s.waiters, run)
  {
    LeavingKeepsWaiter(s, run, clock, r);
    PruneKeepsWaiter(Left(s, r), run, clock, now);
    assert Step(s, Withdraw(r), now).0 == Pruned(Left(s, r), now);
  }

  // `run` keeps its word at every step until it is served.
  ghost predicate PatientRun(s: Lease, run: RunId, clock: real, trace: Trace)
    decreases |trace|
  {
    trace != [] ==>
      var (op, now) := trace[0];
      var s' := Step(s, op, now).0;
      && Patient(s, run, clock, op, now)
      && (Grant(s, s') != Some(run) ==> PatientRun(s', run, now, trace[1..]))
  }

  // The runs served before `run` is, in order.
  function ServedBefore(s: Lease, run: RunId, trace: Trace): seq<RunId>
    decreases |trace|
  {
    if trace == [] then []
    else
      var s' := Step(s, trace[0].0, trace[0].1).0;
      var g := Grant(s, s');
      if g == Some(run) then []
      else (if g.Some? then [g.value] else []) + ServedBefore(s', run, trace[1..])
  }

  // Whether `run` is served within the trace, else the state it ends in.
  function Outcome(s: Lease, run: RunId, trace: Trace): Option<Lease>
    decreases |trace|
  {
    if trace == [] then Some(s)
    else
      var s' := Step(s, trace[0].0, trace[0].1).0;
      if Grant(s, s') == Some(run) then None else Outcome(s', run, trace[1..])
  }

  // FIFO fairness over a whole run: before a patient waiter is served, only runs
  // that registered before it are served, each of them at most once; and unless
  // it is served it is still waiting at the end.
  lemma {:induction false} FifoFairness(s: Lease, run: RunId, clock: real, trace: Trace)
    requires Inv(s) && Waiting(s, run, clock) && PatientRun(s, run, clock, trace)
    ensures forall r :: r in ServedBefore(s, run, trace) ==> r in Ahead(s.waiters, run)
    ensures forall i, j :: 0 <= i < j < |ServedBefore(s, run, trace)| ==>
              ServedBefore(s, run, trace)[i] != ServedBefore(s, run, trace)[j]
    ensures |ServedBefore(s, run, trace)| <= |Ahead(s.waiters, run)|
    ensures Outcome(s, run, trace).Some? ==> Waits(Outcome(s, run, trace).value.waiters, run)
    decreases |trace|
  {
    if trace != [] {
      var (op, now) := trace[0];
      PatientStep(s, run, clock, op, now);
      var s' := Step(s, op, now).0;
      var g := Grant(s, s');
      if g != Some(run) {
        FifoFairness(s', run, now, trace[1..]);
        var before, after := Ahead(s.waiters, run), Ahead(s'.waiters, run);
        SubsetSize(after, if g.Some? then before - {g.value} else before);
      }
    }
  }

  lemma {:induction false} SubsetSize(a: set<RunId>, b: set<RunId>)
    requires a <= b
    ensures |a| <= |b|
  {
    if a != {} {
      var x :| x in a;
      SubsetSize(a - {x}, b - {x});
    }
  }

  // Progress: the patient waiter nobody is ahead of takes a free lease with its
  // next try.
  lemma HeadIsServed(s: Lease, run: RunId, clock: real, raw: RawInterval, now: real, title: string)
    requires Inv(s) && Waiting(s, run, clock) && Patient(s, run, clock, Try(run, raw, title), now)
    requires s.holder.None? && Ahead(s.waiters, run) == {}
    ensures TryAcquire(s, run, raw, now, title).1
    ensures TryAcquire(s, run, raw, now, title).0.holder == Some(run)
  {
    PruneKeepsWaiter(s, run, clock, now);
    PrunedInv(s, now);
    assert !s.closed;
    assert Pruned(s, now).waiters[0].run == run;
  }

  // A refused try on an open lease is what makes a run wait in this sense, with
  // exactly the runs already registered ahead of it when it is new.
  lemma RefusedTryWaits(s: Lease, run: RunId, raw: RawInterval, now: real, title: string)
    requires Inv(s) && !s.closed && !TryAcquire(s, run, raw, now, title).1
    ensures Waiting(TryAcquire(s, run, raw, now, title).0, run, now)
    ensures !Waits(s.waiters, run) ==>
              Ahead(TryAcquire(s, run, raw, now, title).0.waiters, run) == set w | w in Pruned(s, now).waiters :: w.run
  {
    StepKeepsInv(s, Try(run, raw, title), now);
    PrunedInv(s, now);
    var p := Pruned(s, now);
    var w := Waiter(run, Interval(raw), now, title);
    PutKeeps(p.waiters, w);
    EntryUnique(Put(p.waiters, w), w);
    if !Waits(s.waiters, run) {
      PrunedSubset(s, now, run);
      AllAhead(p.waiters, w);
    }
  }

  lemma PrunedSubset(s: Lease, now: real, run: RunId)
    requires !Waits(s.waiters, run)
    ensures !Waits(Pruned(s, now).waiters, run)
  {
    var kept := Fresh(s.waiters, now);
    FreshKeeps(s.waiters, now);
    if s.reserved.Some? { WithoutKeeps(kept, s.reserved.value.run); }
    WaitsIsIn(s.waiters, run);
    WaitsIsIn(Pruned(s, now).waiters, run);
  }

  lemma {:induction false} AllAhead(ws: seq<Waiter>, w: Waiter)
    requires !Waits(ws, w.run)
    ensures Ahead(Put(ws, w), w.run) == set v | v in ws :: v.run
  {
    if ws != [] {
      WaitsTail(ws, w.run);
      AllAhead(ws[1..], w);
      assert forall v :: v in ws <==> v == ws[0] || v in ws[1..];
    }
  }

  // The lease object. Its clock readings are arguments; its mutex makes each
  // method one atomic step.
  class GpuLease {
    var holder: Option<RunId>
    var title: string
    var waiters: seq<Waiter>
    var reserved: Option<Reservation>
    var closed: bool

    ghost function State(): Lease
      reads this
    {
      Lease(holder, title, waiters, reserved, closed)
    }

    constructor ()
      ensures State() == FREE && Inv(State())
    {
      holder, title, waiters, reserved, closed := None, "", [], None, false;
    }

    method Prune(now: real)
      modifies this
      ensures State() == Pruned(old(State()), now)
    {
      waiters := KeepFresh(now);
      if reserved.Some? {
        var run, deadline := reserved.value.run, reserved.value.deadline;
        if now >= deadline {
          reserved := None;
          waiters := Without(waiters, run);
        } else if !Waits(waiters, run) {
          reserved := None;
        }
      }
      if holder.None? && reserved.None? && waiters != [] {
        var window := Window(waiters[0]);
        reserved := Some(Reservation(waiters[0].run, now + window));
      }
    }

    // The waiters that are not stale, in order.
    method KeepFresh(now: real) returns (kept: seq<Waiter>)
      ensures kept == Fresh(waiters, now)
    {
      kept := [];
      var i := 0;
      while i < |waiters|
        invariant 0 <= i <= |waiters|
        invariant kept + Fresh(waiters[i..], now) == Fresh(waiters, now)
      {
        assert waiters[i..][1..] == waiters[i + 1..];
        if !Stale(waiters[i], now) {
          kept := kept + [waiters[i]];
        }
        i := i + 1;
      }
    }

    method TryAcquire(run: RunId, raw: RawInterval, now: real, title: string) returns (granted: bool)
      requires Inv(State())
      modifies this
      ensures Inv(State())
      ensures (State(), granted) == Step(old(State()), Try(run, raw, title), now)
    {
      StepKeepsInv(State(), Try(run, raw, title), now);
      Prune(now);
      if holder == Some(run) {
        this.title := title;
        return true;
      }
      if closed {
        return false;
      }
      if holder.None? && (reserved.None? || reserved.value.run == run) {
        holder, this.title := Some(run), title;
        waiters := Without(waiters, run);
        reserved := None;
        return true;
      }
      waiters := Put(waiters, Waiter(run, Interval(raw), now, title));
      return false;
    }

    method Release(run: RunId, now: real) returns (released: bool)
      requires Inv(State())
      modifies this
      ensures Inv(State())
      ensures (State(), released) == Step(old(State()), Op.Release(run), now)
    {
      released := holder == Some(run);
      if released {
        ghost var idle := State().(holder := None, title := "");
        PrunedInv(idle, now);
        holder, title := None, "";
        assert State() == idle;
        Prune(now);
      }
    }

    method Withdraw(run: RunId, now: real)
      requires Inv(State())
      modifies this
      ensures Inv(State())
      ensures State() == Step(old(State()), Op.Withdraw(run), now).0
    {
      StepKeepsInv(State(), Op.Withdraw(run), now);
      waiters := Without(waiters, run);
      if reserved.Some? && reserved.value.run == run {
        reserved := None;
      }
      Prune(now);
    }

    method CloseIfIdle() returns (idle: bool)
      requires Inv(State())
      modifies this
      ensures Inv(State())
      ensures (State(), idle) == Step(old(State()), Close, 0.0)
    {
      if holder.Some? {
        return false;
      }
      closed, waiters, reserved := true, [], None;
      return true;
    }

    // Who blocks: the holder, else the waiter the lease is reserved for.
    method CurrentLabel(now: real) returns (who: string)
      requires Inv(State())
      modifies this
      ensures Inv(State())
      ensures State() == Step(old(State()), Observe, now).0
      ensures who == BlockingLabel(State())
    {
      StepKeepsInv(State(), Observe, now);
      Prune(now);
      who := if holder.Some? then title
      else if reserved.Some? then Entry(waiters, reserved.value.run).title
      else "";
    }
  }
}
