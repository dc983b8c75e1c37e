// The agent's event queue: an id is reserved before its event is visible, an
// acknowledgement trims what was offered, and a full queue drops its oldest.
module EventQueue {
  import opened Wrappers
  import Lineage = EventLineage

  datatype Event = Event(id: int, monitor: string, message: string)

  datatype Error =
    | QueueClosed
    | InvalidLevel
    | CounterExhausted
    | NotReserved(error: Lineage.Error)
    | AckUnoffered
    | CursorMismatch

  const LEVELS: set<string> := {"info", "warn", "alert", "done"}

  // `floor` is the last id before this queue existed and `offered` the largest
  // id a payload has handed out (the floor until then).
  datatype Queue = Queue(events: seq<Event>, next: int, maxSize: int, floor: int, offered: int)

  function NewQueue(start: int, maxSize: int): Queue {
    var next := if start < 1 then 1 else start;
    Queue([], next, maxSize, next - 1, next - 1)
  }

  function Larger(x: int, y: int): int {
    if x < y then y else x
  }

  // The queue after a reserved event joins it, and how many events the overflow
  // callback reports as dropped.
  function Appended(q: Queue, monitor: string, message: string): (Queue, nat) {
    var all := q.events + [Event(q.next, monitor, message)];
    var overflow := |all| - q.maxSize;
    if overflow > 0 then
      var cut := if overflow > |all| then |all| else overflow;
      (q.(events := all[cut..], next := q.next + 1), overflow)
    else
      (q.(events := all, next := q.next + 1), 0)
  }

  // The events with a larger id, in order.
  function Newer(events: seq<Event>, ack: int): seq<Event> {
    if events == [] then []
    else (if events[0].id > ack then [events[0]] else []) + Newer(events[1..], ack)
  }

  // One payload: with an acknowledgement, trim and return the rest; without, hand
  // everything over.
  function Payload(q: Queue, ack: Option<int>): Result<(Queue, seq<Event>), Error> {
    if ack.Some? && (ack.value < -1 || ack.value > Larger(q.floor, q.offered)) then Err(AckUnoffered)
    else
      var events := if ack.Some? then Newer(q.events, ack.value) else q.events;
      var left := if ack.Some? then events else [];
      var offered := if events != [] then Larger(q.offered, Highest(events)) else q.offered;
      Ok((q.(events := left, offered := offered), events))
  }

  function Highest(events: seq<Event>): (h: int)
    requires events != []
    ensures exists e :: e in events && e.id == h
    ensures forall e :: e in events ==> e.id <= h
  {
    if |events| == 1 then events[0].id else Larger(events[0].id, Highest(events[1..]))
  }

  // ----- delivery conservation ----------------------------------------------

  // What became of the ids handed out since `start`: those some payload has
  // returned, those an overflow dropped, and what its callbacks add up to.
  datatype Ledger = Ledger(q: Queue, start: int, returned: set<int>, lost: set<int>, counted: nat)

  datatype Op = Add(monitor: string, message: string) | Fetch(ack: Option<int>)

  function Ids(events: seq<Event>): set<int> {
    set i | 0 <= i < |events| :: events[i].id
  }

  function Step(l: Ledger, op: Op): Ledger {
    match op
    case Add(monitor, message) =>
      var (q, dropped) := Appended(l.q, monitor, message);
      l.(q := q, lost := l.lost + Gone(l.q, q), counted := l.counted + dropped)
    case Fetch(ack) =>
      match Payload(l.q, ack)
      case Err(_) => l
      case Ok((q, events)) => l.(q := q, returned := l.returned + Ids(events))
  }

  // The queued ids are the interval that ends just below the next id.
  ghost predicate Interval(q: Queue) {
    forall i :: 0 <= i < |q.events| ==> q.events[i].id == q.next - |q.events| + i
  }

  // The first id still queued.
  function Oldest(q: Queue): int {
    q.next - |q.events|
  }

  ghost predicate Ordered(l: Ledger) {
    && Interval(l.q)
    && l.q.floor == l.start - 1 && l.q.floor <= l.q.offered < l.q.next && l.start <= Oldest(l.q)
  }

  // Every id that is not queued any more, and every id the offered high-water
  // mark covers, was returned or dropped; nothing else was.
  ghost predicate Accounted(l: Ledger) {
    && (forall id :: l.start <= id < Oldest(l.q) ==> id in l.returned || id in l.lost)
    && (forall id :: l.start <= id <= l.q.offered ==> id in l.returned || id in l.lost)
    && (forall id :: id in l.lost ==> l.start <= id < Oldest(l.q))
    && (forall id :: id in l.returned ==> l.start <= id <= l.q.offered)
  }

  ghost predicate Counted(l: Ledger) {
    && |l.lost| <= l.counted
    && (l.q.maxSize >= 0 ==> |l.lost| == l.counted)
  }

  ghost predicate Inv(l: Ledger) {
    Ordered(l) && Accounted(l) && Counted(l)
  }

  // The ids from `lo` up to but not including `hi`.
  ghost predicate IsRange(ids: set<int>, lo: int, hi: int) {
    forall id :: id in ids <==> lo <= id < hi
  }

  lemma {:induction false} RangeSize(ids: set<int>, lo: int, hi: int)
    requires IsRange(ids, lo, hi) && lo <= hi
    ensures |ids| == hi - lo
    decreases hi - lo
  {
    if lo < hi {
      RangeSize(ids - {hi - 1}, lo, hi - 1);
    } else {
      assert forall id :: id !in ids;
    }
  }

  // How many events an acknowledgement trims from an interval queue.
  function Trimmed(q: Queue, ack: Option<int>): (cut: nat)
    ensures cut <= |q.events|
  {
    var first := q.next - |q.events|;
    if ack.None? || ack.value < first then 0
    else if ack.value - first + 1 > |q.events| then |q.events|
    else ack.value - first + 1
  }

  lemma {:induction false} NewerSuffix(q: Queue, ack: int)
    requires Interval(q)
    ensures Newer(q.events, ack) == q.events[Trimmed(q, Some(ack))..]
    decreases |q.events|
  {
    if q.events != [] {
      NewerSuffix(q.(events := q.events[1..]), ack);
    }
  }

  lemma IdsOfInterval(q: Queue)
    requires Interval(q)
    ensures IsRange(Ids(q.events), Oldest(q), q.next)
  {
    forall id | Oldest(q) <= id < q.next ensures id in Ids(q.events) {
      assert q.events[id - Oldest(q)].id == id;
    }
  }

  lemma AppendedShape(q: Queue, monitor: string, message: string)
    requires Interval(q)
    ensures var (q', dropped) := Appended(q, monitor, message);
            var cut := |q.events| + 1 - |q'.events|;
            && Interval(q') && q' == q.(events := q'.events, next := q.next + 1) && cut >= 0
            && IsRange(Gone(q, q'), Oldest(q), Oldest(q) + cut)
            && cut <= dropped && (q.maxSize >= 0 ==> cut == dropped)
  {
    var (q', _) := Appended(q, monitor, message);
    IdsOfInterval(q);
    IdsOfInterval(q');
  }

  lemma DisjointSizes(a: set<int>, b: set<int>)
    requires a !! b
    ensures |a + b| == |a| + |b|
  {
  }

  // What an addition adds to the dropped ids: a piece at the old end.
  function Gone(q: Queue, q': Queue): set<int> {
    Ids(q.events) + {q.next} - Ids(q'.events)
  }

  lemma AddAccounts(l: Ledger, l': Ledger, gone: set<int>, cut: nat)
    requires Accounted(l) && l'.start == l.start && l'.returned == l.returned && l'.lost == l.lost + gone
    requires l'.q.offered == l.q.offered && Oldest(l'.q) == Oldest(l.q) + cut
    requires l.start <= Oldest(l.q)
    requires IsRange(gone, Oldest(l.q), Oldest(l.q) + cut)
    ensures Accounted(l') && |l'.lost| == |l.lost| + cut
  {
    RangeSize(gone, Oldest(l.q), Oldest(l.q) + cut);
    assert forall id :: id in gone ==> id !in l.lost;
    DisjointSizes(l.lost, gone);
  }

  lemma AddKeepsInv(l: Ledger, monitor: string, message: string)
    requires Inv(l)
    ensures Inv(Step(l, Add(monitor, message)))
  {
    var l' := Step(l, Add(monitor, message));
    AppendedShape(l.q, monitor, message);
    AddAccounts(l, l', Gone(l.q, l'.q), |l.q.events| + 1 - |l'.q.events|);
  }

  lemma HighestIsLast(q: Queue)
    requires Interval(q) && q.events != []
    ensures Highest(q.events) == q.next - 1
  {
    assert q.events[|q.events| - 1].id == q.next - 1;
  }

  lemma NewerEnd(q: Queue, ack: Option<int>)
    requires Interval(q) && Payload(q, ack).Ok?
    ensures Payload(q, ack).value.1 == q.events[Trimmed(q, ack)..]
  {
    if ack.Some? { NewerSuffix(q, ack.value); }
  }

  lemma NewerEndIds(q: Queue, cut: nat)
    requires Interval(q) && cut <= |q.events|
    ensures IsRange(Ids(q.events[cut..]), Oldest(q) + cut, q.next)
    ensures cut < |q.events| ==> Highest(q.events[cut..]) == q.next - 1
  {
    var end := q.(events := q.events[cut..]);
    IdsOfInterval(end);
    if end.events != [] { HighestIsLast(end); }
  }

  // What a payload returns is the newer end of the queue.
  lemma PayloadShape(q: Queue, ack: Option<int>)
    requires Interval(q) && Payload(q, ack).Ok?
    ensures var (q', events) := Payload(q, ack).value;
            var cut := Trimmed(q, ack);
            && events == q.events[cut..]
            && IsRange(Ids(events), Oldest(q) + cut, q.next)
            && q' == q.(events := if ack.Some? then events else [],
                        offered := if events != [] then Larger(q.offered, q.next - 1) else q.offered)
  {
    NewerEnd(q, ack);
    NewerEndIds(q, Trimmed(q, ack));
  }

  lemma FetchAccounts(l: Ledger, l': Ledger, ids: set<int>, cut: nat, some: bool)
    requires Ordered(l) && Accounted(l) && l'.start == l.start && l'.lost == l.lost && l'.q.next == l.q.next
    requires cut <= |l.q.events| && (some <==> cut < |l.q.events|)
    requires l'.returned == l.returned + ids && IsRange(ids, Oldest(l.q) + cut, l.q.next)
    requires l'.q.offered == if some then Larger(l.q.offered, l.q.next - 1) else l.q.offered
    requires Oldest(l'.q) == Oldest(l.q) + cut || Oldest(l'.q) == l.q.next
    requires cut > 0 ==> Oldest(l.q) + cut - 1 <= l.q.offered
    ensures Accounted(l')
  {
  }

  lemma FetchOrders(l: Ledger, l': Ledger, cut: nat, some: bool)
    requires Ordered(l) && cut <= |l.q.events| && (some <==> cut < |l.q.events|)
    requires l'.start == l.start && l'.q.next == l.q.next && l'.q.floor == l.q.floor
    requires l'.q.events == l.q.events[cut..] || l'.q.events == []
    requires l'.q.offered == if some then Larger(l.q.offered, l.q.next - 1) else l.q.offered
    ensures Ordered(l')
  {
  }

  lemma FetchKeepsInv(l: Ledger, ack: Option<int>)
    requires Inv(l)
    ensures Inv(Step(l, Fetch(ack)))
  {
    if Payload(l.q, ack).Ok? {
      var (q, events) := Payload(l.q, ack).value;
      HandedOut(l, ack, q, events);
    }
  }

  lemma HandedOut(l: Ledger, ack: Option<int>, q: Queue, events: seq<Event>)
    requires Inv(l) && Payload(l.q, ack) == Ok((q, events))
    ensures Inv(l.(q := q, returned := l.returned + Ids(events)))
  {
    var l' := l.(q := q, returned := l.returned + Ids(events));
    PayloadShape(l.q, ack);
    assert Ordered(l') by { FetchOrders(l, l', Trimmed(l.q, ack), events != []); }
    assert Accounted(l') by { FetchAccounts(l, l', Ids(events), Trimmed(l.q, ack), events != []); }
  }

  function Run(l: Ledger, ops: seq<Op>): Ledger
    decreases |ops|
  {
    if ops == [] then l else Run(Step(l, ops[0]), ops[1..])
  }

  function Fresh(start: int, maxSize: int): Ledger {
    var q := NewQueue(start, maxSize);
    Ledger(q, q.next, {}, {}, 0)
  }

  // Delivery conservation over any run from a fresh queue: the queued ids are the
  // contiguous interval that ends at the last id, and every event ever added is
  // still queued, was returned by a payload, or was dropped by an overflow; the
  // overflow callbacks count the dropped events exactly.
  lemma {:induction false} NothingIsLostSilently(l: Ledger, ops: seq<Op>)
    requires Inv(l)
    ensures var e := Run(l, ops);
            && Inv(e) && Interval(e.q)
            && (forall id :: e.start <= id < e.q.next ==> id in Ids(e.q.events) || id in e.returned || id in e.lost)
            && (e.q.maxSize >= 0 ==> e.counted == |e.lost|)
    decreases |ops|
  {
    if ops == [] {
      IdsOfInterval(l.q);
    } else {
      match ops[0] {
        case Add(monitor, message) => AddKeepsInv(l, monitor, message);
        case Fetch(ack) => FetchKeepsInv(l, ack);
      }
      NothingIsLostSilently(Step(l, ops[0]), ops[1..]);
    }
  }

  // A fresh queue starts at the id it is given, at least at 1, with nothing queued
  // and nothing offered.
  lemma FreshIsInv(start: int, maxSize: int)
    ensures Inv(Fresh(start, maxSize))
    ensures var q := NewQueue(start, maxSize);
            && (start >= 1 ==> q.next == start) && (start < 1 ==> q.next == 1)
            && q.events == [] && q.maxSize == maxSize && q.floor == q.offered == q.next - 1
  {
  }

  // An acknowledgement never trims an event that no payload has returned.
  lemma AckTrimsOnlyReturned(l: Ledger, ack: int)
    requires Inv(l) && Payload(l.q, Some(ack)).Ok?
    ensures forall e :: e in l.q.events && e !in Payload(l.q, Some(ack)).value.0.events ==> e.id in l.returned
    ensures forall e :: e in Payload(l.q, Some(ack)).value.0.events <==> e in l.q.events && e.id > ack
  {
    PayloadShape(l.q, Some(ack));
    var cut := Trimmed(l.q, Some(ack));
    forall e | e in l.q.events
      ensures (e in l.q.events[cut..] <==> e.id > ack) && (e.id <= ack ==> e.id in l.returned)
    {
      InSuffix(l.q, cut, ack, e);
      assert l.start <= e.id && (e.id <= ack ==> e.id <= l.q.offered);
    }
  }

  lemma InSuffix(q: Queue, cut: nat, ack: int, e: Event)
    requires Interval(q) && cut == Trimmed(q, Some(ack)) && e in q.events
    ensures e in q.events[cut..] <==> e.id > ack
    ensures Oldest(q) <= e.id < q.next
  {
    var i :| 0 <= i < |q.events| && q.events[i] == e;
    if i >= cut { assert q.events[cut..][i - cut] == e; }
  }

  // An acknowledgement is accepted from -1 up to the last id offered, so whatever a
  // payload returned may be acknowledged; one never offered is refused.
  lemma OfferedIsAccepted(l: Ledger, ack: int)
    requires Inv(l) && 1 <= l.start
    ensures Payload(l.q, Some(ack)).Ok? <==> -1 <= ack <= l.q.offered
    ensures ack in l.returned ==> Payload(l.q, Some(ack)).Ok?
    ensures Payload(l.q, Some(ack)).Err? ==> Payload(l.q, Some(ack)) == Err(AckUnoffered)
    ensures Payload(l.q, None).Ok? && Payload(l.q, None).value.0.events == []
    ensures Payload(l.q, None).value.1 == l.q.events
  {
  }

  // A full queue drops just as many of its oldest events as do not fit. The
  // callback counts them exactly when the configured size is not negative; below
  // zero it counts more than were dropped.
  lemma OverflowCountIsExact(q: Queue, monitor: string, message: string)
    ensures var (q', counted) := Appended(q, monitor, message);
            var dropped := |q.events| + 1 - |q'.events|;
            && dropped <= counted
            && (counted == dropped <==> q.maxSize >= 0)
            && 0 <= dropped <= |q.events| + 1
            && q'.events == (q.events + [Event(q.next, monitor, message)])[dropped..]
            && |q'.events| <= Larger(q.maxSize, 0)
            && (dropped > 0 ==> |q'.events| == Larger(q.maxSize, 0))
  {
  }

  // ----- the published cursor -----------------------------------------------

  // A JSON value as far as the cursor needs one.
  datatype Json = Int(i: int) | Bool(b: bool) | Str(s: string) | Other

  type Cursor = map<string, Json>

  const CURSOR_KEYS: set<string> :=
    {"version", "durable", "server_id", "stream_id", "boot_id", "resume_floor", "offered_highwater", "next_event_id"}

  predicate IsHex(s: string) {
    |s| == 32 && forall c :: c in s ==> '0' <= c <= '9' || 'a' <= c <= 'f'
  }

  const HEX_DIGITS: string := "0123456789abcdef"

  lemma HexMeans(s: string)
    ensures IsHex(s) <==> |s| == 32 && forall c :: c in s ==> c in HEX_DIGITS
  {
    forall c: char ensures c in HEX_DIGITS <==> '0' <= c <= '9' || 'a' <= c <= 'f' {
      if '0' <= c <= '9' { assert HEX_DIGITS[c as int - '0' as int] == c; }
      if 'a' <= c <= 'f' { assert HEX_DIGITS[10 + c as int - 'a' as int] == c; }
    }
  }

  // What Python's `str.strip` takes off.
  predicate IsSpace(c: char) {
    var n := c as int;
    || 0x09 <= n <= 0x0D || 0x1C <= n <= 0x20 || n == 0x85 || n == 0xA0 || n == 0x1680 || 0x2000 <= n <= 0x200A
    || n == 0x2028 || n == 0x2029 || n == 0x202F || n == 0x205F || n == 0x3000
  }

  predicate IsBlank(s: string) {
    forall c :: c in s ==> IsSpace(c)
  }

  // The identity behind a cursor: of a session when the queue is durable.
  datatype Identity = Identity(server: string, stream: string, boot: string, durable: bool)

  function CursorOf(q: Queue, id: Identity): Cursor {
    map["version" := Int(1),
        "server_id" := Str(if id.durable then id.server else ""),
        "stream_id" := Str(id.stream),
        "boot_id" := Str(id.boot),
        "resume_floor" := Int(q.floor),
        "offered_highwater" := Int(q.offered),
        "next_event_id" := Int(q.next),
        "durable" := Bool(id.durable)]
  }

  predicate IntIn(c: Cursor, key: string, lo: int, hi: int) {
    key in c && c[key].Int? && lo <= c[key].i <= hi
  }

  datatype CursorError = LegacyCursor | InvalidCursor | InvalidCounter

  function ParseCursor(c: Cursor): Result<Cursor, CursorError> {
    if !("version" in c && c["version"] == Int(1) && "durable" in c && c["durable"] == Bool(true)) then
      Err(LegacyCursor)
    else if !(forall key :: key in ["stream_id", "boot_id"] ==> key in c && c[key].Str? && IsHex(c[key].s)) then
      Err(InvalidCursor)
    else if !("server_id" in c && c["server_id"].Str? && !IsBlank(c["server_id"].s)) then Err(InvalidCursor)
    else if !IntIn(c, "resume_floor", 0, Lineage.MAX_EVENT_ID)
            || !IntIn(c, "offered_highwater", 0, Lineage.MAX_EVENT_ID)
            || !IntIn(c, "next_event_id", 1, Lineage.MAX_EVENT_ID + 1) then Err(InvalidCounter)
    else if !(c["resume_floor"].i <= c["offered_highwater"].i < c["next_event_id"].i) then Err(InvalidCursor)
    else Ok(map key | key in c && key in CURSOR_KEYS :: c[key])
  }

  // The reader accepts every cursor a queue in service publishes and reads the
  // same cursor back, exactly when a session with a usable identity stands behind
  // the queue.
  lemma CursorRoundTrip(l: Ledger, id: Identity)
    requires Inv(l) && 1 <= l.start && l.q.next <= Lineage.MAX_EVENT_ID + 1
    ensures ParseCursor(CursorOf(l.q, id)).Ok? <==>
      id.durable && IsHex(id.stream) && IsHex(id.boot) && !IsBlank(id.server)
    ensures ParseCursor(CursorOf(l.q, id)).Ok? ==> ParseCursor(CursorOf(l.q, id)).value == CursorOf(l.q, id)
  {
    var c := CursorOf(l.q, id);
    assert "stream_id" in ["stream_id", "boot_id"] && "boot_id" in ["stream_id", "boot_id"];
  }

  // Each key of a published cursor carries the value it is named for.
  lemma CursorTells(q: Queue, id: Identity)
    ensures var c := CursorOf(q, id);
            && c.Keys == CURSOR_KEYS && c["version"] == Int(1) && c["durable"] == Bool(id.durable)
            && c["stream_id"] == Str(id.stream) && c["boot_id"] == Str(id.boot)
            && (id.durable ==> c["server_id"] == Str(id.server)) && (!id.durable ==> c["server_id"] == Str(""))
            && c["resume_floor"] == Int(q.floor) && c["offered_highwater"] == Int(q.offered)
            && c["next_event_id"] == Int(q.next)
  {
  }

  // A reader that acknowledges the high-water mark of its cursor is accepted and
  // gets exactly the queued events that no payload has returned.
  lemma CursorResumes(l: Ledger, id: Identity)
    requires Inv(l) && 1 <= l.start
    ensures var c := CursorOf(l.q, id);
            && Payload(l.q, Some(c["offered_highwater"].i)).Ok?
            && forall e :: e in Payload(l.q, Some(c["offered_highwater"].i)).value.1 <==>
                 e in l.q.events && e.id !in l.returned
  {
    var ack := CursorOf(l.q, id)["offered_highwater"].i;
    PayloadShape(l.q, Some(ack));
    forall e | e in l.q.events
      ensures (e in l.q.events[Trimmed(l.q, Some(ack))..] <==> e.id > ack) && (e.id > ack <==> e.id !in l.returned)
    {
      InSuffix(l.q, Trimmed(l.q, Some(ack)), ack, e);
    }
  }

  // The reader accepts nothing but what some durable queue could publish.
  ghost predicate Publishes(q: Queue, id: Identity) {
    && 0 <= q.floor <= q.offered < q.next <= Lineage.MAX_EVENT_ID + 1
    && id.durable && IsHex(id.stream) && IsHex(id.boot) && !IsBlank(id.server)
  }

  lemma AcceptedIsPublished(c: Cursor)
    ensures ParseCursor(c).Ok? ==>
              exists q, id :: Publishes(q, id) && ParseCursor(c).value == CursorOf(q, id)
    ensures ParseCursor(c).Ok? ==> forall key :: key in CURSOR_KEYS ==> key in c && c[key] == ParseCursor(c).value[key]
  {
    if ParseCursor(c).Ok? {
      assert "stream_id" in ["stream_id", "boot_id"] && "boot_id" in ["stream_id", "boot_id"];
      var q := Queue([], c["next_event_id"].i, 0, c["resume_floor"].i, c["offered_highwater"].i);
      var id := Identity(c["server_id"].s, c["stream_id"].s, c["boot_id"].s, true);
      assert ParseCursor(c).value == CursorOf(q, id);
      assert Publishes(q, id);
    }
  }

  // ----- the queue object ---------------------------------------------------

  // The queue of one machine; its mutex makes each method one atomic step. The
  // durable queue has the session whose reservations it persists.
  class EventQueue {
    const session: Lineage.StateSession?
    const identity: Identity
    var q: Queue
    var closed: bool

    constructor (session: Lineage.StateSession?, identity: Identity, start: int, maxSize: int)
      ensures this.session == session && this.identity == identity
      ensures q == NewQueue(start, maxSize) && !closed
      ensures session != null && start == session.record.next >= 1 ==> InStep()
    {
      this.session, this.identity := session, identity;
      q, closed := NewQueue(start, maxSize), false;
    }

    // The object has the session's next id as its own, so every reservation asks
    // for the id below the next record.
    ghost predicate InStep()
      reads this, session
    {
      session == null || session.record.next == q.next
    }

    // Durable before visible: the event joins the queue only after the id above it
    // is reserved; when that fails nothing in the queue changes.
    method AddEvent(monitor: string, message: string, level: Option<string>, w: Lineage.Written)
      returns (r: Result<Event, Error>, dropped: nat)
      modifies this, session, if session == null then {} else {session.files}
      ensures closed == old(closed)
      ensures r.Err? ==> q == old(q) && dropped == 0
      ensures r.Ok? ==>
                r.value == Event(old(q.next), monitor, message) && (q, dropped) == Appended(old(q), monitor, message)
      ensures r.Ok? && session != null ==>
                && session.record.next == old(q.next) + 1
                && session.files.disk.primary == Lineage.Good(session.record)
                && session.files.disk.anchor == Lineage.Good(session.record)
      ensures r.Ok? <==>
                && !old(closed) && (level.None? || level.value in {"info", "warn", "alert", "done"})
                && old(q.next) <= 0x7FFF_FFFF_FFFF_FFFF
                && (session == null ||
                    old(Lineage.Reserve(session.State(), session.files.disk, q.next + 1, w).0.Ok?))
      ensures r == Err(QueueClosed) <==> old(closed)
      ensures r.Err? && r.error.NotReserved? ==>
                && session != null
                && old(Lineage.Reserve(session.State(), session.files.disk, q.next + 1, w).0) == Err(r.error.error)
      ensures old(InStep()) ==> InStep()
    {
      dropped := 0;
      if closed {
        return Err(QueueClosed), 0;
      }
      if level.Some? && level.value !in LEVELS {
        return Err(InvalidLevel), 0;
      }
      var candidate := q.next;
      if candidate > Lineage.MAX_EVENT_ID {
        return Err(CounterExhausted), 0;
      }
      if session != null {
        var reserved := session.ReserveNext(candidate + 1, w, false);
        if reserved.Err? {
          return Err(NotReserved(reserved.error)), 0;
        }
      }
      var (q', overflow) := Appended(q, monitor, message);
      q := q';
      return Ok(Event(candidate, monitor, message)), overflow;
    }

    method FetchPayload(ack: Option<int>) returns (r: Result<seq<Event>, Error>)
      modifies this
      ensures closed == old(closed)
      ensures r.Ok? <==> Payload(old(q), ack).Ok?
      ensures if r.Ok? then Payload(old(q), ack).value == (q, r.value) else q == old(q) && r.error == AckUnoffered
      ensures old(InStep()) ==> InStep()
    {
      match Payload(q, ack)
      case Err(e) => r := Err(e);
      case Ok((q', events)) =>
        q := q';
        r := Ok(events);
    }

    // The network form: a caller that names a stream or a boot must name ours, and
    // gets the cursor as it stands after the payload.
    method NetworkPayload(ack: Option<int>, stream: Option<string>, boot: Option<string>)
      returns (r: Result<(seq<Event>, Cursor), Error>)
      modifies this
      ensures closed == old(closed)
      ensures r.Ok? <==>
                && ((stream.None? && boot.None?) || (stream == Some(identity.stream) && boot == Some(identity.boot)))
                && Payload(old(q), ack).Ok?
      ensures r.Ok? ==> Payload(old(q), ack).value == (q, r.value.0) && r.value.1 == CursorOf(q, identity)
      ensures r.Err? ==> q == old(q)
      ensures r == Err(CursorMismatch) <==>
                !((stream.None? && boot.None?) || (stream == Some(identity.stream) && boot == Some(identity.boot)))
    {
      if (stream.Some? || boot.Some?) && (stream != Some(identity.stream) || boot != Some(identity.boot)) {
        return Err(CursorMismatch);
      }
      var payload := FetchPayload(ack);
      if payload.Err? {
        return Err(payload.error);
      }
      return Ok((payload.value, CursorOf(q, identity)));
    }

    method Close()
      modifies this, session
      ensures closed && q == old(q)
      ensures session != null ==> session.closing
    {
      closed := true;
      if session != null {
        session.Close();
      }
    }
  }
}
