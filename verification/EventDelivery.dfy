// The queue over its durable counter, boot after boot: an id that ever became
// visible names one event for good.
module EventDelivery {
  import opened Wrappers
  import Lineage = EventLineage
  import Queue = EventQueue

  // The event with the stream it was numbered in.
  type Item = (string, Queue.Event)

  // `made` lists every event that ever joined a queue; `shown` are those some
  // payload has handed out.
  datatype Agent = Agent(world: Lineage.World, queue: Option<Queue.Queue>, made: seq<Item>, shown: set<Item>)

  // A boot opens the records and starts an empty queue at their counter; an event
  // joins the queue when its reservation comes back; everything else that happens
  // to the records is a step of theirs.
  datatype Move =
    | Start(expected: Option<string>, maxSize: int)
    | Add(monitor: string, message: string)
    | Store(action: Lineage.Action)
    | Fetch(ack: Option<int>)

  predicate CanMove(a: Agent, m: Move) {
    match m
    case Start(expected, _) => Lineage.Enabled(a.world, Lineage.Boot(expected))
    case Add(_, _) => a.queue.Some? && Lineage.Enabled(a.world, Lineage.Finish)
    case Store(action) =>
      && !action.Boot? && !action.Finish? && Lineage.Enabled(a.world, action)
      && (action.Begin? ==> a.queue.Some? && action.next == a.queue.value.next + 1)
    case Fetch(_) => a.queue.Some?
  }

  function Items(stream: string, events: seq<Queue.Event>): set<Item> {
    set e | e in events :: (stream, e)
  }

  function Step(a: Agent, m: Move): Agent
    requires Inv(a) && CanMove(a, m)
  {
    match m
    case Start(expected, maxSize) =>
      var w := Lineage.Next(a.world, Lineage.Boot(expected));
      a.(world := w, queue := Some(Queue.NewQueue(w.session.value.record.next, maxSize)))
    case Add(monitor, message) =>
      var q := a.queue.value;
      var item := (Stream(a), Queue.Event(q.next, monitor, message));
      a.(world := Lineage.Next(a.world, Lineage.Finish),
         queue := Some(Queue.Appended(q, monitor, message).0), made := a.made + [item])
    case Store(action) =>
      a.(world := Lineage.Next(a.world, action), queue := if action.Crash? then None else a.queue)
    case Fetch(ack) =>
      match Queue.Payload(a.queue.value, ack)
      case Err(_) => a
      case Ok((q, events)) => a.(queue := Some(q), shown := a.shown + Items(Stream(a), events))
  }

  function Stream(a: Agent): string
    requires a.world.session.Some?
  {
    a.world.session.value.record.stream
  }

  // The events made are the ids issued, one for one.
  ghost predicate Numbered(made: seq<Item>, issued: seq<(string, int)>) {
    |made| == |issued| && forall i :: 0 <= i < |made| ==> issued[i] == (made[i].0, made[i].1.id)
  }

  // The queue goes on where the session does and holds only events of its stream.
  ghost predicate QueueFits(q: Queue.Queue, s: Lineage.Session, made: seq<Item>) {
    && s.record.next == q.next
    && forall e :: e in q.events ==> (s.record.stream, e) in made
  }

  // Counters are at least one, as the reader of a record demands.
  predicate Counts(w: Lineage.World) {
    && SlotCounts(w.disk.primary) && SlotCounts(w.disk.anchor)
    && (w.session.Some? ==> w.session.value.record.next >= 1)
    && (w.session.Some? && w.session.value.pending.Some? ==> w.session.value.pending.value.next >= 1)
  }

  predicate SlotCounts(s: Lineage.Slot) {
    s.Good? ==> s.record.next >= 1
  }

  lemma StepKeepsCounts(w: Lineage.World, action: Lineage.Action)
    requires Lineage.Inv(w) && Lineage.Enabled(w, action) && Counts(w)
    ensures Counts(Lineage.Next(w, action))
  {
  }

  ghost predicate Inv(a: Agent) {
    && Lineage.Inv(a.world) && Counts(a.world)
    && (a.queue.Some? <==> a.world.session.Some?)
    && (a.queue.Some? ==> QueueFits(a.queue.value, a.world.session.value, a.made))
    && Numbered(a.made, a.world.issued)
    && forall x :: x in a.shown ==> x in a.made
  }

  lemma AppendedFrom(q: Queue.Queue, monitor: string, message: string)
    ensures var q' := Queue.Appended(q, monitor, message).0;
      && q'.next == q.next + 1
      && forall e :: e in q'.events ==> e in q.events || e == Queue.Event(q.next, monitor, message)
  {
  }

  lemma {:induction false} NewerFrom(events: seq<Queue.Event>, ack: int)
    ensures forall e :: e in Queue.Newer(events, ack) ==> e in events
  {
    if events != [] { NewerFrom(events[1..], ack); }
  }

  lemma StepKeepsInv(a: Agent, m: Move)
    requires Inv(a) && CanMove(a, m)
    ensures Inv(Step(a, m))
  {
    match m
    case Start(expected, maxSize) =>
      Lineage.StepKeepsInv(a.world, Lineage.Boot(expected));
      StepKeepsCounts(a.world, Lineage.Boot(expected));
    case Add(monitor, message) =>
      Lineage.StepKeepsInv(a.world, Lineage.Finish);
      StepKeepsCounts(a.world, Lineage.Finish);
      AppendedFrom(a.queue.value, monitor, message);
    case Store(action) =>
      Lineage.StepKeepsInv(a.world, action);
      StepKeepsCounts(a.world, action);
    case Fetch(ack) => if ack.Some? { NewerFrom(a.queue.value.events, ack.value); }
  }

  // A history: moves that cannot happen when their turn comes do nothing.
  function Run(a: Agent, moves: seq<Move>): Agent
    requires Inv(a)
    decreases |moves|
  {
    if moves == [] then a
    else if CanMove(a, moves[0]) then
      StepKeepsInv(a, moves[0]);
      Run(Step(a, moves[0]), moves[1..])
    else Run(a, moves[1..])
  }

  const EMPTY := Agent(Lineage.EMPTY, None, [], {})

  // Over any history of boots, failed and cut-off writes, crashes, damage and
  // repairs: an id of a stream names one event, in every queue and every payload
  // there has been, and it is an id the records issued.
  lemma {:induction false} IdNamesOneEvent(a: Agent, moves: seq<Move>)
    requires Inv(a)
    ensures var e := Run(a, moves);
      && Inv(e) && a.shown <= e.shown && a.made <= e.made
      && (forall x, y :: x in e.made && y in e.made && x.0 == y.0 && x.1.id == y.1.id ==> x == y)
      && (forall x :: x in e.shown || (e.queue.Some? && x.0 == Stream(e) && x.1 in e.queue.value.events) ==>
            x in e.made && (x.0, x.1.id) in e.world.issued)
    decreases |moves|
  {
    if moves == [] {
      OneEvent(a.made, a.world.issued);
    } else if CanMove(a, moves[0]) {
      StepKeepsInv(a, moves[0]);
      IdNamesOneEvent(Step(a, moves[0]), moves[1..]);
    } else {
      IdNamesOneEvent(a, moves[1..]);
    }
  }

  lemma RunTwo(a: Agent, m: Move, n: Move, rest: seq<Move>)
    requires Inv(a) && CanMove(a, m) && Inv(Step(a, m)) && CanMove(Step(a, m), n)
    ensures Inv(Step(Step(a, m), n)) && Run(a, [m, n] + rest) == Run(Step(Step(a, m), n), rest)
  {
    StepKeepsInv(Step(a, m), n);
    assert ([m, n] + rest)[1..] == [n] + rest;
    assert ([n] + rest)[1..] == rest;
  }

  lemma ReservationGoesOn(a: Agent)
    requires Inv(a) && a.queue.Some? && a.world.phase.Idle? && !a.world.damaged
    requires !a.world.session.value.closing && a.world.session.value.leased
    requires a.queue.value.next <= Lineage.MAX_EVENT_ID
    ensures var begin := Store(Lineage.Begin(a.queue.value.next + 1));
      && CanMove(a, begin) && Inv(Step(a, begin)) && Step(a, begin).world.phase.Checked?
      && Step(a, begin).queue == a.queue && Step(a, begin).made == a.made
  {
    var s, next := a.world.session.value, a.queue.value.next + 1;
    Lineage.ReservesExactly(s, a.world.disk, next);
    StepKeepsInv(a, Store(Lineage.Begin(next)));
  }

  // In an open session over an undamaged pair the reservation of the next id and
  // its two writes can be taken; then, and only then, the event joins the queue.
  lemma AnEventCanJoin(a: Agent, monitor: string, message: string)
    requires Inv(a) && a.queue.Some? && a.world.phase.Idle? && !a.world.damaged
    requires !a.world.session.value.closing && a.world.session.value.leased
    requires a.queue.value.next <= Lineage.MAX_EVENT_ID
    ensures !CanMove(a, Add(monitor, message))
    ensures var q := a.queue.value;
      var e := Run(a, [Store(Lineage.Begin(q.next + 1)), Store(Lineage.PutAnchor), Store(Lineage.PutPrimary),
                       Add(monitor, message)]);
      && e.made == a.made + [(Stream(a), Queue.Event(q.next, monitor, message))]
      && e.queue == Some(Queue.Appended(q, monitor, message).0)
  {
    var begin, anchor, primary := Store(Lineage.Begin(a.queue.value.next + 1)), Store(Lineage.PutAnchor),
      Store(Lineage.PutPrimary);
    var add := Add(monitor, message);
    ReservationGoesOn(a);
    RunTwo(a, begin, anchor, [primary, add]);
    assert [begin, anchor] + [primary, add] == [begin, anchor, primary, add];
    var a2 := Step(Step(a, begin), anchor);
    StepKeepsInv(a2, primary);
    RunTwo(a2, primary, add, []);
    assert [primary, add] + [] == [primary, add];
  }

  lemma OneEvent(made: seq<Item>, issued: seq<(string, int)>)
    requires Numbered(made, issued) && Lineage.NoRepeats(issued)
    ensures forall x, y :: x in made && y in made && x.0 == y.0 && x.1.id == y.1.id ==> x == y
    ensures forall x :: x in made ==> (x.0, x.1.id) in issued
  {
    forall x, y | x in made && y in made && x.0 == y.0 && x.1.id == y.1.id ensures x == y {
      var i :| 0 <= i < |made| && made[i] == x;
      var j :| 0 <= j < |made| && made[j] == y;
    }
    forall x | x in made ensures (x.0, x.1.id) in issued {
      var i :| 0 <= i < |made| && made[i] == x;
      assert issued[i] == (x.0, x.1.id);
    }
  }

  lemma EmptyIsInv()
    ensures Inv(EMPTY)
  {
    Lineage.EmptyIsInv();
  }
}
