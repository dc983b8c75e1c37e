// The read side of the task log: pages of matching rows, newest first, over day
// files merged with the rows in memory, with a cache of what old days hold.
module LogPages {
  import opened Wrappers

  datatype Row = Row(number: nat, task: string, severity: string, labels: seq<string>)

  datatype Key = Key(day: nat, number: nat)

  // A row with its day: what a page holds.
  datatype Entry = Entry(day: nat, row: Row)

  predicate Less(a: Key, b: Key) {
    a.day < b.day || (a.day == b.day && a.number < b.number)
  }

  function KeyOf(e: Entry): Key {
    Key(e.day, e.row.number)
  }

  // ----- what a query asks for ----------------------------------------------

  datatype Filter = Filter(task: Option<string>, severities: set<string>, text: string)

  predicate Contains(s: string, t: string) {
    t <= s || (s != [] && Contains(s[1..], t))
  }

  // Task, severity and text must all match; text is looked for in the labels.
  predicate Matches(r: Row, f: Filter) {
    && (f.task.Some? ==> r.task == f.task.value)
    && (f.severities != {} ==> r.severity in f.severities)
    && (f.text == "" || exists i :: 0 <= i < |r.labels| && Contains(r.labels[i], f.text))
  }

  // What a page may hold, in a reader's terms: the task asked for, one of the
  // severities asked for, and the text as a stretch of some label.
  ghost predicate AskedFor(r: Row, f: Filter) {
    && (f.task == None || f.task == Some(r.task))
    && (f.severities == {} || r.severity in f.severities)
    && (f.text == "" || exists i, k :: Stretch(r.labels, i, k, f.text))
  }

  ghost predicate Stretch(labels: seq<string>, i: int, k: int, text: string) {
    0 <= i < |labels| && 0 <= k <= |labels[i]| - |text| && labels[i][k..k + |text|] == text
  }

  lemma {:induction false} ContainsIsStretch(s: string, t: string)
    ensures Contains(s, t) <==> exists k :: Stretch([s], 0, k, t)
  {
    if t <= s {
      assert Stretch([s], 0, 0, t);
    } else if s != [] {
      ContainsIsStretch(s[1..], t);
      if Contains(s[1..], t) {
        var k :| Stretch([s[1..]], 0, k, t);
        assert s[k + 1..k + 1 + |t|] == s[1..][k..k + |t|];
        assert Stretch([s], 0, k + 1, t);
      } else if k :| Stretch([s], 0, k, t) {
        assert k > 0 && s[1..][k - 1..k - 1 + |t|] == s[k..k + |t|];
        assert Stretch([s[1..]], 0, k - 1, t);
      }
    }
  }

  lemma MatchesIsAskedFor(r: Row, f: Filter)
    ensures Matches(r, f) <==> AskedFor(r, f)
  {
    forall i | 0 <= i < |r.labels|
      ensures Contains(r.labels[i], f.text) <==> exists k :: Stretch(r.labels, i, k, f.text)
    {
      ContainsIsStretch(r.labels[i], f.text);
      assert forall k :: Stretch([r.labels[i]], 0, k, f.text) <==> Stretch(r.labels, i, k, f.text);
    }
  }

  function Matcher(f: Filter): Row -> bool {
    (r: Row) => Matches(r, f)
  }

  predicate Wanted(e: Entry, m: Row -> bool, before: Option<Key>) {
    m(e.row) && (before.Some? ==> Less(KeyOf(e), before.value))
  }

  function Select(es: seq<Entry>, m: Row -> bool, before: Option<Key>): seq<Entry> {
    if es == [] then []
    else (if Wanted(es[0], m, before) then [es[0]] else []) + Select(es[1..], m, before)
  }

  // ----- the rows of one day ------------------------------------------------

  predicate Ascending(rows: seq<Row>) {
    forall i, j :: 0 <= i < j < |rows| ==> rows[i].number < rows[j].number
  }

  predicate Holds(rows: seq<Row>, number: nat) {
    exists i :: 0 <= i < |rows| && rows[i].number == number
  }

  // The rows of a day file updated with the rows in memory, in order.
  function Merge(disk: seq<Row>, memory: seq<Row>): seq<Row> {
    if disk == [] then memory
    else if memory == [] then disk
    else if disk[0].number < memory[0].number then [disk[0]] + Merge(disk[1..], memory)
    else if memory[0].number < disk[0].number then [memory[0]] + Merge(disk, memory[1..])
    else [memory[0]] + Merge(disk[1..], memory[1..])
  }

  lemma {:induction false} MergeMembers(disk: seq<Row>, memory: seq<Row>)
    ensures forall r :: r in Merge(disk, memory) ==> r in disk || r in memory
    ensures forall r :: r in memory ==> r in Merge(disk, memory)
    ensures forall r :: r in disk && !Holds(memory, r.number) ==> r in Merge(disk, memory)
    decreases |disk| + |memory|
  {
    if disk != [] && memory != [] {
      var d', m' := disk[1..], memory[1..];
      assert disk == [disk[0]] + d' && memory == [memory[0]] + m';
      HoldsTail(memory);
      if disk[0].number < memory[0].number { MergeMembers(d', memory); }
      else if memory[0].number < disk[0].number { MergeMembers(disk, m'); }
      else { MergeMembers(d', m'); }
    }
  }

  lemma {:induction false} MergeAscends(disk: seq<Row>, memory: seq<Row>)
    requires Ascending(disk) && Ascending(memory)
    ensures Ascending(Merge(disk, memory))
    decreases |disk| + |memory|
  {
    if disk != [] && memory != [] {
      var d', m' := disk[1..], memory[1..];
      if disk[0].number < memory[0].number {
        MergeAscends(d', memory);
        HeadFirst(disk, memory);
        Consed(disk[0], d', memory);
      } else {
        var rest := if memory[0].number < disk[0].number then disk else d';
        MergeAscends(rest, m');
        HeadFirst(memory, rest);
        Consed(memory[0], rest, m');
      }
    }
  }

  lemma Consed(r: Row, a: seq<Row>, b: seq<Row>)
    requires Ascending(Merge(a, b))
    requires forall q :: q in a || q in b ==> r.number < q.number
    ensures Ascending([r] + Merge(a, b))
  {
    MergeMembers(a, b);
    var all := [r] + Merge(a, b);
    forall j | 0 < j < |all| ensures r.number < all[j].number { assert all[j] in Merge(a, b); }
  }

  lemma HoldsTail(rows: seq<Row>)
    requires rows != []
    ensures forall n: nat :: Holds(rows[1..], n) ==> Holds(rows, n)
  {
    forall n: nat | Holds(rows[1..], n) ensures Holds(rows, n) {
      var i :| 0 <= i < |rows[1..]| && rows[1..][i].number == n;
      assert rows[i + 1].number == n;
    }
  }

  // The least of two ascending sequences is below everything else in them.
  lemma HeadFirst(a: seq<Row>, b: seq<Row>)
    requires a != [] && Ascending(a) && Ascending(b)
    requires b == [] || a[0].number < b[0].number
    ensures forall r :: r in a[1..] || r in b ==> a[0].number < r.number
  {
    forall r | r in a[1..] || r in b ensures a[0].number < r.number {
      if r in a[1..] {
        var i :| 0 <= i < |a[1..]| && a[1..][i] == r;
        assert a[i + 1] == r;
      }
    }
  }

  // A day file that already holds every row of the memory is the whole day.
  lemma {:induction false} MergeOfSubset(disk: seq<Row>, memory: seq<Row>)
    requires Ascending(disk) && Ascending(memory)
    requires forall r :: r in memory ==> r in disk
    ensures Merge(disk, memory) == disk
    decreases |disk|
  {
    if memory != [] {
      assert memory[0] in disk;
      var d', m' := disk[1..], memory[1..];
      assert disk == [disk[0]] + d';
      HeadFirst(disk, []);
      HeadFirst(memory, []);
      if disk[0].number < memory[0].number {
        InTail(disk, memory);
        MergeOfSubset(d', memory);
      } else {
        assert memory[0] == disk[0];
        InTail(disk, m');
        MergeOfSubset(d', m');
      }
    }
  }

  lemma InTail(disk: seq<Row>, rows: seq<Row>)
    requires disk != [] && forall r :: r in rows ==> r in disk && r.number != disk[0].number
    ensures forall r :: r in rows ==> r in disk[1..]
  {
    assert disk == [disk[0]] + disk[1..];
  }

  // ----- pages --------------------------------------------------------------

  ghost predicate Descending(es: seq<Entry>) {
    forall i, j :: 0 <= i < j < |es| ==> Less(KeyOf(es[j]), KeyOf(es[i]))
  }

  function Min(x: nat, y: nat): nat {
    if x < y then x else y
  }

  // The first rows wanted, and the key to go on below when there are more.
  function Page(es: seq<Entry>, m: Row -> bool, before: Option<Key>, limit: nat): (seq<Entry>, Option<Key>)
    requires limit > 0
  {
    var found := Select(es, m, before);
    (found[..Min(limit, |found|)], if |found| > limit then Some(KeyOf(found[limit - 1])) else None)
  }

  // Below a row that is below the old bound, the old bound no longer matters.
  lemma {:induction false} SelectBelow(es: seq<Entry>, m: Row -> bool, before: Option<Key>, key: Key)
    requires forall e :: e in es ==> Less(KeyOf(e), key)
    requires before.Some? ==> Less(key, before.value)
    ensures Select(es, m, Some(key)) == Select(es, m, before)
  {
    if es != [] {
      assert es[0] in es;
      SelectBelow(es[1..], m, before, key);
    }
  }

  lemma {:induction false} SelectMembers(es: seq<Entry>, m: Row -> bool, before: Option<Key>)
    ensures forall e :: e in Select(es, m, before) <==> e in es && Wanted(e, m, before)
    ensures Descending(es) ==> Descending(Select(es, m, before))
  {
    if es != [] {
      SelectMembers(es[1..], m, before);
      assert forall e :: e in es <==> e == es[0] || e in es[1..];
      if Descending(es) {
        TailBelow(es);
        assert Descending(es[1..]);
      }
    }
  }

  lemma TailBelow(es: seq<Entry>)
    requires Descending(es) && es != []
    ensures forall e :: e in es[1..] ==> Less(KeyOf(e), KeyOf(es[0]))
  {
    forall e | e in es[1..] ensures Less(KeyOf(e), KeyOf(es[0])) {
      var i :| 0 <= i < |es[1..]| && es[1..][i] == e;
      assert es[i + 1] == e;
    }
  }

  // Going on below the k-th row found leaves exactly the rows after it.
  lemma {:induction false} SelectAfter(es: seq<Entry>, m: Row -> bool, before: Option<Key>, k: nat)
    requires Descending(es) && k < |Select(es, m, before)|
    ensures Select(es, m, Some(KeyOf(Select(es, m, before)[k]))) == Select(es, m, before)[k + 1..]
    decreases |es|
  {
    var found, rest := Select(es, m, before), Select(es[1..], m, before);
    var key := KeyOf(found[k]);
    TailBelow(es);
    if Wanted(es[0], m, before) && k == 0 {
      SelectBelow(es[1..], m, before, key);
      assert found[1..] == rest;
    } else {
      var k' := if Wanted(es[0], m, before) then k - 1 else k;
      assert found[k] == rest[k'] && found[k + 1..] == rest[k' + 1..];
      SelectMembers(es[1..], m, before);
      assert rest[k'] in rest;
      assert !Wanted(es[0], m, Some(key));
      SelectAfter(es[1..], m, before, k');
    }
  }

  // Every page from `before` on, by following the key each page returns.
  function Pages(es: seq<Entry>, m: Row -> bool, before: Option<Key>, limit: nat): seq<seq<Entry>>
    requires limit > 0 && Descending(es)
    decreases |Select(es, m, before)|
  {
    var (entries, next) := Page(es, m, before, limit);
    if next.None? then [entries]
    else
      SelectAfter(es, m, before, limit - 1);
      [entries] + Pages(es, m, next, limit)
  }

  function Concat(pages: seq<seq<Entry>>): seq<Entry> {
    if pages == [] then [] else pages[0] + Concat(pages[1..])
  }

  // A page that is not the last, then everything from where it says to go on.
  lemma PageThenRest(es: seq<Entry>, m: Row -> bool, before: Option<Key>, limit: nat)
    requires limit > 0 && Descending(es) && Page(es, m, before, limit).1.Some?
    ensures var (entries, next) := Page(es, m, before, limit);
      entries != [] && entries + Select(es, m, next) == Select(es, m, before)
  {
    var found := Select(es, m, before);
    SelectAfter(es, m, before, limit - 1);
    TakeDrop(found, limit);
  }

  lemma TakeDrop(es: seq<Entry>, k: nat)
    requires k <= |es|
    ensures es[..k] + es[k..] == es
  {
  }

  lemma Associates(a: seq<Entry>, b: seq<Entry>, c: seq<Entry>)
    ensures (a + b) + c == a + (b + c)
  {
  }

  lemma ConcatCons(page: seq<Entry>, pages: seq<seq<Entry>>)
    ensures Concat([page] + pages) == page + Concat(pages)
  {
    assert ([page] + pages)[1..] == pages;
  }

  lemma {:induction false} PagesConcat(es: seq<Entry>, m: Row -> bool, before: Option<Key>, limit: nat)
    requires limit > 0 && Descending(es)
    ensures Concat(Pages(es, m, before, limit)) == Select(es, m, before)
    decreases |Select(es, m, before)|
  {
    var (entries, next) := Page(es, m, before, limit);
    if next.None? {
      ConcatCons(entries, []);
    } else {
      PageThenRest(es, m, before, limit);
      PagesConcat(es, m, next, limit);
      ConcatCons(entries, Pages(es, m, next, limit));
    }
  }

  // Following the pages yields exactly the rows wanted, each once, newest first,
  // at any page size.
  lemma PagesCoverTheList(es: seq<Entry>, m: Row -> bool, before: Option<Key>, limit: nat)
    requires limit > 0 && Descending(es)
    ensures Concat(Pages(es, m, before, limit)) == Select(es, m, before)
    ensures Descending(Concat(Pages(es, m, before, limit)))
    ensures forall e :: e in Concat(Pages(es, m, before, limit)) <==> e in es && Wanted(e, m, before)
  {
    PagesConcat(es, m, before, limit);
    SelectMembers(es, m, before);
  }

  // ----- the store ----------------------------------------------------------

  // One day as a newest-first list of entries.
  function Backwards(day: nat, rows: seq<Row>): seq<Entry> {
    if rows == [] then [] else [Entry(day, rows[|rows| - 1])] + Backwards(day, rows[..|rows| - 1])
  }

  lemma {:induction false} BackwardsDescends(day: nat, rows: seq<Row>)
    requires Ascending(rows)
    ensures Descending(Backwards(day, rows))
    ensures forall e :: e in Backwards(day, rows) <==> e.day == day && e.row in rows
  {
    if rows != [] {
      var last := rows[|rows| - 1];
      BackwardsDescends(day, rows[..|rows| - 1]);
      assert forall r :: r in rows <==> r == last || r in rows[..|rows| - 1];
    }
  }

  datatype Day = Day(day: nat, rows: seq<Row>)

  // Several days, newest first.
  function Listing(days: seq<Day>): seq<Entry> {
    if days == [] then [] else Backwards(days[0].day, days[0].rows) + Listing(days[1..])
  }

  ghost predicate NewestFirst(days: seq<Day>) {
    && (forall i :: 0 <= i < |days| ==> Ascending(days[i].rows))
    && (forall i, j :: 0 <= i < j < |days| ==> days[i].day > days[j].day)
  }

  ghost predicate OnDay(days: seq<Day>, i: nat, e: Entry)
    requires i < |days|
  {
    e.day == days[i].day && e.row in days[i].rows
  }

  ghost predicate Listed(days: seq<Day>, e: Entry) {
    exists i :: 0 <= i < |days| && OnDay(days, i, e)
  }

  lemma ListedTail(days: seq<Day>, e: Entry)
    requires days != []
    ensures Listed(days, e) <==> OnDay(days, 0, e) || Listed(days[1..], e)
  {
    if Listed(days[1..], e) {
      var i :| 0 <= i < |days[1..]| && OnDay(days[1..], i, e);
      assert OnDay(days, i + 1, e);
    }
    if Listed(days, e) && !OnDay(days, 0, e) {
      var i :| 0 <= i < |days| && OnDay(days, i, e);
      assert OnDay(days[1..], i - 1, e);
    }
  }

  lemma {:induction false} ListingMembers(days: seq<Day>)
    requires NewestFirst(days)
    ensures forall e :: e in Listing(days) <==> Listed(days, e)
  {
    if days != [] {
      ListingMembers(days[1..]);
      BackwardsDescends(days[0].day, days[0].rows);
      forall e ensures e in Listing(days) <==> Listed(days, e) { ListedTail(days, e); }
    }
  }

  lemma {:induction false} ListingDescends(days: seq<Day>)
    requires NewestFirst(days)
    ensures Descending(Listing(days))
  {
    if days != [] {
      var head, rest := Backwards(days[0].day, days[0].rows), Listing(days[1..]);
      ListingDescends(days[1..]);
      ListingMembers(days[1..]);
      BackwardsDescends(days[0].day, days[0].rows);
      forall e | e in rest ensures e.day < days[0].day {
        var i :| 0 <= i < |days[1..]| && OnDay(days[1..], i, e);
        assert days[1..][i] == days[i + 1];
      }
      forall i, j | 0 <= i < |head| && 0 <= j < |rest| ensures Less(KeyOf(rest[j]), KeyOf(head[i])) {
        assert rest[j] in rest && head[i] in head;
      }
      assert Listing(days) == head + rest;
    }
  }

  // ----- days held, and which of them a query reads -------------------------

  const DAYS_ACROSS := 30
  const RING_SIZE := 2000
  const MAX_PAGE := 500

  ghost predicate IsLatest(s: set<nat>, m: nat) {
    m in s && forall x :: x in s ==> x <= m
  }

  lemma {:induction false} LatestExists(s: set<nat>)
    requires s != {}
    ensures exists m :: IsLatest(s, m)
  {
    var d :| d in s;
    var rest := s - {d};
    if rest == {} {
      assert s == {d};
      assert IsLatest(s, d);
    } else {
      LatestExists(rest);
      var m :| IsLatest(rest, m);
      assert forall x :: x in s ==> x == d || x in rest;
      assert IsLatest(s, if d < m then m else d);
    }
  }

  // A set of days as a list, newest first.
  ghost function DaysOf(s: set<nat>): seq<nat> {
    if s == {} then []
    else
      LatestExists(s);
      var m :| IsLatest(s, m);
      [m] + DaysOf(s - {m})
  }

  ghost predicate Falling(days: seq<nat>) {
    forall i, j :: 0 <= i < j < |days| ==> days[i] > days[j]
  }

  lemma {:induction false} DaysOfFalls(s: set<nat>)
    ensures forall d :: d in DaysOf(s) <==> d in s
    ensures Falling(DaysOf(s))
  {
    if s != {} {
      LatestExists(s);
      var m := DaysOf(s)[0];
      var rest := DaysOf(s - {m});
      assert DaysOf(s) == [m] + rest;
      DaysOfFalls(s - {m});
      HeadedFalls(m, rest);
    }
  }

  lemma HeadedFalls(m: nat, rest: seq<nat>)
    requires Falling(rest) && forall d :: d in rest ==> d < m
    ensures Falling([m] + rest)
  {
    forall j | 0 < j <= |rest| ensures m > ([m] + rest)[j] { assert rest[j - 1] in rest; }
  }

  // The days in order, found by taking the latest of those left.
  method SortDays(s: set<nat>) returns (days: seq<nat>)
    ensures days == DaysOf(s)
  {
    days := [];
    var left := s;
    while left != {}
      invariant days + DaysOf(left) == DaysOf(s)
      decreases |left|
    {
      var m := LatestOf(left);
      LatestExists(left);
      assert DaysOf(left) == [m] + DaysOf(left - {m});
      assert days + ([m] + DaysOf(left - {m})) == (days + [m]) + DaysOf(left - {m});
      days, left := days + [m], left - {m};
    }
    assert days + [] == days;
  }

  method LatestOf(s: set<nat>) returns (m: nat)
    requires s != {}
    ensures IsLatest(s, m)
  {
    m :| m in s;
    var left := s - {m};
    while left != {}
      invariant m in s && left <= s
      invariant forall x :: x in s ==> x in left || x <= m
      decreases |left|
    {
      var d :| d in left;
      if m < d { m := d; }
      left := left - {d};
    }
  }

  // One day when asked for, the newest days for one task, otherwise today.
  function Selected(day: Option<nat>, task: Option<string>, available: seq<nat>, today: nat): (days: seq<nat>)
    ensures Falling(available) ==> Falling(days)
  {
    if day.Some? then [day.value]
    else if task.Some? then available[..Min(DAYS_ACROSS, |available|)]
    else [today]
  }

  // ----- what is held for a day ---------------------------------------------

  type Files = map<nat, seq<Row>>

  function OnDisk(disk: Files, day: nat): seq<Row> {
    if day in disk then disk[day] else []
  }

  // A read that fails part way yields the rows before the failure.
  function AsRead(disk: Files, cut: map<nat, nat>, day: nat): seq<Row> {
    var rows := OnDisk(disk, day);
    if day in cut then rows[..Min(cut[day], |rows|)] else rows
  }

  function Memory(ring: seq<Entry>, day: nat): seq<Row> {
    if ring == [] then []
    else (if ring[0].day == day then [ring[0].row] else []) + Memory(ring[1..], day)
  }

  function View(disk: Files, cut: map<nat, nat>, ring: seq<Entry>, day: nat): seq<Row> {
    Merge(AsRead(disk, cut, day), Memory(ring, day))
  }

  predicate InMemoryOrder(ring: seq<Entry>) {
    forall i, j :: 0 <= i < j < |ring| ==> Less(KeyOf(ring[i]), KeyOf(ring[j]))
  }

  // A row that is both on disk and in memory is one row.
  ghost predicate Agree(rows: seq<Row>, memory: seq<Row>) {
    forall r, q :: r in memory && q in rows && r.number == q.number ==> r == q
  }

  ghost predicate Sound(disk: Files, ring: seq<Entry>) {
    && InMemoryOrder(ring)
    && |ring| <= 2000
    && (forall d :: d in disk ==> Ascending(disk[d]))
    && (forall d: nat :: Agree(OnDisk(disk, d), Memory(ring, d)))
  }

  lemma {:induction false} MemoryHolds(ring: seq<Entry>, day: nat)
    ensures forall r :: r in Memory(ring, day) <==> Entry(day, r) in ring
    ensures InMemoryOrder(ring) ==> Ascending(Memory(ring, day))
  {
    if ring != [] {
      var rest := ring[1..];
      MemoryHolds(rest, day);
      assert forall e :: e in ring <==> e == ring[0] || e in rest;
      if InMemoryOrder(ring) {
        assert InMemoryOrder(rest);
        forall r | r in Memory(rest, day) && ring[0].day == day ensures ring[0].row.number < r.number {
          var i :| 0 <= i < |rest| && rest[i] == Entry(day, r);
          assert ring[i + 1] == Entry(day, r);
        }
      }
    }
  }

  // Whatever was read of a day, what is shown is in order and loses no row read
  // and no row in memory.
  lemma ViewShows(disk: Files, cut: map<nat, nat>, ring: seq<Entry>, day: nat)
    requires Sound(disk, ring)
    ensures Ascending(View(disk, cut, ring, day))
    ensures forall r :: r in View(disk, cut, ring, day) <==> r in AsRead(disk, cut, day) || Entry(day, r) in ring
  {
    var rows, memory := AsRead(disk, cut, day), Memory(ring, day);
    MemoryHolds(ring, day);
    assert Ascending(rows) && forall r :: r in rows ==> r in OnDisk(disk, day);
    MergeMembers(rows, memory);
    MergeAscends(rows, memory);
    forall r | r in rows ensures r in Merge(rows, memory) {
      if Holds(memory, r.number) {
        var i :| 0 <= i < |memory| && memory[i].number == r.number;
        assert Agree(OnDisk(disk, day), memory);
        assert memory[i] in memory && memory[i] == r;
      }
    }
  }

  // The days with a file or with rows in memory.
  function Held(disk: Files, ring: seq<Entry>): set<nat> {
    disk.Keys + set e | e in ring :: e.day
  }

  lemma HeldDays(disk: Files, ring: seq<Entry>, day: nat)
    ensures day in Held(disk, ring) <==> day in disk || Memory(ring, day) != []
  {
    MemoryHolds(ring, day);
    if Memory(ring, day) != [] { assert Entry(day, Memory(ring, day)[0]) in ring; }
    if day in Held(disk, ring) && day !in disk {
      var e :| e in ring && e.day == day;
      assert Entry(day, e.row) in ring && e.row in Memory(ring, day);
    }
  }

  // A day asked for is the only one; for one task the newest days held, and only
  // older ones are left out once there are too many; otherwise today.
  lemma SelectedAreNewest(day: Option<nat>, task: Option<string>, held: set<nat>, today: nat)
    ensures var days := Selected(day, task, DaysOf(held), today);
      && Falling(days)
      && (day.Some? ==> days == [day.value])
      && (day.None? && task.None? ==> days == [today])
      && (day.None? && task.Some? ==>
            && (forall d :: d in days ==> d in held)
            && (forall d :: d in held && d !in days ==> |days| == 30 && forall s :: s in days ==> d < s))
  {
    DaysOfFalls(held);
    var all, days := DaysOf(held), Selected(day, task, DaysOf(held), today);
    if day.None? && task.Some? {
      forall d | d in held && d !in days ensures |days| == 30 && forall s :: s in days ==> d < s {
        var i :| 0 <= i < |all| && all[i] == d;
        assert i >= |days|;
        forall s | s in days ensures d < s {
          var j :| 0 <= j < |days| && days[j] == s;
          assert all[j] == s;
        }
      }
    }
  }

  // ----- the cache of day summaries -----------------------------------------

  datatype Summary = Summary(count: nat, tasks: set<string>)

  function SummaryOf(rows: seq<Row>): Summary {
    Summary(|rows|, set r | r in rows :: r.task)
  }

  predicate CoveredBy(memory: seq<Row>, rows: seq<Row>) {
    forall i :: 0 <= i < |memory| ==> Holds(rows, memory[i].number)
  }

  // A day may be summed up once newer rows exist and nothing of it is in memory
  // alone.
  predicate Cacheable(folder: bool, latest: nat, rows: seq<Row>, memory: seq<Row>, day: nat) {
    day < latest && folder && CoveredBy(memory, rows)
  }

  lemma CacheableMeans(folder: bool, latest: nat, rows: seq<Row>, memory: seq<Row>, day: nat)
    ensures Cacheable(folder, latest, rows, memory, day) <==>
      && folder && day + 1 <= latest
      && forall r :: r in memory ==> exists q :: q in rows && q.number == r.number
  {
    forall i | 0 <= i < |memory| && Cacheable(folder, latest, rows, memory, day)
      ensures exists q :: q in rows && q.number == memory[i].number
    {
      var k :| 0 <= k < |rows| && rows[k].number == memory[i].number;
      assert rows[k] in rows;
    }
    forall i | 0 <= i < |memory| && exists q :: q in rows && q.number == memory[i].number
      ensures Holds(rows, memory[i].number)
    {
      var q :| q in rows && q.number == memory[i].number;
      var k :| 0 <= k < |rows| && rows[k] == q;
    }
  }

  type Cache = map<nat, Summary>

  // Every cached summary is that of its whole day.
  ghost predicate Exact(disk: Files, ring: seq<Entry>, cache: Cache) {
    forall d :: d in cache ==>
      CoveredBy(Memory(ring, d), OnDisk(disk, d)) && cache[d] == SummaryOf(OnDisk(disk, d))
  }

  ghost predicate Whole(disk: Files, cut: map<nat, nat>, day: nat) {
    AsRead(disk, cut, day) == OnDisk(disk, day)
  }

  lemma CoveredIsMerged(rows: seq<Row>, memory: seq<Row>)
    requires Ascending(rows) && Ascending(memory) && Agree(rows, memory) && CoveredBy(memory, rows)
    ensures Merge(rows, memory) == rows
  {
    forall r | r in memory ensures r in rows {
      var i :| 0 <= i < |memory| && memory[i] == r;
      var j :| 0 <= j < |rows| && rows[j].number == memory[i].number;
      assert rows[j] in rows;
    }
    MergeOfSubset(rows, memory);
  }

  // A cached summary is what the day shows.
  lemma CachedIsShown(disk: Files, ring: seq<Entry>, cache: Cache, day: nat)
    requires Sound(disk, ring) && Exact(disk, ring, cache) && day in cache
    ensures cache[day] == SummaryOf(View(disk, map[], ring, day))
  {
    MemoryHolds(ring, day);
    CoveredIsMerged(OnDisk(disk, day), Memory(ring, day));
  }

  // What is cached after a read is right exactly when the read was whole.
  lemma CachedRightWhenWhole(disk: Files, cut: map<nat, nat>, ring: seq<Entry>, cache: Cache,
                             folder: bool, latest: nat, day: nat)
    requires Sound(disk, ring) && Exact(disk, ring, cache)
    requires Cacheable(folder, latest, AsRead(disk, cut, day), Memory(ring, day), day)
    ensures Exact(disk, ring, cache[day := SummaryOf(AsRead(disk, cut, day))]) <==> Whole(disk, cut, day)
  {
    var rows, stored, memory := AsRead(disk, cut, day), OnDisk(disk, day), Memory(ring, day);
    var cache' := cache[day := SummaryOf(rows)];
    if rows == stored {
      assert CoveredBy(memory, stored) && cache'[day] == SummaryOf(stored);
    } else {
      assert |rows| < |stored|;
      assert cache'[day].count != SummaryOf(stored).count;
    }
  }

  lemma PushedMembers(ring: seq<Entry>, e: Entry, day: nat)
    ensures forall r :: r in Memory(Pushed(ring, e), day) ==> r in Memory(ring, day) || Entry(day, r) == e
  {
    MemoryHolds(ring, day);
    MemoryHolds(Pushed(ring, e), day);
    assert forall x :: x in Pushed(ring, e) ==> x in ring || x == e;
  }

  lemma WriteAgrees(disk: Files, ring: seq<Entry>, e: Entry, saved: bool, day: nat)
    requires Agree(OnDisk(disk, day), Memory(ring, day)) && Newest(disk, ring, e)
    ensures Agree(OnDisk(Saved(disk, e, saved), day), Memory(Pushed(ring, e), day))
  {
    var rows, memory := OnDisk(Saved(disk, e, saved), day), Memory(Pushed(ring, e), day);
    PushedMembers(ring, e, day);
    MemoryHolds(ring, day);
    assert forall q :: q in rows ==> q in OnDisk(disk, day) || Entry(day, q) == e;
    forall r | r in Memory(ring, day) ensures Less(Key(day, r.number), KeyOf(e)) {
      var i :| 0 <= i < |ring| && ring[i] == Entry(day, r);
    }
    forall r, q | r in memory && q in rows && r.number == q.number ensures r == q {}
  }

  lemma WriteKeepsSound(disk: Files, ring: seq<Entry>, e: Entry, saved: bool)
    requires Sound(disk, ring) && Newest(disk, ring, e)
    ensures Sound(Saved(disk, e, saved), Pushed(ring, e))
  {
    var disk' := Saved(disk, e, saved);
    forall d: nat ensures Agree(OnDisk(disk', d), Memory(Pushed(ring, e), d)) {
      WriteAgrees(disk, ring, e, saved, d);
    }
    forall d | d in disk' ensures Ascending(disk'[d]) {
      if saved && d == e.day {
        var rows := OnDisk(disk, d);
        assert Ascending(rows);
        forall i | 0 <= i < |rows| ensures rows[i].number < e.row.number { assert rows[i] in rows; }
      }
    }
  }

  // Writing today's next row keeps every summary that is left right, even when
  // the row pushes another out of memory.
  lemma WriteKeepsExact(disk: Files, ring: seq<Entry>, cache: Cache, e: Entry, saved: bool)
    requires Sound(disk, ring) && Exact(disk, ring, cache) && Newest(disk, ring, e)
    ensures Sound(Saved(disk, e, saved), Pushed(ring, e))
    ensures Exact(Saved(disk, e, saved), Pushed(ring, e), cache - {e.day})
  {
    WriteKeepsSound(disk, ring, e, saved);
    forall d | d in cache && d != e.day
      ensures CoveredBy(Memory(Pushed(ring, e), d), OnDisk(disk, d))
    {
      var memory := Memory(Pushed(ring, e), d);
      PushedMembers(ring, e, d);
      forall i | 0 <= i < |memory| ensures Holds(OnDisk(disk, d), memory[i].number) {
        assert memory[i] in memory && memory[i] in Memory(ring, d);
      }
    }
  }

  lemma WriteKeepsAll(disk: Files, ring: seq<Entry>, cache: Cache, e: Entry, saved: bool)
    requires Sound(disk, ring) && Newest(disk, ring, e)
    ensures Sound(Saved(disk, e, saved), Pushed(ring, e))
    ensures Exact(disk, ring, cache) ==> Exact(Saved(disk, e, saved), Pushed(ring, e), cache - {e.day})
  {
    WriteKeepsSound(disk, ring, e, saved);
    if Exact(disk, ring, cache) { WriteKeepsExact(disk, ring, cache, e, saved); }
  }

  // A row above everything in memory and on disk for its day.
  ghost predicate Newest(disk: Files, ring: seq<Entry>, e: Entry) {
    && (forall i :: 0 <= i < |ring| ==> Less(KeyOf(ring[i]), KeyOf(e)))
    && (forall r :: r in OnDisk(disk, e.day) ==> r.number < e.row.number)
  }

  function Saved(disk: Files, e: Entry, saved: bool): Files {
    if saved then disk[e.day := OnDisk(disk, e.day) + [e.row]] else disk
  }

  // The memory is a bounded queue: a full one drops its oldest row.
  function Pushed(ring: seq<Entry>, e: Entry): seq<Entry> {
    (if |ring| < RING_SIZE then ring else ring[1..]) + [e]
  }

  // A write shows its row, on disk or not, and loses none but the oldest of a full
  // memory when that is not on disk.
  lemma WriteShows(disk: Files, ring: seq<Entry>, e: Entry, saved: bool, day: nat, r: Row)
    requires Sound(disk, ring) && Newest(disk, ring, e)
    ensures var (before, after) :=
      (View(disk, map[], ring, day), View(Saved(disk, e, saved), map[], Pushed(ring, e), day));
      && (r in after ==> r in before || Entry(day, r) == e)
      && (Entry(day, r) == e ==> r in after)
      && (r in before && r !in after ==> |ring| == 2000 && ring[0] == Entry(day, r) && r !in OnDisk(disk, day))
    ensures OnDisk(Saved(disk, e, saved), day) ==
      OnDisk(disk, day) + (if saved && day == e.day then [e.row] else [])
  {
    WriteKeepsSound(disk, ring, e, saved);
    ViewShows(disk, map[], ring, day);
    ViewShows(Saved(disk, e, saved), map[], Pushed(ring, e), day);
    PushedHolds(ring, e, Entry(day, r));
    assert OnDisk(disk, day) + [] == OnDisk(disk, day);
  }

  lemma PushedHolds(ring: seq<Entry>, e: Entry, x: Entry)
    requires |ring| <= 2000
    ensures e in Pushed(ring, e) && (x in Pushed(ring, e) ==> x in ring || x == e)
    ensures x in ring && x !in Pushed(ring, e) ==> |ring| == 2000 && x == ring[0]
  {
    if |ring| == 2000 { assert ring == [ring[0]] + ring[1..]; }
  }

  // ----- a query over several days ------------------------------------------

  predicate Skipped(cache: Cache, task: Option<string>, day: nat) {
    task.Some? && day in cache && task.value !in cache[day].tasks
  }

  // The rows a query looks at on one day: none when it skips the day.
  function SeenRows(disk: Files, cut: map<nat, nat>, ring: seq<Entry>, cache: Cache, task: Option<string>, day: nat)
    : seq<Row>
  {
    if Skipped(cache, task, day) then [] else View(disk, cut, ring, day)
  }

  function Seen(disk: Files, cut: map<nat, nat>, ring: seq<Entry>, cache: Cache, task: Option<string>, days: seq<nat>)
    : (r: seq<Day>)
    ensures |r| == |days|
  {
    seq(|days|, i requires 0 <= i < |days| => Day(days[i], SeenRows(disk, cut, ring, cache, task, days[i])))
  }

  lemma {:induction false} NothingSelected(es: seq<Entry>, m: Row -> bool, before: Option<Key>)
    requires forall e :: e in es ==> !Wanted(e, m, before)
    ensures Select(es, m, before) == []
  {
    if es != [] {
      assert es[0] in es;
      NothingSelected(es[1..], m, before);
    }
  }

  lemma {:induction false} SelectAppend(a: seq<Entry>, b: seq<Entry>, m: Row -> bool, before: Option<Key>)
    ensures Select(a + b, m, before) == Select(a, m, before) + Select(b, m, before)
  {
    if a == [] {
      assert a + b == b;
    } else {
      assert (a + b)[1..] == a[1..] + b;
      SelectAppend(a[1..], b, m, before);
      Associates(if Wanted(a[0], m, before) then [a[0]] else [], Select(a[1..], m, before), Select(b, m, before));
    }
  }

  lemma SkippedDayHasNothing(disk: Files, ring: seq<Entry>, cache: Cache, f: Filter, before: Option<Key>, day: nat)
    requires Sound(disk, ring) && Exact(disk, ring, cache) && Skipped(cache, f.task, day)
    ensures Select(Backwards(day, View(disk, map[], ring, day)), Matcher(f), before) == []
  {
    var rows := View(disk, map[], ring, day);
    CachedIsShown(disk, ring, cache, day);
    ViewShows(disk, map[], ring, day);
    BackwardsDescends(day, rows);
    forall e | e in Backwards(day, rows) ensures !Wanted(e, Matcher(f), before) {
      assert e.row.task in SummaryOf(rows).tasks;
    }
    NothingSelected(Backwards(day, rows), Matcher(f), before);
  }

  lemma SeenTail(disk: Files, cut: map<nat, nat>, ring: seq<Entry>, cache: Cache, f: Filter, before: Option<Key>,
                 days: seq<nat>)
    requires days != []
    ensures Select(Listing(Seen(disk, cut, ring, cache, f.task, days)), Matcher(f), before)
      == Select(Backwards(days[0], SeenRows(disk, cut, ring, cache, f.task, days[0])), Matcher(f), before)
         + Select(Listing(Seen(disk, cut, ring, cache, f.task, days[1..])), Matcher(f), before)
  {
    var seen := Seen(disk, cut, ring, cache, f.task, days);
    assert seen[1..] == Seen(disk, cut, ring, cache, f.task, days[1..]);
    SelectAppend(Backwards(seen[0].day, seen[0].rows), Listing(seen[1..]), Matcher(f), before);
  }

  // Skipping a day whose cached tasks lack the one asked for never drops a match.
  lemma {:induction false} SkippingLosesNothing(disk: Files, ring: seq<Entry>, cache: Cache, f: Filter,
                                                before: Option<Key>, days: seq<nat>)
    requires Sound(disk, ring) && Exact(disk, ring, cache)
    ensures Select(Listing(Seen(disk, map[], ring, cache, f.task, days)), Matcher(f), before)
         == Select(Listing(Seen(disk, map[], ring, map[], f.task, days)), Matcher(f), before)
  {
    if days != [] {
      SkippingLosesNothing(disk, ring, cache, f, before, days[1..]);
      SeenTail(disk, map[], ring, cache, f, before, days);
      SeenTail(disk, map[], ring, map[], f, before, days);
      if Skipped(cache, f.task, days[0]) {
        SkippedDayHasNothing(disk, ring, cache, f, before, days[0]);
      }
    }
  }

  // A read that fails on an old day is remembered as the whole day: the next
  // query for its task skips it although the row is on disk.
  lemma FailedReadHidesADay()
    ensures var row := Row(1, "a", "info", []);
      var disk: Files := map[1 := [row]];
      var cut := map[1 := 0];
      var f := Filter(Some("a"), {}, "");
      && Sound(disk, []) && Exact(disk, [], map[])
      && Cacheable(true, 2, AsRead(disk, cut, 1), Memory([], 1), 1)
      && var cache: Cache := map[1 := SummaryOf(AsRead(disk, cut, 1))];
        && Select(Listing(Seen(disk, map[], [], cache, f.task, [1])), Matcher(f), None) == []
        && Select(Listing(Seen(disk, map[], [], map[], f.task, [1])), Matcher(f), None) == [Entry(1, row)]
  {
    var row := Row(1, "a", "info", []);
    var disk: Files := map[1 := [row]];
    var cut := map[1 := 0];
    var cache: Cache := map[1 := SummaryOf(AsRead(disk, cut, 1))];
    var f := Filter(Some("a"), {}, "");
    var seen := Seen(disk, map[], [], cache, f.task, [1]);
    assert seen == [Day(1, [])];
    assert Listing(seen) == [] + Listing([]);
    var all := Seen(disk, map[], [], map[], f.task, [1]);
    assert all == [Day(1, [row])];
    assert Backwards(1, [row]) == [Entry(1, row)] + Backwards(1, []);
    assert Listing(all) == Backwards(1, [row]) + Listing([]);
    assert Listing(all) == [Entry(1, row)];
  }

  lemma SeenNewestFirst(disk: Files, ring: seq<Entry>, cache: Cache, task: Option<string>, days: seq<nat>)
    requires Sound(disk, ring)
    requires Falling(days)
    ensures NewestFirst(Seen(disk, map[], ring, cache, task, days))
  {
    forall i | 0 <= i < |days| ensures Ascending(Seen(disk, map[], ring, cache, task, days)[i].rows) {
      ViewShows(disk, map[], ring, days[i]);
    }
  }

  // With nothing skipped, what is listed is what is held.
  lemma ListingHolds(disk: Files, ring: seq<Entry>, task: Option<string>, days: seq<nat>, e: Entry)
    requires Sound(disk, ring)
    requires Falling(days)
    ensures e in Listing(Seen(disk, map[], ring, map[], task, days)) <==>
      e.day in days && (e.row in OnDisk(disk, e.day) || e in ring)
  {
    var all := Seen(disk, map[], ring, map[], task, days);
    SeenNewestFirst(disk, ring, map[], task, days);
    ListingMembers(all);
    ViewShows(disk, map[], ring, e.day);
    if e.day in days {
      var i :| 0 <= i < |days| && days[i] == e.day;
      assert all[i] == Day(e.day, View(disk, map[], ring, e.day));
      assert OnDay(all, i, e) <==> e.row in all[i].rows;
    }
  }

  // Each matching row of the days, from disk or from memory, once and in order.
  ghost predicate ShowsDays(shown: seq<Entry>, disk: Files, ring: seq<Entry>, f: Filter, before: Option<Key>,
                            days: seq<nat>) {
    && Descending(shown)
    && forall e :: e in shown <==>
         && e.day in days && (e.row in OnDisk(disk, e.day) || e in ring) && AskedFor(e.row, f)
         && (before.Some? ==>
               e.day < before.value.day || (e.day == before.value.day && e.row.number < before.value.number))
  }

  lemma SelectionShowsDays(disk: Files, ring: seq<Entry>, f: Filter, before: Option<Key>, days: seq<nat>)
    requires Sound(disk, ring) && Falling(days)
    ensures Descending(Uncached(disk, ring, f, days))
    ensures ShowsDays(Select(Uncached(disk, ring, f, days), Matcher(f), before), disk, ring, f, before, days)
  {
    SeenNewestFirst(disk, ring, map[], f.task, days);
    ListingDescends(Seen(disk, map[], ring, map[], f.task, days));
    SelectMembers(Uncached(disk, ring, f, days), Matcher(f), before);
    forall e: Entry ensures Matches(e.row, f) <==> AskedFor(e.row, f) { MatchesIsAskedFor(e.row, f); }
    forall e ensures e in Uncached(disk, ring, f, days) <==>
      e.day in days && (e.row in OnDisk(disk, e.day) || e in ring) {
      ListingHolds(disk, ring, f.task, days, e);
    }
  }

  // All rows of the days, read whole and with nothing skipped.
  function Uncached(disk: Files, ring: seq<Entry>, f: Filter, days: seq<nat>): seq<Entry> {
    Listing(Seen(disk, map[], ring, map[], f.task, days))
  }

  // Following the pages of a query with a right cache yields each matching row
  // of its days exactly once, in descending order, whatever is cached.
  lemma PagesCoverTheDays(disk: Files, ring: seq<Entry>, cache: Cache, f: Filter, before: Option<Key>, limit: nat,
                          days: seq<nat>)
    requires Sound(disk, ring) && Exact(disk, ring, cache) && limit > 0
    requires Falling(days)
    ensures Descending(Listing(Seen(disk, map[], ring, cache, f.task, days)))
    ensures ShowsDays(Concat(Pages(Listing(Seen(disk, map[], ring, cache, f.task, days)), Matcher(f), before, limit)),
                      disk, ring, f, before, days)
  {
    SeenNewestFirst(disk, ring, cache, f.task, days);
    ListingDescends(Seen(disk, map[], ring, cache, f.task, days));
    PagesCoverTheList(Listing(Seen(disk, map[], ring, cache, f.task, days)), Matcher(f), before, limit);
    SkippingLosesNothing(disk, ring, cache, f, before, days);
    SelectionShowsDays(disk, ring, f, before, days);
  }

  // One page over a right cache, then everything its key leaves.
  lemma PageOfWalk(disk: Files, ring: seq<Entry>, cache: Cache, f: Filter, before: Option<Key>, limit: nat,
                   days: seq<nat>)
    requires Sound(disk, ring) && Exact(disk, ring, cache) && limit > 0 && Falling(days)
    ensures var (entries, next) :=
        Page(Listing(Seen(disk, map[], ring, cache, f.task, days)), Matcher(f), before, limit);
      var all := Uncached(disk, ring, f, days);
      && (next.None? ==> entries == Select(all, Matcher(f), before))
      && (next.Some? ==> entries != [] && entries + Select(all, Matcher(f), next) == Select(all, Matcher(f), before))
  {
    var all := Uncached(disk, ring, f, days);
    SkippingLosesNothing(disk, ring, cache, f, before, days);
    SelectionShowsDays(disk, ring, f, before, days);
    assert Page(Listing(Seen(disk, map[], ring, cache, f.task, days)), Matcher(f), before, limit)
      == Page(all, Matcher(f), before, limit);
    if Page(all, Matcher(f), before, limit).1.Some? { PageThenRest(all, Matcher(f), before, limit); }
  }

  // ----- the log that is queried --------------------------------------------

  function First(n: nat, es: seq<Entry>): seq<Entry> {
    es[..Min(n, |es|)]
  }

  lemma FirstOfFirst(n: nat, a: seq<Entry>, b: seq<Entry>)
    ensures First(n, First(n, a) + b) == First(n, a + b)
  {
  }

  function PageSize(limit: int): (r: nat)
    ensures 1 <= r <= 500 && (r == limit || (limit < 1 && r == 1) || (limit > 500 && r == 500))
  {
    if limit < 1 then 1 else if limit > MAX_PAGE then MAX_PAGE else limit
  }

  lemma {:induction false} ListingAppend(a: seq<Day>, b: seq<Day>)
    ensures Listing(a + b) == Listing(a) + Listing(b)
  {
    if a == [] {
      assert a + b == b;
    } else {
      assert (a + b)[1..] == a[1..] + b;
      ListingAppend(a[1..], b);
    }
  }

  // The rows found on the days before the i-th, and the i-th day's own.
  lemma NextDay(seen: seq<Day>, m: Row -> bool, before: Option<Key>, i: nat)
    requires i < |seen|
    ensures Select(Listing(seen[..i + 1]), m, before) ==
      Select(Listing(seen[..i]), m, before) + Select(Backwards(seen[i].day, seen[i].rows), m, before)
  {
    assert seen[..i + 1] == seen[..i] + [seen[i]];
    ListingAppend(seen[..i], [seen[i]]);
    var rows := Backwards(seen[i].day, seen[i].rows);
    assert [seen[i]][1..] == [] && rows + [] == rows;
    assert Listing([seen[i]]) == rows;
    SelectAppend(Listing(seen[..i]), rows, m, before);
  }

  // What has been found once the days before the i-th have been looked at.
  function FoundSoFar(seen: seq<Day>, m: Row -> bool, before: Option<Key>, n: nat, i: nat): seq<Entry>
    requires i <= |seen|
  {
    First(n, Select(Listing(seen[..i]), m, before))
  }

  lemma FoundNext(seen: seq<Day>, m: Row -> bool, before: Option<Key>, n: nat, i: nat)
    requires i < |seen|
    ensures First(n, FoundSoFar(seen, m, before, n, i) + Select(Backwards(seen[i].day, seen[i].rows), m, before))
      == FoundSoFar(seen, m, before, n, i + 1)
  {
    NextDay(seen, m, before, i);
    FirstOfFirst(n, Select(Listing(seen[..i]), m, before), Select(Backwards(seen[i].day, seen[i].rows), m, before));
  }

  lemma NothingSeen(seen: seq<Day>, m: Row -> bool, before: Option<Key>, i: nat, start: seq<Entry>)
    requires i < |seen| && seen[i].rows == []
    ensures start + Select(Backwards(seen[i].day, seen[i].rows), m, before) == start
  {
  }

  // Once more rows than fit are found, later days cannot change the page.
  lemma EarlyStop(seen: seq<Day>, m: Row -> bool, before: Option<Key>, n: nat, i: nat)
    requires i <= |seen|
    requires i == |seen| || n <= |FoundSoFar(seen, m, before, n, i)|
    ensures FoundSoFar(seen, m, before, n, i) == First(n, Select(Listing(seen), m, before))
  {
    assert seen == seen[..i] + seen[i..];
    ListingAppend(seen[..i], seen[i..]);
    SelectAppend(Listing(seen[..i]), Listing(seen[i..]), m, before);
    if i == |seen| { assert seen[..i] == seen; }
  }

  // What fits, and where to go on when one row more was found.
  lemma PageOf(es: seq<Entry>, m: Row -> bool, before: Option<Key>, size: nat, found: seq<Entry>)
    requires size > 0 && found == First(size + 1, Select(es, m, before))
    ensures |found| > size ==> (found[..size], Some(KeyOf(found[size - 1]))) == Page(es, m, before, size)
    ensures |found| <= size ==> (found, None) == Page(es, m, before, size)
  {
    var all := Select(es, m, before);
    if |found| > size { assert found[..size] == all[..size]; }
  }

  ghost predicate SameAt(a: Cache, b: Cache, day: nat) {
    (day in a <==> day in b) && (day in a ==> a[day] == b[day])
  }

  ghost predicate SameFrom(a: Cache, b: Cache, days: seq<nat>, i: nat) {
    forall k :: i <= k < |days| ==> SameAt(a, b, days[k])
  }

  lemma StaysSame(a: Cache, was: Cache, first: Cache, days: seq<nat>, i: nat)
    requires i < |days| && Falling(days)
    requires a - {days[i]} == was - {days[i]} && SameFrom(was, first, days, i)
    ensures SameFrom(a, first, days, i + 1)
  {
    forall k | i < k < |days| ensures SameAt(a, first, days[k]) {
      var d := days[k];
      assert d != days[i] && SameAt(was, first, d);
      assert d in a <==> d in a - {days[i]};
      assert d in was <==> d in was - {days[i]};
      if d in a { assert (a - {days[i]})[d] == (was - {days[i]})[d]; }
    }
  }

  lemma SeenSame(disk: Files, cut: map<nat, nat>, ring: seq<Entry>, a: Cache, b: Cache, task: Option<string>,
                 days: seq<nat>, i: nat)
    requires i < |days| && SameAt(a, b, days[i])
    ensures Seen(disk, cut, ring, b, task, days)[i] == Day(days[i], SeenRows(disk, cut, ring, a, task, days[i]))
  {
  }

  // Each summary was there before or sums up a read that covered the memory.
  ghost predicate Fed(disk: Files, cut: map<nat, nat>, ring: seq<Entry>, was: Cache, cache: Cache) {
    forall d :: d in cache ==> SameAt(cache, was, d) || FromRead(disk, cut, ring, cache, d)
  }

  ghost predicate FromRead(disk: Files, cut: map<nat, nat>, ring: seq<Entry>, cache: Cache, d: nat)
    requires d in cache
  {
    CoveredBy(Memory(ring, d), AsRead(disk, cut, d)) && cache[d] == SummaryOf(AsRead(disk, cut, d))
  }

  lemma FedOn(disk: Files, cut: map<nat, nat>, ring: seq<Entry>, a: Cache, b: Cache, c: Cache)
    requires Fed(disk, cut, ring, a, b) && Fed(disk, cut, ring, b, c)
    ensures Fed(disk, cut, ring, a, c)
  {
    forall d | d in c ensures SameAt(c, a, d) || FromRead(disk, cut, ring, c, d) {
      if SameAt(c, b, d) { assert SameAt(b, a, d) || FromRead(disk, cut, ring, b, d); }
    }
  }

  // Queries whose reads are all whole keep every summary right.
  lemma WholeReadsKeepExact(disk: Files, cut: map<nat, nat>, ring: seq<Entry>, was: Cache, cache: Cache)
    requires Exact(disk, ring, was) && Fed(disk, cut, ring, was, cache)
    requires forall d: nat :: Whole(disk, cut, d)
    ensures Exact(disk, ring, cache)
  {
    forall d | d in cache
      ensures CoveredBy(Memory(ring, d), OnDisk(disk, d)) && cache[d] == SummaryOf(OnDisk(disk, d))
    {
      assert Whole(disk, cut, d);
      assert SameAt(cache, was, d) || FromRead(disk, cut, ring, cache, d);
    }
  }

  // What a page's key leaves to be shown.
  ghost function Remaining(es: seq<Entry>, m: Row -> bool, next: Option<Key>): seq<Entry> {
    if next.None? then [] else Select(es, m, next)
  }

  // A scan that meets a row makes today the latest day with one.
  ghost function Scanned(disk: Files, latest: nat, today: nat, readable: bool): nat {
    if readable && OnDisk(disk, today) != [] && latest < today then today else latest
  }

  class LogStore {
    const folder: bool
    var disk: Files
    var ring: seq<Entry>
    var latest: nat
    var today: nat
    var cache: Cache

    constructor (folder: bool, disk: Files, today: nat, readable: bool)
      requires forall d :: d in disk ==> Ascending(disk[d])
      ensures Sound(this.disk, ring) && Exact(this.disk, ring, cache)
      ensures this.folder == folder && this.today == today && this.disk == (if folder then disk else map[])
      ensures latest == Scanned(this.disk, 0, today, readable)
    {
      this.folder, this.disk := folder, if folder then disk else map[];
      this.ring, this.latest, this.today, this.cache := [], 0, today, map[];
      new;
      ScanDay(readable);
    }

    // The scan of today's file, which may fail and is then tried again.
    method ScanDay(readable: bool)
      modifies this`latest
      ensures latest == Scanned(disk, old(latest), today, readable)
    {
      if readable {
        var rows := OnDisk(disk, today);
        for i := 0 to |rows|
          invariant latest == if i == 0 || today <= old(latest) then old(latest) else today
        {
          if latest < today { latest := today; }
        }
      }
    }

    // A record on a later day moves the log on; an earlier one stays on today.
    // What is in memory and in the cache stays, so both may hold several days.
    method StartDay(day: nat, readable: bool)
      requires Sound(disk, ring)
      modifies this`today, this`latest
      ensures today == if old(today) < day then day else old(today)
      ensures latest == if old(today) < day then Scanned(disk, old(latest), today, readable) else old(latest)
      ensures Sound(disk, ring)
      ensures old(Exact(disk, ring, cache)) ==> Exact(disk, ring, cache)
    {
      if today < day {
        today := day;
        ScanDay(readable);
      }
    }

    method Append(e: Entry, saved: bool)
      modifies this`disk, this`ring, this`latest, this`cache
      ensures disk == Saved(old(disk), e, folder && saved) && ring == Pushed(old(ring), e)
      ensures cache == old(cache) - {e.day}
      ensures latest == if old(latest) < e.day then e.day else old(latest)
    {
      disk := Saved(disk, e, folder && saved);
      ring := Pushed(ring, e);
      if latest < e.day { latest := e.day; }
      cache := cache - {e.day};
    }

    // Writes today's next row; the append may fail, the memory always has it.
    method Insert(row: Row, saved: bool)
      requires Sound(disk, ring) && Newest(disk, ring, Entry(today, row))
      modifies this`disk, this`ring, this`latest, this`cache
      ensures disk == Saved(old(disk), Entry(today, row), folder && saved)
      ensures ring == Pushed(old(ring), Entry(today, row))
      ensures cache == old(cache) - {today}
      ensures latest == if old(latest) < today then today else old(latest)
      ensures Sound(disk, ring)
      ensures old(Exact(disk, ring, cache)) ==> Exact(disk, ring, cache)
    {
      WriteKeepsAll(disk, ring, cache, Entry(today, row), folder && saved);
      Append(Entry(today, row), saved);
    }

    // An old day file is deleted and its summary forgotten.
    method Drop(day: nat)
      requires Sound(disk, ring)
      modifies this`disk, this`cache
      ensures disk == old(disk) - {day} && cache == old(cache) - {day}
      ensures Sound(disk, ring)
      ensures old(Exact(disk, ring, cache)) ==> Exact(disk, ring, cache)
    {
      disk := disk - {day};
      cache := cache - {day};
      forall d: nat ensures Agree(OnDisk(disk, d), Memory(ring, d)) {
        assert OnDisk(disk, d) == if d == day then [] else old(OnDisk(disk, d));
      }
    }

    // The rows of one day; their summary is kept when the day may be summed up.
    method RowsOf(day: nat, cut: map<nat, nat>) returns (rows: seq<Row>)
      modifies this`cache
      ensures rows == View(disk, cut, ring, day)
      ensures cache == if Cacheable(folder, latest, AsRead(disk, cut, day), Memory(ring, day), day)
                       then old(cache)[day := SummaryOf(AsRead(disk, cut, day))] else old(cache)
      ensures cache - {day} == old(cache) - {day} && Fed(disk, cut, ring, old(cache), cache)
    {
      var stored, memory := AsRead(disk, cut, day), Memory(ring, day);
      if Cacheable(folder, latest, stored, memory, day) {
        cache := cache[day := SummaryOf(stored)];
      }
      rows := Merge(stored, memory);
    }

    // How many rows a day holds and for which tasks: right whenever the cache is
    // and the read was whole.
    method DaySummary(day: nat, cut: map<nat, nat>) returns (summary: Summary)
      requires Sound(disk, ring)
      modifies this`cache
      ensures Fed(disk, cut, ring, old(cache), cache)
      ensures old(Exact(disk, ring, cache)) && Whole(disk, cut, day) ==>
        summary == SummaryOf(View(disk, map[], ring, day))
    {
      if day in cache {
        if Exact(disk, ring, cache) { CachedIsShown(disk, ring, cache, day); }
        return cache[day];
      }
      var rows := RowsOf(day, cut);
      summary := SummaryOf(rows);
    }

    // Adds one day's matches to those of newer days, unless the day is skipped.
    // `first` is the cache the query began with.
    method TakeDay(days: seq<nat>, i: nat, f: Filter, before: Option<Key>, cut: map<nat, nat>, size: nat,
                   start: seq<Entry>, ghost first: Cache)
      returns (found: seq<Entry>)
      requires Falling(days) && i < |days| && |start| <= size
      requires SameFrom(cache, first, days, i)
      requires start == FoundSoFar(Seen(disk, cut, ring, first, f.task, days), Matcher(f), before, size + 1, i)
      modifies this`cache
      ensures found == FoundSoFar(Seen(disk, cut, ring, first, f.task, days), Matcher(f), before, size + 1, i + 1)
      ensures SameFrom(cache, first, days, i + 1)
      ensures Fed(disk, cut, ring, old(cache), cache)
    {
      ghost var seen := Seen(disk, cut, ring, first, f.task, days);
      SeenSame(disk, cut, ring, cache, first, f.task, days, i);
      FoundNext(seen, Matcher(f), before, size + 1, i);
      if Skipped(cache, f.task, days[i]) {
        found := start;
        NothingSeen(seen, Matcher(f), before, i, start);
      } else {
        var rows := RowsOf(days[i], cut);
        found := AddDay(days[i], rows, Matcher(f), before, size, start);
      }
      StaysSame(cache, old(cache), first, days, i);
    }

    // The matches of the days one after another, stopping as soon as there is
    // one row more than fits.
    method Gather(days: seq<nat>, f: Filter, before: Option<Key>, cut: map<nat, nat>, size: nat)
      returns (found: seq<Entry>)
      requires Falling(days)
      modifies this`cache
      ensures found ==
        First(size + 1, Select(Listing(Seen(disk, cut, ring, old(cache), f.task, days)), Matcher(f), before))
      ensures Fed(disk, cut, ring, old(cache), cache)
    {
      ghost var seen := Seen(disk, cut, ring, cache, f.task, days);
      found := [];
      var i := 0;
      while i < |days| && |found| <= size
        invariant i <= |days|
        invariant found == FoundSoFar(seen, Matcher(f), before, size + 1, i)
        invariant SameFrom(cache, old(cache), days, i)
        invariant Fed(disk, cut, ring, old(cache), cache)
      {
        ghost var was := cache;
        found := TakeDay(days, i, f, before, cut, size, found, old(cache));
        FedOn(disk, cut, ring, old(cache), was, cache);
        i := i + 1;
      }
      EarlyStop(seen, Matcher(f), before, size + 1, i);
    }

    // One page of matching rows, newest first.
    method Query(day: Option<nat>, f: Filter, before: Option<Key>, limit: int, cut: map<nat, nat>)
      returns (page: seq<Entry>, next: Option<Key>)
      modifies this`cache
      ensures var days := Selected(day, f.task, DaysOf(Held(disk, ring)), today);
        (page, next) ==
          Page(Listing(Seen(disk, cut, ring, old(cache), f.task, days)), Matcher(f), before, PageSize(limit))
      ensures Fed(disk, cut, ring, old(cache), cache)
    {
      var size := PageSize(limit);
      var available := SortDays(Held(disk, ring));
      DaysOfFalls(Held(disk, ring));
      var days := Selected(day, f.task, available, today);
      ghost var listing := Listing(Seen(disk, cut, ring, cache, f.task, days));
      var found := Gather(days, f, before, cut, size);
      PageOf(listing, Matcher(f), before, size, found);
      if |found| > size {
        page, next := found[..size], Some(KeyOf(found[size - 1]));
      } else {
        page, next := found, None;
      }
    }

    // One page with whole reads: what it shows and what its key leaves are the
    // rows wanted, and the cache it leaves is as right as the one it found.
    method WholePage(day: Option<nat>, f: Filter, before: Option<Key>, limit: int)
      returns (page: seq<Entry>, next: Option<Key>)
      requires Sound(disk, ring) && Exact(disk, ring, cache)
      modifies this`cache
      ensures Exact(disk, ring, cache)
      ensures var all := Uncached(disk, ring, f, Selected(day, f.task, DaysOf(Held(disk, ring)), today));
        page + Remaining(all, Matcher(f), next) == Select(all, Matcher(f), before)
      ensures |page| <= PageSize(limit) && (next.Some? ==> |page| == PageSize(limit))
    {
      DaysOfFalls(Held(disk, ring));
      PageOfWalk(disk, ring, cache, f, before, PageSize(limit), Selected(day, f.task, DaysOf(Held(disk, ring)), today));
      page, next := Query(day, f, before, limit, map[]);
      WholeReadsKeepExact(disk, map[], ring, old(cache), cache);
    }

    // Page after page, each from the key the last one gave. Every query leaves
    // another cache; together they show each matching row once.
    method Walk(day: Option<nat>, f: Filter, before: Option<Key>, limit: int) returns (shown: seq<Entry>)
      requires Sound(disk, ring) && Exact(disk, ring, cache)
      modifies this`cache
      ensures ShowsDays(shown, disk, ring, f, before, Selected(day, f.task, DaysOf(Held(disk, ring)), today))
      ensures Exact(disk, ring, cache)
    {
      DaysOfFalls(Held(disk, ring));
      ghost var days := Selected(day, f.task, DaysOf(Held(disk, ring)), today);
      ghost var all := Uncached(disk, ring, f, days);
      SelectionShowsDays(disk, ring, f, before, days);
      var next: Option<Key>;
      shown, next := WholePage(day, f, before, limit);
      while next.Some?
        invariant Exact(disk, ring, cache)
        invariant shown + Remaining(all, Matcher(f), next) == Select(all, Matcher(f), before)
        decreases |Remaining(all, Matcher(f), next)|, next.Some?
      {
        var page: seq<Entry>;
        ghost var from := next;
        page, next := WholePage(day, f, next, limit);
        Associates(shown, page, Remaining(all, Matcher(f), next));
        assert page + Remaining(all, Matcher(f), next) == Remaining(all, Matcher(f), from);
        shown := shown + page;
      }
      assert shown + [] == shown;
    }
  }

  // One day's rows backwards, until one more than fits is found.
  method AddDay(day: nat, rows: seq<Row>, m: Row -> bool, before: Option<Key>, size: nat, start: seq<Entry>)
    returns (found: seq<Entry>)
    requires |start| <= size
    ensures found == First(size + 1, start + Select(Backwards(day, rows), m, before))
  {
    found := start;
    var j := |rows|;
    assert rows[..j] == rows;
    while j > 0 && |found| <= size
      invariant j <= |rows| && |found| <= size + 1
      invariant First(size + 1, found + Select(Backwards(day, rows[..j]), m, before)) ==
        First(size + 1, start + Select(Backwards(day, rows), m, before))
    {
      var e := Entry(day, rows[j - 1]);
      assert rows[..j][..j - 1] == rows[..j - 1];
      ghost var rest := Select(Backwards(day, rows[..j - 1]), m, before);
      assert Backwards(day, rows[..j])[1..] == Backwards(day, rows[..j - 1]);
      j := j - 1;
      if Wanted(e, m, before) {
        assert found + ([e] + rest) == (found + [e]) + rest;
        found := found + [e];
      } else {
        assert found + ([] + rest) == found + rest;
      }
    }
  }
}
