// The bounded store of activity facts: what it forgets, it forgets under a proof
// or remembers in a coarser form.
module ActivityStore {
  import opened Wrappers

  const RETENTION := 86400.0
  const SKEW := 5.0
  const FACT_CAP := 2048
  const SUMMARY_CAP := 256
  const TOOL_CAP := 64
  const SESSION_CAP := 64
  const TURN_CAP := 256
  const PARENT := "parent"

  datatype Kind = Busy | Waiting | Unknown | Presence | StopAttempt | Interrupt | SessionEnd | VerifiedEnd

  datatype Fact = Fact(id: string, tool: string, session: string, turn: string, actor: string, unit: string,
                       kind: Kind, ts: real, pid: nat, created: real)

  // Whose work a fact is about.
  datatype Scope = Scope(tool: string, session: string, turn: string, actor: string, pid: nat, created: real)

  // Why a scope is summed up, and what a tool lost track of: one bit each.
  datatype Reason = Active | StopTried | Unclear
  datatype Overflow = OfTool | OfStore

  datatype Tool = Tool(watermark: Option<real>, overflow: set<Overflow>)

  datatype Store = Store(tools: map<string, Tool>, facts: seq<Fact>, summaries: map<Scope, set<Reason>>)

  function ScopeOf(f: Fact): Scope {
    Scope(f.tool, f.session, f.turn, f.actor, f.pid, f.created)
  }

  predicate IsProof(f: Fact) {
    f.kind == Interrupt || f.kind == VerifiedEnd
  }

  // Work that is not known to have ended.
  predicate Unresolved(f: Fact) {
    f.kind == Busy || f.kind == Waiting || f.kind == Unknown || f.kind == StopAttempt
  }

  // A proof ends the work of its session, or of its own scope, up to a day on.
  predicate Covered(f: Fact, proof: Fact) {
    && f.ts <= proof.ts + RETENTION
    && (if proof.kind == VerifiedEnd then
          && f.session != "" && f.tool == proof.tool && f.session == proof.session
          && f.pid == proof.pid && f.created == proof.created
        else
          proof.kind == Interrupt && f.actor == PARENT && ScopeOf(f) == ScopeOf(proof))
  }

  predicate InWindow(now: real, ts: real) {
    -SKEW <= now - ts <= RETENTION
  }

  // Same callback: equal but for the time of receipt.
  predicate SameFact(a: Fact, b: Fact) {
    a.(ts := b.ts) == b
  }

  // ----- selecting rows -----------------------------------------------------

  function Kept(facts: seq<Fact>, test: Fact -> bool): seq<Fact> {
    if facts == [] then [] else (if test(facts[0]) then [facts[0]] else []) + Kept(facts[1..], test)
  }

  ghost predicate Unique(facts: seq<Fact>) {
    forall i, j :: 0 <= i < j < |facts| ==> facts[i].id != facts[j].id
  }

  lemma {:induction false} KeptMembers(facts: seq<Fact>, test: Fact -> bool)
    ensures forall f :: f in Kept(facts, test) <==> f in facts && test(f)
    ensures |Kept(facts, test)| <= |facts|
  {
    if facts != [] {
      KeptMembers(facts[1..], test);
      assert facts == [facts[0]] + facts[1..];
    }
  }

  lemma {:induction false} KeptUnique(facts: seq<Fact>, test: Fact -> bool)
    requires Unique(facts)
    ensures Unique(Kept(facts, test))
  {
    if facts != [] {
      var rest := Kept(facts[1..], test);
      KeptUnique(facts[1..], test);
      KeptMembers(facts[1..], test);
      forall j | 0 <= j < |rest| ensures rest[j].id != facts[0].id {
        assert rest[j] in facts[1..];
        var i :| 0 <= i < |facts[1..]| && facts[1..][i] == rest[j];
        assert facts[i + 1] == rest[j];
      }
    }
  }

  lemma {:induction false} KeptAppend(a: seq<Fact>, b: seq<Fact>, test: Fact -> bool)
    ensures Kept(a + b, test) == Kept(a, test) + Kept(b, test)
  {
    if a == [] {
      assert a + b == b;
    } else {
      assert (a + b)[1..] == a[1..] + b;
      KeptAppend(a[1..], b, test);
      Associates(if test(a[0]) then [a[0]] else [], Kept(a[1..], test), Kept(b, test));
    }
  }

  lemma Associates(a: seq<Fact>, b: seq<Fact>, c: seq<Fact>)
    ensures (a + b) + c == a + (b + c)
  {
  }

  lemma KeptOne(f: Fact, test: Fact -> bool)
    ensures Kept([f], test) == if test(f) then [f] else []
  {
    assert [f][1..] == [];
  }

  lemma {:induction false} KeptAll(facts: seq<Fact>, test: Fact -> bool)
    requires forall f :: f in facts ==> test(f)
    ensures Kept(facts, test) == facts
  {
    if facts != [] {
      assert facts[0] in facts;
      KeptAll(facts[1..], test);
    }
  }

  function NotId(id: string): Fact -> bool {
    (f: Fact) => f.id != id
  }

  function Deleted(facts: seq<Fact>, id: string): seq<Fact> {
    Kept(facts, NotId(id))
  }

  // Deleting the rows that fail a test one by one leaves the rows that pass it.
  lemma KeptNext(rows: seq<Fact>, test: Fact -> bool, i: nat)
    requires i < |rows|
    ensures Kept(rows[..i + 1], test) == Kept(rows[..i], test) + (if test(rows[i]) then [rows[i]] else [])
  {
    assert rows[..i + 1] == rows[..i] + [rows[i]];
    KeptAppend(rows[..i], [rows[i]], test);
    KeptOne(rows[i], test);
  }

  lemma DeleteOne(a: seq<Fact>, f: Fact, b: seq<Fact>)
    requires forall x :: x in a || x in b ==> x.id != f.id
    ensures Deleted(a + [f] + b, f.id) == a + b
  {
    var test := NotId(f.id);
    KeptAppend(a + [f], b, test);
    KeptAppend(a, [f], test);
    KeptAll(a, test);
    KeptAll(b, test);
    KeptOne(f, test);
    assert a + [] == a;
  }

  // One row of such a pass, with `done` the rows before it that are left.
  lemma RowStep(done: seq<Fact>, rows: seq<Fact>, test: Fact -> bool, i: nat)
    requires i < |rows|
    requires forall x :: x in done || x in rows[i + 1..] ==> x.id != rows[i].id
    ensures var left := done + rows[i..];
      (if test(rows[i]) then left else Deleted(left, rows[i].id))
      == done + (if test(rows[i]) then [rows[i]] else []) + rows[i + 1..]
  {
    assert done + rows[i..] == done + [rows[i]] + rows[i + 1..];
    if !test(rows[i]) {
      DeleteOne(done, rows[i], rows[i + 1..]);
      assert done + [] == done;
    }
  }

  lemma RowDone(rows: seq<Fact>, test: Fact -> bool, i: nat)
    requires Unique(rows) && i < |rows|
    ensures var left := Kept(rows[..i], test) + rows[i..];
      (if test(rows[i]) then left else Deleted(left, rows[i].id)) == Kept(rows[..i + 1], test) + rows[i + 1..]
  {
    KeptMembers(rows[..i], test);
    KeptNext(rows, test, i);
    RowStep(Kept(rows[..i], test), rows, test, i);
  }

  predicate HasId(facts: seq<Fact>, id: string) {
    exists i :: 0 <= i < |facts| && facts[i].id == id
  }

  function Find(facts: seq<Fact>, id: string): (r: Option<Fact>)
    ensures r.Some? ==> r.value in facts && r.value.id == id
    ensures r.None? ==> !HasId(facts, id)
  {
    if facts == [] then None
    else if facts[0].id == id then Some(facts[0])
    else
      assert facts == [facts[0]] + facts[1..];
      Find(facts[1..], id)
  }

  predicate HasProof(facts: seq<Fact>, f: Fact, now: real) {
    exists i :: 0 <= i < |facts| && Proves(facts[i], f, now)
  }

  predicate Proves(proof: Fact, f: Fact, now: real) {
    IsProof(proof) && InWindow(now, proof.ts) && Covered(f, proof)
  }

  predicate Interrupted(f: Fact, finals: seq<Fact>) {
    f.actor == PARENT && exists i :: 0 <= i < |finals| && finals[i].kind == Interrupt && Covered(f, finals[i])
  }

  lemma InterruptedMeans(f: Fact, finals: seq<Fact>)
    ensures Interrupted(f, finals) <==>
      f.actor == PARENT && exists p :: p in finals && p.kind == Interrupt && Covered(f, p)
  {
    if p :| p in finals && p.kind == Interrupt && Covered(f, p) {
      var i :| 0 <= i < |finals| && finals[i] == p;
    }
  }

  // ----- what one proof clears ----------------------------------------------

  function Max(watermark: Option<real>, ts: real): Option<real> {
    if watermark.None? || watermark.value < ts then Some(ts) else watermark
  }

  function Raised(tools: map<string, Tool>, tool: string, ts: real): map<string, Tool> {
    if tool in tools then tools[tool := tools[tool].(watermark := Max(tools[tool].watermark, ts))] else tools
  }

  predicate EndsScope(proof: Fact, k: Scope) {
    k.tool == proof.tool && k.session == proof.session && k.pid == proof.pid && k.created == proof.created
  }

  function OutlivesEnd(proof: Fact): Fact -> bool {
    (f: Fact) => f.kind == VerifiedEnd || !Covered(f, proof)
  }

  function OutlivesInterrupt(proof: Fact): Fact -> bool {
    (f: Fact) => IsProof(f) || !Covered(f, proof)
  }

  function OutlivesFinals(finals: seq<Fact>): Fact -> bool {
    (f: Fact) => f.kind == Interrupt || !Interrupted(f, finals)
  }

  function Collapse(s: Store, proof: Fact, now: real): Store {
    Store(Raised(s.tools, proof.tool, proof.ts),
          Kept(s.facts, OutlivesEnd(proof)),
          if now <= proof.ts + RETENTION
          then map k | k in s.summaries && !EndsScope(proof, k) :: s.summaries[k]
          else s.summaries)
  }

  // ----- remembering what is forgotten --------------------------------------

  predicate Complete(f: Fact) {
    f.session != "" && f.turn != "" && f.actor != ""
  }

  function ReasonFor(kind: Kind): Reason {
    if kind == StopAttempt then StopTried else if kind == Unknown then Unclear else Active
  }

  function Marked(tools: map<string, Tool>, tool: string, bit: Overflow): map<string, Tool> {
    if tool in tools then tools[tool := tools[tool].(overflow := tools[tool].overflow + {bit})] else tools
  }

  function Retain(s: Store, f: Fact): Store {
    var k, reason := ScopeOf(f), ReasonFor(f.kind);
    if !Complete(f) then s.(tools := Marked(s.tools, f.tool, OfTool))
    else if k in s.summaries then s.(summaries := s.summaries[k := s.summaries[k] + {reason}])
    else if |s.summaries| >= SUMMARY_CAP then s.(tools := Marked(s.tools, f.tool, OfTool))
    else s.(summaries := s.summaries[k := {reason}])
  }

  // Work whose session, turn and actor are named finds the summary of its scope, or
  // room for one.
  ghost predicate Summarized(s: Store, f: Fact) {
    f.session != "" && f.turn != "" && f.actor != "" && (ScopeOf(f) in s.summaries || |s.summaries| < 256)
  }

  // It is added there, and anything else marks its tool.
  lemma RetainSums(s: Store, f: Fact)
    requires Summarized(s, f)
    ensures var (s', k) := (Retain(s, f), ScopeOf(f));
      && s'.tools == s.tools && s'.facts == s.facts && k in s'.summaries
      && s'.summaries == s.summaries[k := s'.summaries[k]]
      && s'.summaries[k] == (if k in s.summaries then s.summaries[k] else {}) + {ReasonFor(f.kind)}
  {
  }

  lemma RetainMarks(s: Store, f: Fact)
    requires !Summarized(s, f)
    ensures var s' := Retain(s, f);
      && s'.summaries == s.summaries && s'.facts == s.facts && s'.tools.Keys == s.tools.Keys
      && (f.tool in s.tools ==>
            && s'.tools == s.tools[f.tool := s'.tools[f.tool]]
            && s'.tools[f.tool].watermark == s.tools[f.tool].watermark
            && s'.tools[f.tool].overflow == s.tools[f.tool].overflow + {OfTool})
  {
  }

  // A tool gets its row when it first offers a fact.
  function WithTool(s: Store, tool: string): Store {
    if tool in s.tools then s else s.(tools := s.tools[tool := Tool(None, {})])
  }

  // Text order of tool names.
  predicate Leq(a: string, b: string) {
    a == "" || (b != "" && (a[0] < b[0] || (a[0] == b[0] && Leq(a[1..], b[1..]))))
  }

  ghost predicate IsFirst(names: set<string>, t: string) {
    t in names && forall n :: n in names ==> Leq(t, n)
  }

  lemma {:induction false} LeqOrders(a: string, b: string)
    ensures Leq(a, a) && (Leq(a, b) || Leq(b, a))
    ensures Leq(a, b) && Leq(b, a) ==> a == b
  {
    if a != "" {
      LeqOrders(a[1..], if b != "" then b[1..] else "");
      if b != "" && a[0] == b[0] && a[1..] == b[1..] { assert a == [a[0]] + a[1..] && b == [b[0]] + b[1..]; }
    }
  }

  lemma {:induction false} LeqTransitive(a: string, b: string, c: string)
    requires Leq(a, b) && Leq(b, c)
    ensures Leq(a, c)
  {
    if a != "" && a[0] == b[0] && b[0] == c[0] { LeqTransitive(a[1..], b[1..], c[1..]); }
  }

  ghost function FirstTool(names: set<string>): (t: string)
    requires names != {}
    ensures IsFirst(names, t)
  {
    FirstExists(names);
    var t :| IsFirst(names, t);
    t
  }

  lemma {:induction false} FirstExists(names: set<string>)
    requires names != {}
    ensures exists t :: IsFirst(names, t)
  {
    var n :| n in names;
    var rest := names - {n};
    LeqOrders(n, n);
    if rest == {} {
      assert names == {n};
      assert IsFirst(names, n);
    } else {
      FirstExists(rest);
      var t :| IsFirst(rest, t);
      LeqOrders(n, t);
      assert forall m :: m in names ==> m == n || m in rest;
      if Leq(n, t) {
        forall m | m in rest ensures Leq(n, m) { LeqTransitive(n, t, m); }
        assert IsFirst(names, n);
      } else {
        assert IsFirst(names, t);
      }
    }
  }

  // A refused fact is remembered as unknown work; when its tool has no row and
  // none can be added, the first tool carries a bit for the whole store.
  ghost function Refused(s: Store, f: Fact): Store {
    if f.tool !in s.tools && |s.tools| >= TOOL_CAP then
      s.(tools := Marked(s.tools, FirstTool(s.tools.Keys), OfStore))
    else
      var s1 := WithTool(s, f.tool);
      Retain(s1, f.(kind := Unknown))
  }

  // ----- expiry -------------------------------------------------------------

  function ExpireEnd(s: Store, proof: Fact, now: real): Store {
    if proof.ts > now + SKEW then s
    else
      var s1 := Collapse(s, proof, now);
      if now > proof.ts + RETENTION then s1.(facts := Deleted(s1.facts, proof.id)) else s1
  }

  function ExpireEnds(s: Store, ends: seq<Fact>, now: real): Store
    decreases |ends|
  {
    if ends == [] then s else ExpireEnds(ExpireEnd(s, ends[0], now), ends[1..], now)
  }

  function ExpireInterrupt(s: Store, proof: Fact): Store {
    s.(facts := Deleted(Kept(s.facts, OutlivesInterrupt(proof)), proof.id))
  }

  function ExpireInterrupts(s: Store, proofs: seq<Fact>): Store
    decreases |proofs|
  {
    if proofs == [] then s else ExpireInterrupts(ExpireInterrupt(s, proofs[0]), proofs[1..])
  }

  function ExpireRow(s: Store, f: Fact, now: real, finals: seq<Fact>): Store {
    if IsProof(f) then s
    else
      var forgotten := HasProof(s.facts, f, now) || !Unresolved(f) || Interrupted(f, finals);
      var s1 := if forgotten then s else Retain(s, f);
      s1.(facts := Deleted(s1.facts, f.id))
  }

  function ExpireRows(s: Store, rows: seq<Fact>, now: real, finals: seq<Fact>): Store
    decreases |rows|
  {
    if rows == [] then s else ExpireRows(ExpireRow(s, rows[0], now, finals), rows[1..], now, finals)
  }

  function IsEnd(): Fact -> bool {
    (f: Fact) => f.kind == VerifiedEnd
  }

  function OldInterrupt(now: real): Fact -> bool {
    (f: Fact) => f.kind == Interrupt && f.ts < now - RETENTION
  }

  function Old(now: real, threshold: real): Fact -> bool {
    (f: Fact) => f.ts < now - threshold
  }

  function Expire(s: Store, now: real, threshold: real, finals: seq<Fact>): Store {
    var s1 := ExpireEnds(s, Kept(s.facts, IsEnd()), now);
    var s2 := ExpireInterrupts(s1, Kept(s1.facts, OldInterrupt(now)));
    ExpireRows(s2, Kept(s2.facts, Old(now, threshold)), now, finals)
  }

  // ----- admission ----------------------------------------------------------

  datatype Refusal = Capacity | Inconsistent

  function FreshInterrupt(now: real): Fact -> bool {
    (f: Fact) => f.kind == Interrupt && InWindow(now, f.ts)
  }

  // The interrupts that may discharge old work: those stored and the new one.
  function Finals(s: Store, f: Fact, now: real): seq<Fact> {
    var stored := Kept(s.facts, FreshInterrupt(now));
    if FreshInterrupt(now)(f) then stored + [f] else stored
  }

  function MakeRoom(s: Store, now: real, freshness: real, finals: seq<Fact>): Store {
    if |s.facts| < FACT_CAP then s
    else
      var s1 := Expire(s, now, freshness, finals);
      if |s1.facts| < FACT_CAP then s1 else s1.(facts := Kept(s1.facts, OutlivesFinals(finals)))
  }

  function Sessions(facts: seq<Fact>): set<string> {
    set f | f in facts && f.session != "" :: f.session
  }

  function Turns(facts: seq<Fact>): set<(string, string)> {
    set f | f in facts && f.turn != "" :: (f.session, f.turn)
  }

  predicate TooSpread(facts: seq<Fact>) {
    |Sessions(facts)| > SESSION_CAP || |Turns(facts)| > TURN_CAP
  }

  // No more than 64 named sessions and 256 named turns.
  lemma SpreadMeans(facts: seq<Fact>)
    ensures !TooSpread(facts) <==>
      && |(set f | f in facts :: f.session) - {""}| <= 64
      && |set t | t in (set f | f in facts :: (f.session, f.turn)) && t.1 != ""| <= 256
  {
    assert Sessions(facts) == (set f | f in facts :: f.session) - {""};
    assert Turns(facts) == set t | t in (set f | f in facts :: (f.session, f.turn)) && t.1 != "";
  }

  // What a stored final clears: its scope's summary, its session, and the
  // tool's watermark.
  function Concluded(s: Store, f: Fact, stored: Fact, now: real): Store {
    var s1 := if FreshInterrupt(now)(f) then s.(summaries := s.summaries - {ScopeOf(f)}) else s;
    var s2 := if f.kind == VerifiedEnd then Collapse(s1, stored, now) else s1;
    if f.kind == Interrupt || f.kind == SessionEnd || f.kind == StopAttempt
    then s2.(tools := Raised(s2.tools, f.tool, f.ts))
    else s2
  }

  function Admit(s: Store, f: Fact, now: real, freshness: real): Result<Store, Refusal> {
    if f.tool !in s.tools && |s.tools| >= TOOL_CAP then Err(Capacity)
    else
      var finals := Finals(s, f, now);
      var s1 := WithTool(s, f.tool);
      var s2 := Expire(s1, now, RETENTION, finals);
      Placed(s2, f, now, freshness, finals)
  }

  function Placed(s: Store, f: Fact, now: real, freshness: real, finals: seq<Fact>): Result<Store, Refusal> {
    var existing := Find(s.facts, f.id);
    if existing.Some? && !SameFact(existing.value, f) then Err(Inconsistent)
    else if f.kind != VerifiedEnd && HasProof(s.facts, f, now) then Ok(s)
    else if existing.Some? then
      if TooSpread(s.facts) then Err(Capacity) else Ok(Concluded(s, f, existing.value, now))
    else
      var s1 := MakeRoom(s, now, freshness, finals);
      if |s1.facts| >= FACT_CAP || TooSpread(s1.facts + [f]) then Err(Capacity)
      else Ok(Concluded(s1.(facts := s1.facts + [f]), f, f, now))
  }

  // ----- nothing is forgotten silently --------------------------------------

  // The fact's scope is summed up for its reason, or its tool says it lost track.
  ghost predicate Remembered(s: Store, f: Fact) {
    || (ScopeOf(f) in s.summaries && ReasonFor(f.kind) in s.summaries[ScopeOf(f)])
    || (f.tool in s.tools && OfTool in s.tools[f.tool].overflow)
  }

  ghost predicate Followed(s: Store, f: Fact, lim: real) {
    f in s.facts || (f.ts <= lim && Remembered(s, f))
  }

  ghost predicate CoveredIn(ps: seq<Fact>, f: Fact) {
    exists p :: p in ps && IsProof(p) && Covered(f, p)
  }

  // The interrupt of an actor other than the parent covers nothing, yet it takes
  // away the summary of its scope, old work of that actor included.
  ghost predicate Sweeps(proof: Fact, f: Fact) {
    proof.kind == Interrupt && f.actor != PARENT && ScopeOf(f) == ScopeOf(proof) && f.ts <= proof.ts + RETENTION
  }

  ghost predicate Discharged(ps: seq<Fact>, f: Fact) {
    CoveredIn(ps, f) || exists p :: p in ps && Sweeps(p, f)
  }

  // What may take a summary away: an interrupt of its scope, or the verified end
  // of its session.
  ghost predicate RetiredBy(proof: Fact, k: Scope) {
    (proof.kind == Interrupt && ScopeOf(proof) == k) || (proof.kind == VerifiedEnd && EndsScope(proof, k))
  }

  ghost predicate Retired(ps: seq<Fact>, k: Scope) {
    exists p :: p in ps && RetiredBy(p, k)
  }

  ghost predicate FactsCovered(s: Store, s': Store, ps: seq<Fact>, lim: real) {
    forall f :: Unresolved(f) && Followed(s, f, lim) ==> Followed(s', f, lim) || CoveredIn(ps, f)
  }

  ghost predicate FactsCarried(s: Store, s': Store, ps: seq<Fact>, lim: real) {
    forall f :: Unresolved(f) && Followed(s, f, lim) ==> Followed(s', f, lim) || Discharged(ps, f)
  }

  ghost predicate SummariesCarried(s: Store, s': Store, ps: seq<Fact>) {
    forall k :: k in s.summaries ==> (k in s'.summaries && s.summaries[k] <= s'.summaries[k]) || Retired(ps, k)
  }

  // Overflow bits stay, and watermarks only rise.
  ghost predicate ToolsCarried(s: Store, s': Store) {
    forall t :: t in s.tools ==>
      t in s'.tools && s.tools[t].overflow <= s'.tools[t].overflow
        && NotAbove(s.tools[t].watermark, s'.tools[t].watermark)
  }

  predicate NotAbove(a: Option<real>, b: Option<real>) {
    a.Some? ==> b.Some? && a.value <= b.value
  }

  // From s to s' every piece of open work stays known or is ended by one of `ps`.
  ghost predicate Carries(s: Store, s': Store, ps: seq<Fact>, lim: real) {
    FactsCarried(s, s', ps, lim) && SummariesCarried(s, s', ps) && ToolsCarried(s, s')
  }

  ghost predicate Shrinks(s: Store, s': Store) {
    && (forall f :: f in s'.facts ==> f in s.facts)
    && |s'.facts| <= |s.facts|
    && s'.tools.Keys == s.tools.Keys
    && (|s.summaries| <= SUMMARY_CAP ==> |s'.summaries| <= SUMMARY_CAP)
  }

  // Rows are told apart by id and each has its tool's row; `base` is what was
  // stored when the call began.
  ghost predicate Ready(s: Store, base: seq<Fact>) {
    && Unique(base) && Unique(s.facts)
    && (forall f :: f in s.facts ==> f in base && f.tool in s.tools)
    && (forall f :: f in base && f.kind == VerifiedEnd ==> f.session != "")
  }

  // The step carries all open work on, and covers by a proof what it lets go.
  ghost predicate Lawful(s: Store, s': Store, base: seq<Fact>, ps: seq<Fact>, lim: real) {
    && Ready(s', base) && Shrinks(s, s')
    && FactsCovered(s, s', ps, lim) && SummariesCarried(s, s', ps) && ToolsCarried(s, s')
  }

  ghost predicate Orderly(s: Store, s': Store, base: seq<Fact>, ps: seq<Fact>, lim: real) {
    Ready(s', base) && Shrinks(s, s') && Carries(s, s', ps, lim)
  }

  lemma LawfulIsOrderly(s: Store, s': Store, base: seq<Fact>, ps: seq<Fact>, lim: real)
    requires Lawful(s, s', base, ps, lim)
    ensures Orderly(s, s', base, ps, lim)
  {
  }

  lemma CarriesOn(a: Store, b: Store, c: Store, ps: seq<Fact>, lim: real)
    requires Carries(a, b, ps, lim) && Carries(b, c, ps, lim)
    ensures Carries(a, c, ps, lim)
  {
  }

  lemma LawfulOn(a: Store, b: Store, c: Store, base: seq<Fact>, ps: seq<Fact>, lim: real)
    requires Lawful(a, b, base, ps, lim) && Lawful(b, c, base, ps, lim)
    ensures Lawful(a, c, base, ps, lim)
  {
  }

  lemma OrderlyOn(a: Store, b: Store, c: Store, base: seq<Fact>, ps: seq<Fact>, lim: real)
    requires Orderly(a, b, base, ps, lim) && Orderly(b, c, base, ps, lim)
    ensures Orderly(a, c, base, ps, lim)
  {
    CarriesOn(a, b, c, ps, lim);
  }

  lemma SameId(facts: seq<Fact>, a: Fact, b: Fact)
    requires Unique(facts) && a in facts && b in facts && a.id == b.id
    ensures a == b
  {
    var i :| 0 <= i < |facts| && facts[i] == a;
    var j :| 0 <= j < |facts| && facts[j] == b;
  }

  // Dropping rows is lawful when each open one is covered or remembered.
  lemma DropLawful(s: Store, test: Fact -> bool, base: seq<Fact>, ps: seq<Fact>, lim: real)
    requires Ready(s, base)
    requires forall f :: f in s.facts && !test(f) && Unresolved(f) ==>
      CoveredIn(ps, f) || (f.ts <= lim && Remembered(s, f))
    ensures Lawful(s, s.(facts := Kept(s.facts, test)), base, ps, lim)
  {
    KeptMembers(s.facts, test);
    KeptUnique(s.facts, test);
  }

  lemma DeleteProofLawful(s: Store, p: Fact, base: seq<Fact>, ps: seq<Fact>, lim: real)
    requires Ready(s, base) && p in base && IsProof(p)
    ensures Lawful(s, s.(facts := Deleted(s.facts, p.id)), base, ps, lim)
  {
    forall f | f in s.facts && !NotId(p.id)(f) ensures f == p { SameId(base, f, p); }
    DropLawful(s, NotId(p.id), base, ps, lim);
  }

  lemma SmallerMap(a: map<Scope, set<Reason>>, b: map<Scope, set<Reason>>)
    requires b.Keys <= a.Keys
    ensures |b| <= |a|
  {
    SmallerSet(a.Keys, b.Keys);
    assert |a| == |a.Keys| && |b| == |b.Keys|;
  }

  lemma {:induction false} SmallerSet<T>(a: set<T>, b: set<T>)
    requires b <= a
    ensures |b| <= |a|
  {
    if b != {} {
      var x :| x in b;
      SmallerSet(a - {x}, b - {x});
    }
  }

  // Forgetting the summaries of an ended session, and raising its watermark.
  lemma EndSummariesLawful(s: Store, p: Fact, now: real, lim: real, base: seq<Fact>, ps: seq<Fact>)
    requires Ready(s, base) && p in ps && p.kind == VerifiedEnd && p.session != "" && lim <= now
    ensures Lawful(s, Collapse(s, p, now).(facts := s.facts), base, ps, lim)
  {
    var s' := Collapse(s, p, now).(facts := s.facts);
    SmallerMap(s.summaries, s'.summaries);
    forall k | k in s.summaries && k !in s'.summaries ensures Retired(ps, k) {
      assert RetiredBy(p, k);
    }
    forall f | Unresolved(f) && Followed(s, f, lim) ensures Followed(s', f, lim) || CoveredIn(ps, f) {
      if f !in s.facts && !Remembered(s', f) {
        assert EndsScope(p, ScopeOf(f)) && now <= p.ts + RETENTION;
        assert Covered(f, p);
      }
    }
  }

  lemma CollapseLawful(s: Store, p: Fact, now: real, lim: real, base: seq<Fact>, ps: seq<Fact>)
    requires Ready(s, base) && p in ps && p.kind == VerifiedEnd && p.session != "" && lim <= now
    ensures Lawful(s, Collapse(s, p, now), base, ps, lim)
  {
    var s1 := Collapse(s, p, now).(facts := s.facts);
    EndSummariesLawful(s, p, now, lim, base, ps);
    forall f | f in s1.facts && !OutlivesEnd(p)(f) && Unresolved(f) ensures CoveredIn(ps, f) {
      assert IsProof(p) && Covered(f, p);
    }
    DropLawful(s1, OutlivesEnd(p), base, ps, lim);
    LawfulOn(s, s1, Collapse(s, p, now), base, ps, lim);
  }

  ghost predicate Among(rows: seq<Fact>, base: seq<Fact>, ps: seq<Fact>) {
    forall f :: f in rows ==> f in base && f in ps
  }

  lemma LawfulSelf(s: Store, base: seq<Fact>, ps: seq<Fact>, lim: real)
    requires Ready(s, base)
    ensures Lawful(s, s, base, ps, lim)
  {
  }

  lemma ExpireEndLawful(s: Store, p: Fact, now: real, lim: real, base: seq<Fact>, ps: seq<Fact>)
    requires Ready(s, base) && p in base && p in ps && p.kind == VerifiedEnd && lim <= now
    ensures Lawful(s, ExpireEnd(s, p, now), base, ps, lim)
  {
    LawfulSelf(s, base, ps, lim);
    if p.ts <= now + SKEW {
      var s1 := Collapse(s, p, now);
      CollapseLawful(s, p, now, lim, base, ps);
      if now > p.ts + RETENTION {
        DeleteProofLawful(s1, p, base, ps, lim);
        LawfulOn(s, s1, ExpireEnd(s, p, now), base, ps, lim);
      }
    }
  }

  lemma {:induction false} ExpireEndsLawful(s: Store, ends: seq<Fact>, now: real, lim: real, base: seq<Fact>,
                                            ps: seq<Fact>)
    requires lim <= now
    requires Ready(s, base) && Among(ends, base, ps) && forall p :: p in ends ==> p.kind == VerifiedEnd
    ensures Lawful(s, ExpireEnds(s, ends, now), base, ps, lim)
    decreases |ends|
  {
    LawfulSelf(s, base, ps, lim);
    if ends != [] {
      var s' := ExpireEnd(s, ends[0], now);
      assert ends[0] in ends;
      ExpireEndLawful(s, ends[0], now, lim, base, ps);
      TailAmong(ends, base, ps);
      ExpireEndsLawful(s', ends[1..], now, lim, base, ps);
      LawfulOn(s, s', ExpireEnds(s, ends, now), base, ps, lim);
    }
  }

  lemma TailAmong(rows: seq<Fact>, base: seq<Fact>, ps: seq<Fact>)
    requires rows != [] && Among(rows, base, ps)
    ensures Among(rows[1..], base, ps)
    ensures forall f :: f in rows[1..] ==> f in rows
  {
  }

  lemma ExpireInterruptLawful(s: Store, p: Fact, lim: real, base: seq<Fact>, ps: seq<Fact>)
    requires Ready(s, base) && p in base && p in ps && p.kind == Interrupt
    ensures Lawful(s, ExpireInterrupt(s, p), base, ps, lim)
  {
    var s1 := s.(facts := Kept(s.facts, OutlivesInterrupt(p)));
    forall f | f in s.facts && !OutlivesInterrupt(p)(f) && Unresolved(f) ensures CoveredIn(ps, f) {
      assert IsProof(p) && Covered(f, p);
    }
    DropLawful(s, OutlivesInterrupt(p), base, ps, lim);
    DeleteProofLawful(s1, p, base, ps, lim);
    LawfulOn(s, s1, ExpireInterrupt(s, p), base, ps, lim);
  }

  lemma {:induction false} ExpireInterruptsLawful(s: Store, proofs: seq<Fact>, lim: real, base: seq<Fact>,
                                                  ps: seq<Fact>)
    requires Ready(s, base) && Among(proofs, base, ps) && forall p :: p in proofs ==> p.kind == Interrupt
    ensures Lawful(s, ExpireInterrupts(s, proofs), base, ps, lim)
    decreases |proofs|
  {
    LawfulSelf(s, base, ps, lim);
    if proofs != [] {
      var s' := ExpireInterrupt(s, proofs[0]);
      assert proofs[0] in proofs;
      ExpireInterruptLawful(s, proofs[0], lim, base, ps);
      TailAmong(proofs, base, ps);
      ExpireInterruptsLawful(s', proofs[1..], lim, base, ps);
      LawfulOn(s, s', ExpireInterrupts(s, proofs), base, ps, lim);
    }
  }

  // Retaining a fact makes it remembered and loses nothing else.
  lemma RetainLawful(s: Store, f: Fact, base: seq<Fact>, ps: seq<Fact>, lim: real)
    requires Ready(s, base) && f.tool in s.tools
    ensures Lawful(s, Retain(s, f), base, ps, lim) && Remembered(Retain(s, f), f)
  {
    var s' := Retain(s, f);
    assert s'.tools.Keys == s.tools.Keys;
    if |s.summaries| <= SUMMARY_CAP && ScopeOf(f) in s.summaries {
      SmallerMap(s.summaries, s'.summaries);
    }
  }

  lemma ExpireRowLawful(s: Store, f: Fact, now: real, lim: real, finals: seq<Fact>, base: seq<Fact>,
                        ps: seq<Fact>)
    requires Ready(s, base) && f in base && f.ts <= lim && f.tool in s.tools
    requires forall p :: p in finals || p in base ==> p in ps
    ensures Lawful(s, ExpireRow(s, f, now, finals), base, ps, lim)
  {
    LawfulSelf(s, base, ps, lim);
    if !IsProof(f) {
      var forgotten := HasProof(s.facts, f, now) || !Unresolved(f) || Interrupted(f, finals);
      var s1 := if forgotten then s else Retain(s, f);
      if forgotten {
        if Unresolved(f) { ProofCovers(s.facts, f, now, finals, ps); }
      } else {
        RetainLawful(s, f, base, ps, lim);
      }
      forall x | x in s1.facts && !NotId(f.id)(x) ensures x == f { SameId(base, x, f); }
      DropLawful(s1, NotId(f.id), base, ps, lim);
      LawfulOn(s, s1, ExpireRow(s, f, now, finals), base, ps, lim);
    }
  }

  lemma ProofCovers(facts: seq<Fact>, f: Fact, now: real, finals: seq<Fact>, ps: seq<Fact>)
    requires forall p :: p in facts || p in finals ==> p in ps
    requires HasProof(facts, f, now) || Interrupted(f, finals)
    ensures CoveredIn(ps, f)
  {
    if HasProof(facts, f, now) {
      var i :| 0 <= i < |facts| && Proves(facts[i], f, now);
      assert facts[i] in facts && Covered(f, facts[i]);
    } else {
      var i :| 0 <= i < |finals| && finals[i].kind == Interrupt && Covered(f, finals[i]);
      assert finals[i] in finals && Covered(f, finals[i]);
    }
  }

  lemma {:induction false} ExpireRowsLawful(s: Store, rows: seq<Fact>, now: real, lim: real, finals: seq<Fact>,
                                            base: seq<Fact>, ps: seq<Fact>)
    requires Ready(s, base) && forall f :: f in rows ==> f in base && f.ts <= lim && f.tool in s.tools
    requires forall p :: p in finals || p in base ==> p in ps
    ensures Lawful(s, ExpireRows(s, rows, now, finals), base, ps, lim)
    decreases |rows|
  {
    LawfulSelf(s, base, ps, lim);
    if rows != [] {
      var s' := ExpireRow(s, rows[0], now, finals);
      assert rows[0] in rows;
      ExpireRowLawful(s, rows[0], now, lim, finals, base, ps);
      assert forall f :: f in rows[1..] ==> f in rows;
      ExpireRowsLawful(s', rows[1..], now, lim, finals, base, ps);
      LawfulOn(s, s', ExpireRows(s, rows, now, finals), base, ps, lim);
    }
  }

  // Expiry deletes an open fact only under a proof that covers it, or leaves it
  // remembered. What it holds of is the work of up to a time `lim`, which may lie
  // as far behind the clock as what expires.
  lemma ExpireLawful(s: Store, now: real, lim: real, threshold: real, finals: seq<Fact>, base: seq<Fact>,
                     ps: seq<Fact>)
    requires Ready(s, base) && now - threshold <= lim <= now
    requires forall p :: p in finals || p in base ==> p in ps
    ensures Lawful(s, Expire(s, now, threshold, finals), base, ps, lim)
  {
    var ends := Kept(s.facts, IsEnd());
    var s1 := ExpireEnds(s, ends, now);
    KeptMembers(s.facts, IsEnd());
    ExpireEndsLawful(s, ends, now, lim, base, ps);
    var proofs := Kept(s1.facts, OldInterrupt(now));
    var s2 := ExpireInterrupts(s1, proofs);
    KeptMembers(s1.facts, OldInterrupt(now));
    ExpireInterruptsLawful(s1, proofs, lim, base, ps);
    LawfulOn(s, s1, s2, base, ps, lim);
    KeptMembers(s2.facts, Old(now, threshold));
    ExpireRowsLawful(s2, Kept(s2.facts, Old(now, threshold)), now, lim, finals, base, ps);
    LawfulOn(s, s2, Expire(s, now, threshold, finals), base, ps, lim);
  }

  lemma MakeRoomLawful(s: Store, now: real, lim: real, freshness: real, finals: seq<Fact>, base: seq<Fact>,
                       ps: seq<Fact>)
    requires Ready(s, base) && now - freshness <= lim <= now
    requires forall p :: p in finals || p in base ==> p in ps
    ensures Lawful(s, MakeRoom(s, now, freshness, finals), base, ps, lim)
  {
    LawfulSelf(s, base, ps, lim);
    if |s.facts| >= FACT_CAP {
      var s1 := Expire(s, now, freshness, finals);
      ExpireLawful(s, now, lim, freshness, finals, base, ps);
      if |s1.facts| >= FACT_CAP {
        forall f | f in s1.facts && !OutlivesFinals(finals)(f) && Unresolved(f) ensures CoveredIn(ps, f) {
          ProofCovers([], f, now, finals, ps);
        }
        DropLawful(s1, OutlivesFinals(finals), base, ps, lim);
        LawfulOn(s, s1, MakeRoom(s, now, freshness, finals), base, ps, lim);
      }
    }
  }

  // A stored final gives up the summary of its scope, or what its session left.
  lemma ConcludedOrderly(s: Store, f: Fact, stored: Fact, now: real, lim: real, base: seq<Fact>, ps: seq<Fact>)
    requires lim <= now
    requires Ready(s, base) && f in ps && stored in base && stored in ps && SameFact(stored, f)
    ensures Orderly(s, Concluded(s, f, stored, now), base, ps, lim)
  {
    LawfulSelf(s, base, ps, lim);
    var s1 := if FreshInterrupt(now)(f) then s.(summaries := s.summaries - {ScopeOf(f)}) else s;
    if FreshInterrupt(now)(f) { InterruptOrderly(s, f, now, lim, base, ps); }
    var s2 := if f.kind == VerifiedEnd then Collapse(s1, stored, now) else s1;
    if f.kind == VerifiedEnd { CollapseLawful(s1, stored, now, lim, base, ps); }
    assert Orderly(s, s2, base, ps, lim);
    if f.kind == Interrupt || f.kind == SessionEnd || f.kind == StopAttempt {
      RaisedLawful(s2, f, base, ps, lim);
      OrderlyOn(s, s2, Concluded(s, f, stored, now), base, ps, lim);
    }
  }

  // A final lifts its tool's watermark to its own time at least.
  lemma FinalsRaiseWatermark(s: Store, f: Fact, stored: Fact, now: real)
    requires f.tool in s.tools && SameFact(stored, f)
    requires f.kind == Interrupt || f.kind == SessionEnd || f.kind == StopAttempt || f.kind == VerifiedEnd
    ensures var t := Concluded(s, f, stored, now).tools[f.tool];
      t.watermark.Some? && t.watermark.value >= if f.kind == VerifiedEnd then stored.ts else f.ts
  {
  }

  lemma InterruptOrderly(s: Store, f: Fact, now: real, lim: real, base: seq<Fact>, ps: seq<Fact>)
    requires lim <= now
    requires Ready(s, base) && f in ps && FreshInterrupt(now)(f)
    ensures Orderly(s, s.(summaries := s.summaries - {ScopeOf(f)}), base, ps, lim)
  {
    var s' := s.(summaries := s.summaries - {ScopeOf(f)});
    SmallerMap(s.summaries, s'.summaries);
    assert SummariesCarried(s, s', ps) by { assert RetiredBy(f, ScopeOf(f)); }
    assert FactsCarried(s, s', ps, lim) by {
      forall x | Unresolved(x) && Followed(s, x, lim) ensures Followed(s', x, lim) || Discharged(ps, x) {
        InterruptedScope(s, f, now, lim, ps, x);
      }
    }
  }

  lemma InterruptedScope(s: Store, f: Fact, now: real, lim: real, ps: seq<Fact>, x: Fact)
    requires lim <= now
    requires f in ps && FreshInterrupt(now)(f) && Followed(s, x, lim)
    ensures Followed(s.(summaries := s.summaries - {ScopeOf(f)}), x, lim) || Discharged(ps, x)
  {
    if x !in s.facts && ScopeOf(x) == ScopeOf(f) { assert Covered(x, f) || Sweeps(f, x); }
  }

  lemma RaisedLawful(s: Store, f: Fact, base: seq<Fact>, ps: seq<Fact>, lim: real)
    requires Ready(s, base)
    ensures Lawful(s, s.(tools := Raised(s.tools, f.tool, f.ts)), base, ps, lim)
  {
    assert Raised(s.tools, f.tool, f.ts).Keys == s.tools.Keys;
  }

  // ----- one call -----------------------------------------------------------

  ghost predicate Inv(s: Store) {
    && Ready(s, s.facts)
    && |s.facts| <= 2048 && |s.summaries| <= 256 && |s.tools| <= 64
    && !TooSpread(s.facts)
  }

  // The fact offered is stored, or a stored proof already covers it.
  ghost predicate Settled(s: Store, f: Fact, now: real) {
    (exists x :: x in s.facts && SameFact(x, f)) || HasProof(s.facts, f, now)
  }

  ghost predicate FromFacts(s': Store, s: Store, f: Fact) {
    forall x :: x in s'.facts ==> x in s.facts || x == f
  }

  lemma SpreadShrinks(a: seq<Fact>, b: seq<Fact>)
    requires forall f :: f in b ==> f in a
    ensures TooSpread(b) ==> TooSpread(a)
  {
    SmallerSet(Sessions(a), Sessions(b));
    SmallerSet(Turns(a), Turns(b));
  }

  lemma NewToolCarries(s: Store, tool: string, ps: seq<Fact>, lim: real)
    requires tool !in s.tools && Ready(s, s.facts)
    ensures var s' := s.(tools := s.tools[tool := Tool(None, {})]);
      Ready(s', s.facts) && Carries(s, s', ps, lim) && |s'.tools| == |s.tools| + 1
  {
    assert s.tools[tool := Tool(None, {})].Keys == s.tools.Keys + {tool};
    assert |s.tools| == |s.tools.Keys|;
  }

  lemma WatermarkKeeps(s: Store, f: Fact, stored: Fact, now: real)
    ensures forall x :: x in Concluded(s, f, stored, now).facts ==> x in s.facts
    ensures forall x :: x in s.facts && (f.kind == VerifiedEnd ==> x.kind == VerifiedEnd) ==>
      x in Concluded(s, f, stored, now).facts
  {
    KeptMembers(s.facts, OutlivesEnd(stored));
  }

  // A stored fact has its final effects.
  lemma ConcludedKeeps(s: Store, f: Fact, stored: Fact, now: real, lim: real, ps: seq<Fact>)
    requires lim <= now
    requires Inv(s) && stored in s.facts && SameFact(stored, f)
    requires f in ps && forall x :: x in s.facts ==> x in ps
    ensures var s' := Concluded(s, f, stored, now);
      Inv(s') && Carries(s, s', ps, lim) && Settled(s', f, now) && forall x :: x in s'.facts ==> x in s.facts
  {
    var s' := Concluded(s, f, stored, now);
    ConcludedOrderly(s, f, stored, now, lim, s.facts, ps);
    WatermarkKeeps(s, f, stored, now);
    SpreadShrinks(s.facts, s'.facts);
    assert |s'.tools| == |s'.tools.Keys| && |s.tools| == |s.tools.Keys|;
    assert stored in s'.facts;
  }

  lemma InsertedCarries(s: Store, f: Fact, ps: seq<Fact>, lim: real)
    requires Ready(s, s.facts) && !HasId(s.facts, f.id) && f.tool in s.tools
      && (f.kind == VerifiedEnd ==> f.session != "")
    ensures var s' := s.(facts := s.facts + [f]); Ready(s', s'.facts) && Carries(s, s', ps, lim)
  {
  }

  lemma NoIdStays(a: seq<Fact>, b: seq<Fact>, id: string)
    requires !HasId(a, id) && forall f :: f in b ==> f in a
    ensures !HasId(b, id)
  {
    forall i | 0 <= i < |b| ensures b[i].id != id { assert b[i] in a; }
  }

  lemma PlacedKeeps(s: Store, f: Fact, now: real, lim: real, freshness: real, finals: seq<Fact>, ps: seq<Fact>)
    requires now - freshness <= lim <= now
    requires Inv(s) && f.tool in s.tools && (f.kind == VerifiedEnd ==> f.session != "")
    requires f in ps && forall x :: x in s.facts || x in finals ==> x in ps
    requires Placed(s, f, now, freshness, finals).Ok?
    ensures var s' := Placed(s, f, now, freshness, finals).value;
      Inv(s') && Carries(s, s', ps, lim) && Settled(s', f, now) && FromFacts(s', s, f)
  {
    LawfulSelf(s, s.facts, ps, lim);
    var existing := Find(s.facts, f.id);
    if f.kind != VerifiedEnd && HasProof(s.facts, f, now) {
    } else if existing.Some? {
      ConcludedKeeps(s, f, existing.value, now, lim, ps);
    } else {
      var s1 := MakeRoom(s, now, freshness, finals);
      MakeRoomLawful(s, now, lim, freshness, finals, s.facts, ps);
      LawfulIsOrderly(s, s1, s.facts, ps, lim);
      NoIdStays(s.facts, s1.facts, f.id);
      var s2 := s1.(facts := s1.facts + [f]);
      InsertedCarries(s1, f, ps, lim);
      assert |s1.tools| == |s1.tools.Keys| && |s.tools| == |s.tools.Keys|;
      ConcludedKeeps(s2, f, f, now, lim, ps);
      CarriesOn(s, s1, s2, ps, lim);
      CarriesOn(s, s2, Concluded(s2, f, f, now), ps, lim);
    }
  }

  // An admission keeps the store within its bounds and loses no open work of up to
  // `lim` except under a proof, stored or offered.
  lemma AdmitKeeps(s: Store, f: Fact, now: real, lim: real, freshness: real)
    requires now - freshness <= lim <= now && now - RETENTION <= lim
    requires Inv(s) && (f.kind == VerifiedEnd ==> f.session != "")
    requires Admit(s, f, now, freshness).Ok?
    ensures var s' := Admit(s, f, now, freshness).value;
      Inv(s') && Carries(s, s', s.facts + [f], lim) && Settled(s', f, now) && FromFacts(s', s, f)
  {
    var finals, ps := Finals(s, f, now), s.facts + [f];
    KeptMembers(s.facts, FreshInterrupt(now));
    var s1 := WithTool(s, f.tool);
    LawfulSelf(s, s.facts, ps, lim);
    if f.tool !in s.tools { NewToolCarries(s, f.tool, ps, lim); }
    var s2 := Expire(s1, now, RETENTION, finals);
    ExpireLawful(s1, now, lim, RETENTION, finals, s.facts, ps);
    LawfulIsOrderly(s1, s2, s.facts, ps, lim);
    CarriesOn(s, s1, s2, ps, lim);
    SpreadShrinks(s.facts, s2.facts);
    assert |s2.tools| == |s2.tools.Keys| && |s1.tools| == |s1.tools.Keys|;
    PlacedKeeps(s2, f, now, lim, freshness, finals, ps);
    CarriesOn(s, s2, Admit(s, f, now, freshness).value, ps, lim);
  }

  lemma StoreBitCarries(s: Store, t: string, ps: seq<Fact>, lim: real)
    requires Ready(s, s.facts) && t in s.tools
    ensures var s' := s.(tools := Marked(s.tools, t, OfStore));
      Ready(s', s.facts) && Carries(s, s', ps, lim) && |s'.tools| == |s.tools| && OfStore in s'.tools[t].overflow
  {
    var s' := s.(tools := Marked(s.tools, t, OfStore));
    assert s'.tools.Keys == s.tools.Keys;
    assert |s'.tools| == |s'.tools.Keys| && |s.tools| == |s.tools.Keys|;
  }

  // A refusal leaves every stored fact in place, forgets nothing whatever proofs
  // there are, and remembers the refused fact.
  lemma RefusedKeeps(s: Store, f: Fact, lim: real)
    requires Inv(s)
    ensures var s' := Refused(s, f);
      && Inv(s') && s'.facts == s.facts && Carries(s, s', [], lim)
      && (Remembered(s', f.(kind := Unknown)) || exists t :: t in s'.tools && OfStore in s'.tools[t].overflow)
  {
    if f.tool !in s.tools && |s.tools| >= TOOL_CAP {
      StoreBitCarries(s, FirstTool(s.tools.Keys), [], lim);
    } else {
      var s1 := WithTool(s, f.tool);
      LawfulSelf(s, s.facts, [], lim);
      if f.tool !in s.tools { NewToolCarries(s, f.tool, [], lim); }
      RetainLawful(s1, f.(kind := Unknown), s.facts, [], lim);
      LawfulIsOrderly(s1, Refused(s, f), s.facts, [], lim);
      CarriesOn(s, s1, Refused(s, f), [], lim);
      assert |Refused(s, f).tools| == |Refused(s, f).tools.Keys| && |s1.tools| == |s1.tools.Keys|;
    }
  }

  // ----- what a proof clears, and what it leaves ----------------------------

  // A verified end takes exactly the facts it covers, other ends excepted, and up
  // to a day from its time exactly the summaries of its session.
  lemma CollapseClears(s: Store, p: Fact, now: real)
    ensures var s' := Collapse(s, p, now);
      && (forall f :: f in s'.facts <==> f in s.facts && (f.kind == VerifiedEnd || !Covered(f, p)))
      && (forall k :: k in s'.summaries <==> k in s.summaries && !(now <= p.ts + RETENTION && OfSession(k, p)))
      && (forall k :: k in s'.summaries ==> s'.summaries[k] == s.summaries[k])
  {
    KeptMembers(s.facts, OutlivesEnd(p));
  }

  predicate OfSession(k: Scope, p: Fact) {
    (k.tool, k.session, k.pid, k.created) == (p.tool, p.session, p.pid, p.created)
  }

  // Once a verified end is admitted, it is stored, no other work it covers is,
  // and up to a day from its time no summary of its session.
  lemma AdmittedEndClears(s: Store, w: Fact, now: real, freshness: real)
    requires Inv(s) && w.kind == VerifiedEnd && w.session != "" && 0.0 <= freshness <= RETENTION
    requires Admit(s, w, now, freshness).Ok?
    ensures var s' := Admit(s, w, now, freshness).value; exists p :: EndStored(s', p, w) && EndCleared(s', p, now)
  {
    ExpiredIsReady(s, w, now);
    var s2 := Expire(WithTool(s, w.tool), now, RETENTION, Finals(s, w, now));
    var existing := Find(s2.facts, w.id);
    if existing.Some? {
      ConcludedEndClears(s2, w, existing.value, now);
    } else {
      var s3 := MakeRoom(s2, now, freshness, Finals(s, w, now));
      ConcludedEndClears(s3.(facts := s3.facts + [w]), w, w, now);
    }
  }

  ghost predicate EndStored(s: Store, p: Fact, w: Fact) {
    p in s.facts && SameFact(p, w)
  }

  ghost predicate EndCleared(s: Store, p: Fact, now: real) {
    && (forall f :: f in s.facts ==> f.kind == VerifiedEnd || !Covered(f, p))
    && (now <= p.ts + RETENTION ==> forall k :: k in s.summaries ==> !OfSession(k, p))
  }

  lemma ConcludedEndClears(s: Store, w: Fact, stored: Fact, now: real)
    requires w.kind == VerifiedEnd && stored in s.facts && SameFact(stored, w)
    ensures var s' := Concluded(s, w, stored, now); EndStored(s', stored, w) && EndCleared(s', stored, now)
  {
    CollapseClears(s, stored, now);
  }

  lemma ExpiredIsReady(s: Store, f: Fact, now: real)
    requires Inv(s)
    ensures Ready(Expire(WithTool(s, f.tool), now, RETENTION, Finals(s, f, now)), s.facts)
  {
    var finals := Finals(s, f, now);
    KeptMembers(s.facts, FreshInterrupt(now));
    if f.tool !in s.tools { NewToolCarries(s, f.tool, [], now); }
    ExpireLawful(WithTool(s, f.tool), now, now, RETENTION, finals, s.facts, s.facts + finals);
  }

  // An interrupt in time takes the summary of its scope away, and no other, unless
  // a stored proof covers the interrupt itself.
  lemma ConcludedInterruptClears(s: Store, f: Fact, stored: Fact, now: real)
    requires f.kind == Interrupt
    ensures var s' := Concluded(s, f, stored, now);
      && s'.facts == s.facts
      && (forall k :: k in s'.summaries <==> k in s.summaries && !(-5.0 <= now - f.ts <= 86400.0 && k == ScopeOf(f)))
      && (forall k :: k in s'.summaries ==> s'.summaries[k] == s.summaries[k])
  {
  }

  // The verified ends among the rows end the fact.
  predicate EndedBy(ends: seq<Fact>, f: Fact, now: real) {
    exists i :: 0 <= i < |ends| && ends[i].kind == VerifiedEnd && ends[i].ts <= now + SKEW && Covered(f, ends[i])
  }

  // An interrupt among the rows, about to expire, takes the fact with it.
  predicate TakenBy(proofs: seq<Fact>, f: Fact) {
    exists i :: 0 <= i < |proofs| && Covered(f, proofs[i])
  }

  predicate PastEnd(f: Fact, now: real) {
    f.kind == VerifiedEnd && now > f.ts + RETENTION
  }

  lemma EndedByNext(ends: seq<Fact>, f: Fact, now: real)
    requires ends != [] && ends[0].kind == VerifiedEnd
    ensures EndedBy(ends, f, now) <==> (ends[0].ts <= now + SKEW && Covered(f, ends[0])) || EndedBy(ends[1..], f, now)
  {
    if EndedBy(ends[1..], f, now) {
      var i :| 0 <= i < |ends[1..]| && ends[1..][i].ts <= now + SKEW && Covered(f, ends[1..][i])
        && ends[1..][i].kind == VerifiedEnd;
      assert ends[i + 1] == ends[1..][i];
    }
    if EndedBy(ends, f, now) && !(ends[0].ts <= now + SKEW && Covered(f, ends[0])) {
      var i :| 0 <= i < |ends| && ends[i].kind == VerifiedEnd && ends[i].ts <= now + SKEW && Covered(f, ends[i]);
      assert ends[1..][i - 1] == ends[i];
    }
  }

  lemma DeletedMembers(facts: seq<Fact>, p: Fact, base: seq<Fact>)
    requires Unique(base) && p in base && forall f :: f in facts ==> f in base
    ensures forall f :: f in Deleted(facts, p.id) <==> f in facts && f != p
  {
    KeptMembers(facts, NotId(p.id));
    forall f | f in facts && f.id == p.id ensures f == p { SameId(base, f, p); }
  }

  lemma ExpireEndFacts(s: Store, p: Fact, now: real, base: seq<Fact>, f: Fact)
    requires Ready(s, base) && p in base && p.kind == VerifiedEnd
    ensures f in ExpireEnd(s, p, now).facts <==>
      && f in s.facts && !(f == p && PastEnd(p, now))
      && (f.kind == VerifiedEnd || !(p.ts <= now + SKEW && Covered(f, p)))
  {
    var s1 := Collapse(s, p, now);
    KeptMembers(s.facts, OutlivesEnd(p));
    DeletedMembers(s1.facts, p, base);
  }

  lemma {:induction false} ExpireEndsFacts(s: Store, ends: seq<Fact>, now: real, base: seq<Fact>, f: Fact)
    requires Ready(s, base) && forall p :: p in ends ==> p in base && p.kind == VerifiedEnd
    ensures f in ExpireEnds(s, ends, now).facts <==>
      f in s.facts && !(f in ends && PastEnd(f, now)) && (f.kind == VerifiedEnd || !EndedBy(ends, f, now))
    decreases |ends|
  {
    if ends != [] {
      assert ends[0] in ends;
      ExpireEndFacts(s, ends[0], now, base, f);
      ExpireEndLawful(s, ends[0], now, now, base, base);
      ExpireEndsFacts(ExpireEnd(s, ends[0], now), ends[1..], now, base, f);
      EndedByNext(ends, f, now);
      assert f in ends <==> f == ends[0] || f in ends[1..];
    }
  }

  lemma TakenByNext(proofs: seq<Fact>, f: Fact)
    requires proofs != []
    ensures TakenBy(proofs, f) <==> Covered(f, proofs[0]) || TakenBy(proofs[1..], f)
  {
    if TakenBy(proofs[1..], f) {
      var i :| 0 <= i < |proofs[1..]| && Covered(f, proofs[1..][i]);
      assert proofs[i + 1] == proofs[1..][i];
    }
    if TakenBy(proofs, f) && !Covered(f, proofs[0]) {
      var i :| 0 <= i < |proofs| && Covered(f, proofs[i]);
      assert proofs[1..][i - 1] == proofs[i];
    }
  }

  lemma {:induction false} ExpireInterruptsFacts(s: Store, proofs: seq<Fact>, base: seq<Fact>, f: Fact)
    requires Ready(s, base) && forall p :: p in proofs ==> p in base && p.kind == Interrupt
    ensures f in ExpireInterrupts(s, proofs).facts <==>
      f in s.facts && f !in proofs && (IsProof(f) || !TakenBy(proofs, f))
    decreases |proofs|
  {
    if proofs != [] {
      var p := proofs[0];
      assert p in proofs;
      KeptMembers(s.facts, OutlivesInterrupt(p));
      DeletedMembers(Kept(s.facts, OutlivesInterrupt(p)), p, base);
      ExpireInterruptLawful(s, p, 0.0, base, base);
      ExpireInterruptsFacts(ExpireInterrupt(s, p), proofs[1..], base, f);
      TakenByNext(proofs, f);
      assert f in proofs <==> f == p || f in proofs[1..];
    }
  }

  lemma RowFacts(s: Store, r: Fact, now: real, finals: seq<Fact>, base: seq<Fact>, f: Fact)
    requires Ready(s, base) && r in base
    ensures f in ExpireRow(s, r, now, finals).facts <==> f in s.facts && !(f == r && !IsProof(r))
  {
    if !IsProof(r) { DeletedMembers(s.facts, r, base); }
  }

  lemma {:induction false} ExpireRowsFacts(s: Store, rows: seq<Fact>, now: real, finals: seq<Fact>, base: seq<Fact>,
                                           f: Fact)
    requires Ready(s, base) && forall r :: r in rows ==> r in base && r.tool in s.tools && r.ts <= now
    ensures f in ExpireRows(s, rows, now, finals).facts <==> f in s.facts && !(f in rows && !IsProof(f))
    decreases |rows|
  {
    if rows != [] {
      var s' := ExpireRow(s, rows[0], now, finals);
      assert rows[0] in rows;
      RowFacts(s, rows[0], now, finals, base, f);
      ExpireRowLawful(s, rows[0], now, now, finals, base, base + finals);
      ExpireRowsFacts(s', rows[1..], now, finals, base, f);
      assert f in rows <==> f == rows[0] || f in rows[1..];
    }
  }

  // Whether a fact outlives an expiry: a verified end and an interrupt up to a day,
  // anything else up to the threshold; and unless it is a verified end itself, no
  // verified end in the past covers it, and no interrupt that expires with it.
  ghost predicate Survives(facts: seq<Fact>, f: Fact, now: real, threshold: real) {
    match f.kind
    case VerifiedEnd => now <= f.ts + RETENTION
    case Interrupt => !EndedIn(facts, f, now) && f.ts >= now - RETENTION
    case _ => !EndedIn(facts, f, now) && !TakenIn(facts, f, now) && f.ts >= now - threshold
  }

  ghost predicate EndedIn(facts: seq<Fact>, f: Fact, now: real) {
    exists v :: v in facts && v.kind == VerifiedEnd && v.ts <= now + SKEW && Covered(f, v)
  }

  ghost predicate TakenIn(facts: seq<Fact>, f: Fact, now: real) {
    exists p :: p in facts && p.kind == Interrupt && p.ts < now - RETENTION && !EndedIn(facts, p, now) && Covered(f, p)
  }

  lemma EndedInMeans(facts: seq<Fact>, f: Fact, now: real)
    ensures EndedBy(Kept(facts, IsEnd()), f, now) <==> EndedIn(facts, f, now)
  {
    var ends := Kept(facts, IsEnd());
    KeptMembers(facts, IsEnd());
    if EndedBy(ends, f, now) {
      var i :| 0 <= i < |ends| && ends[i].kind == VerifiedEnd && ends[i].ts <= now + SKEW && Covered(f, ends[i]);
      assert ends[i] in ends;
    }
    if EndedIn(facts, f, now) {
      var v :| v in facts && v.kind == VerifiedEnd && v.ts <= now + SKEW && Covered(f, v);
      assert v in ends;
      var i :| 0 <= i < |ends| && ends[i] == v;
    }
  }

  lemma FirstStage(s: Store, now: real, f: Fact)
    requires Ready(s, s.facts)
    ensures f in ExpireEnds(s, Kept(s.facts, IsEnd()), now).facts <==>
      f in s.facts && !PastEnd(f, now) && (f.kind == VerifiedEnd || !EndedIn(s.facts, f, now))
  {
    var ends := Kept(s.facts, IsEnd());
    KeptMembers(s.facts, IsEnd());
    ExpireEndsFacts(s, ends, now, s.facts, f);
    EndedInMeans(s.facts, f, now);
  }

  lemma TakenInMeans(s: Store, s1: Store, now: real, f: Fact)
    requires Ready(s, s.facts) && s1 == ExpireEnds(s, Kept(s.facts, IsEnd()), now)
    ensures TakenBy(Kept(s1.facts, OldInterrupt(now)), f) <==> TakenIn(s.facts, f, now)
  {
    var proofs := Kept(s1.facts, OldInterrupt(now));
    KeptMembers(s1.facts, OldInterrupt(now));
    if TakenBy(proofs, f) {
      var i :| 0 <= i < |proofs| && Covered(f, proofs[i]);
      assert proofs[i] in proofs;
      FirstStage(s, now, proofs[i]);
    }
    if TakenIn(s.facts, f, now) {
      var p :| p in s.facts && p.kind == Interrupt && p.ts < now - RETENTION && !EndedIn(s.facts, p, now) &&
        Covered(f, p);
      FirstStage(s, now, p);
      assert p in proofs;
      var i :| 0 <= i < |proofs| && proofs[i] == p;
    }
  }

  // An expiry leaves exactly the facts that outlive it.
  lemma ExpireLeavesExactly(s: Store, now: real, threshold: real, finals: seq<Fact>, f: Fact)
    requires Ready(s, s.facts) && threshold >= 0.0
    ensures f in Expire(s, now, threshold, finals).facts <==> f in s.facts && Survives(s.facts, f, now, threshold)
  {
    var ends := Kept(s.facts, IsEnd());
    var s1 := ExpireEnds(s, ends, now);
    KeptMembers(s.facts, IsEnd());
    ExpireEndsLawful(s, ends, now, now, s.facts, s.facts);
    FirstStage(s, now, f);
    TakenInMeans(s, s1, now, f);
    LastStages(s1, now, threshold, finals, s.facts, f);
  }

  lemma LastStages(s: Store, now: real, threshold: real, finals: seq<Fact>, base: seq<Fact>, f: Fact)
    requires Ready(s, base) && threshold >= 0.0
    ensures var proofs := Kept(s.facts, OldInterrupt(now));
      var s' := ExpireInterrupts(s, proofs);
      f in ExpireRows(s', Kept(s'.facts, Old(now, threshold)), now, finals).facts <==>
        && f in s.facts && !(f.kind == Interrupt && f.ts < now - RETENTION)
        && (IsProof(f) || (!TakenBy(proofs, f) && f.ts >= now - threshold))
  {
    var proofs := Kept(s.facts, OldInterrupt(now));
    var s' := ExpireInterrupts(s, proofs);
    KeptMembers(s.facts, OldInterrupt(now));
    ExpireInterruptsLawful(s, proofs, now, base, base);
    ExpireInterruptsFacts(s, proofs, base, f);
    KeptMembers(s'.facts, Old(now, threshold));
    ExpireRowsFacts(s', Kept(s'.facts, Old(now, threshold)), now, finals, base, f);
  }

  // Making room leaves everything while there is room, else what outlives the
  // freshness, and when that is not enough only what no interrupt has ended.
  lemma MakeRoomLeavesExactly(s: Store, now: real, freshness: real, finals: seq<Fact>, f: Fact)
    requires Ready(s, s.facts) && freshness >= 0.0
    ensures f in MakeRoom(s, now, freshness, finals).facts <==>
      && f in s.facts
      && (|s.facts| < FACT_CAP
          || (&& Survives(s.facts, f, now, freshness)
              && (|Expire(s, now, freshness, finals).facts| < FACT_CAP
                  || f.kind == Interrupt || !Interrupted(f, finals))))
  {
    ExpireLeavesExactly(s, now, freshness, finals, f);
    KeptMembers(Expire(s, now, freshness, finals).facts, OutlivesFinals(finals));
  }

  // Where there is room for its tool, for one fact more and for its session and
  // turn, a fact of a new id is admitted.
  lemma RoomAdmits(s: Store, f: Fact, now: real, freshness: real)
    requires Inv(s) && 0.0 <= freshness <= RETENTION && (f.kind == VerifiedEnd ==> f.session != "")
    requires f.tool in s.tools || |s.tools| < 64
    requires |s.facts| < 2048 && !TooSpread(s.facts + [f]) && !HasId(s.facts, f.id)
    ensures Admit(s, f, now, freshness).Ok? && Settled(Admit(s, f, now, freshness).value, f, now)
  {
    var s2 := Expire(WithTool(s, f.tool), now, RETENTION, Finals(s, f, now));
    ExpiredShrinks(s, f, now);
    NoIdStays(s.facts, s2.facts, f.id);
    assert Find(s2.facts, f.id).None?;
    forall x | x in s2.facts + [f] ensures x in s.facts + [f] {}
    SpreadShrinks(s.facts + [f], s2.facts + [f]);
    AdmitKeeps(s, f, now, now, freshness);
  }

  lemma ExpiredShrinks(s: Store, f: Fact, now: real)
    requires Inv(s)
    ensures var s2 := Expire(WithTool(s, f.tool), now, RETENTION, Finals(s, f, now));
      |s2.facts| <= |s.facts| && forall x :: x in s2.facts ==> x in s.facts
  {
    var finals := Finals(s, f, now);
    KeptMembers(s.facts, FreshInterrupt(now));
    if f.tool !in s.tools { NewToolCarries(s, f.tool, [], now); }
    ExpireLawful(WithTool(s, f.tool), now, now, RETENTION, finals, s.facts, s.facts + finals);
  }

  // A new verified end that finds room is added to what an expiry leaves and then
  // clears what it covers.
  lemma NewEndCollapses(s: Store, w: Fact, now: real, freshness: real)
    requires Inv(s) && w.kind == VerifiedEnd && |s.facts| < FACT_CAP && !HasId(s.facts, w.id)
    requires Admit(s, w, now, freshness).Ok?
    ensures var s2 := Expire(WithTool(s, w.tool), now, RETENTION, Finals(s, w, now));
      Admit(s, w, now, freshness).value == Collapse(s2.(facts := s2.facts + [w]), w, now)
  {
    var s2 := Expire(WithTool(s, w.tool), now, RETENTION, Finals(s, w, now));
    ExpiredShrinks(s, w, now);
    NoIdStays(s.facts, s2.facts, w.id);
    assert Find(s2.facts, w.id).None?;
  }

  lemma WithToolIsReady(s: Store, tool: string)
    requires Inv(s)
    ensures WithTool(s, tool).facts == s.facts && Ready(WithTool(s, tool), s.facts)
  {
    if tool !in s.tools { NewToolCarries(s, tool, [], 0.0); }
  }

  // So it leaves, besides itself, exactly what outlives the expiry and it does not
  // cover.
  lemma AdmittedEndLeaves(s: Store, w: Fact, now: real, freshness: real, f: Fact)
    requires Inv(s) && w.kind == VerifiedEnd && |s.facts| < FACT_CAP && !HasId(s.facts, w.id)
    requires Admit(s, w, now, freshness).Ok?
    ensures f in Admit(s, w, now, freshness).value.facts <==>
      f == w || (f in s.facts && Survives(s.facts, f, now, RETENTION) && (f.kind == VerifiedEnd || !Covered(f, w)))
  {
    var s1, finals := WithTool(s, w.tool), Finals(s, w, now);
    var s2 := Expire(s1, now, RETENTION, finals);
    NewEndCollapses(s, w, now, freshness);
    WithToolIsReady(s, w.tool);
    ExpireLeavesExactly(s1, now, RETENTION, finals, f);
    CollapseClears(s2.(facts := s2.facts + [w]), w, now);
  }

  lemma SameSpread(a: seq<Fact>, b: seq<Fact>, x: Fact, f: Fact)
    requires x in a && SameFact(x, f) && forall y :: y in b ==> y in a
    ensures TooSpread(b + [f]) ==> TooSpread(a)
  {
    assert x.session == f.session && x.turn == f.turn;
    assert forall t :: t in Sessions(b + [f]) ==> t in Sessions(a);
    assert forall t :: t in Turns(b + [f]) ==> t in Turns(a);
    SmallerSet(Sessions(a), Sessions(b + [f]));
    SmallerSet(Turns(a), Turns(b + [f]));
  }

  function Elements(a: seq<Fact>): set<Fact> {
    set f | f in a
  }

  lemma {:induction false} ElementsCount(a: seq<Fact>)
    ensures |Elements(a)| <= |a| && (Unique(a) ==> |Elements(a)| == |a|)
  {
    if a != [] {
      ElementsCount(a[1..]);
      assert a == [a[0]] + a[1..];
      assert Elements(a) == {a[0]} + Elements(a[1..]);
      if Unique(a) {
        assert Unique(a[1..]);
        assert forall i :: 0 <= i < |a[1..]| ==> a[1..][i] == a[i + 1];
        assert a[0] !in Elements(a[1..]);
      }
    }
  }

  lemma OneFewer(a: seq<Fact>, b: seq<Fact>, x: Fact)
    requires Unique(b) && x in a && x !in b && forall f :: f in b ==> f in a
    ensures |b| < |a|
  {
    ElementsCount(a);
    ElementsCount(b);
    assert x !in Elements(b);
    assert forall f :: f in Elements(b) + {x} ==> f in Elements(a);
    assert |Elements(b) + {x}| == |b| + 1;
    SmallerSet(Elements(a), Elements(b) + {x});
  }

  // A fact that is stored already is admitted again, even in a full store.
  lemma RepeatIsAdmitted(s: Store, f: Fact, x: Fact, now: real, freshness: real)
    requires Inv(s) && x in s.facts && SameFact(x, f) && 0.0 <= freshness
    ensures Admit(s, f, now, freshness).Ok?
  {
    var finals := Finals(s, f, now);
    var s2 := Expire(WithTool(s, f.tool), now, RETENTION, finals);
    ExpiredShrinks(s, f, now);
    ExpiredIsReady(s, f, now);
    assert f.tool in s.tools && x.id == f.id;
    if Find(s2.facts, f.id).Some? {
      SameId(s.facts, x, Find(s2.facts, f.id).value);
      SpreadShrinks(s.facts, s2.facts);
    } else {
      if x in s2.facts { StoredHasId(s2.facts, x); }
      OneFewer(s.facts, s2.facts, x);
      SameSpread(s.facts, s2.facts, x, f);
      assert MakeRoom(s2, now, freshness, finals) == s2;
    }
  }

  // An admitted fact that is neither stored already nor covered is stored as it is.
  lemma NewFactIsStored(s: Store, f: Fact, now: real, freshness: real)
    requires Inv(s) && Admit(s, f, now, freshness).Ok? && f.kind != VerifiedEnd && !HasId(s.facts, f.id)
    requires !HasProof(Admit(s, f, now, freshness).value.facts, f, now) && 0.0 <= freshness <= RETENTION
    ensures f in Admit(s, f, now, freshness).value.facts
  {
    AdmitKeeps(s, f, now, now, freshness);
    var s' := Admit(s, f, now, freshness).value;
    var x :| x in s'.facts && SameFact(x, f);
    if x in s.facts { StoredHasId(s.facts, x); }
  }

  lemma StoredHasId(facts: seq<Fact>, x: Fact)
    requires x in facts
    ensures HasId(facts, x.id)
  {
    var i :| 0 <= i < |facts| && facts[i] == x;
  }

  // ----- whole runs ---------------------------------------------------------

  datatype Outcome = Published | Limited | Failed

  // What a hook may offer: a session end is verified only by the monitor.
  predicate WellFormed(f: Fact) {
    && f.kind != VerifiedEnd && f.tool != "" && f.created >= 0.0
    && |f.id| == 64 && forall c :: c in f.id ==> '0' <= c <= '9' || 'a' <= c <= 'f'
  }

  predicate IsWitness(f: Fact) {
    f.kind == VerifiedEnd && f.session != "" && f.actor == PARENT && f.pid > 0 && f.created > 0.0
  }

  predicate AllWitnesses(ws: seq<Fact>) {
    forall i :: 0 <= i < |ws| ==> IsWitness(ws[i])
  }

  // A callback already linked to the visible state keeps its first time.
  function Linked(f: Fact, first: Option<real>): Fact {
    if first.Some? then f.(ts := first.value) else f
  }

  ghost function Publish(s: Store, f: Fact, first: Option<real>, freshness: real): (Store, Outcome) {
    if !WellFormed(f) || !(0.0 < freshness <= RETENTION) then (s, Failed)
    else
      match Admit(s, Linked(f, first), f.ts, freshness)
      case Ok(s') => (s', Published)
      case Err(Capacity) => (Refused(s, f), Limited)
      case Err(Inconsistent) => (s, Failed)
  }

  const WRITER_FRESHNESS := 300.0

  function AdmitAll(s: Store, ws: seq<Fact>, now: real): Result<Store, Refusal>
    decreases |ws|
  {
    if ws == [] then Ok(s)
    else
      match Admit(s, ws[0], now, WRITER_FRESHNESS)
      case Err(e) => Err(e)
      case Ok(s') => AdmitAll(s', ws[1..], now)
  }

  // Session ends the monitor has verified are admitted together or not at all.
  function Confirm(s: Store, ws: seq<Fact>, now: real): (Store, Outcome) {
    if !AllWitnesses(ws) then (s, Failed)
    else
      match AdmitAll(s, ws, now)
      case Ok(s') => (s', Published)
      case Err(_) => (s, Failed)
  }

  const HEX_DIGITS: string := "0123456789abcdef"

  // A hook may not verify a session end, must name its tool and process and a hash,
  // and is believed for at most a day.
  ghost predicate Offered(f: Fact, freshness: real) {
    && f.kind != VerifiedEnd && f.tool != "" && f.created >= 0.0
    && |f.id| == 64 && (forall c :: c in f.id ==> c in HEX_DIGITS)
    && freshness > 0.0 && freshness <= 86400.0
  }

  lemma HexDigits(c: char)
    ensures c in HEX_DIGITS <==> '0' <= c <= '9' || 'a' <= c <= 'f'
  {
    if '0' <= c <= '9' { assert HEX_DIGITS[c as int - '0' as int] == c; }
    if 'a' <= c <= 'f' { assert HEX_DIGITS[10 + c as int - 'a' as int] == c; }
  }

  // Anything else is refused and changes nothing; what is offered is published,
  // limited or inconsistent as its admission says.
  lemma PublishAnswers(s: Store, f: Fact, first: Option<real>, freshness: real)
    ensures !Offered(f, freshness) ==> Publish(s, f, first, freshness) == (s, Failed)
    ensures Offered(f, freshness) ==>
              var (admitted, (s', outcome)) :=
                (Admit(s, Linked(f, first), f.ts, freshness), Publish(s, f, first, freshness));
              && (outcome == Published <==> admitted == Ok(s'))
              && (outcome == Limited <==> admitted == Err(Capacity))
              && (outcome == Failed <==> admitted == Err(Inconsistent))
              && (outcome == Failed ==> s' == s)
  {
    forall c: char ensures c in HEX_DIGITS <==> '0' <= c <= '9' || 'a' <= c <= 'f' { HexDigits(c); }
  }

  // Only ends of the parent's own session, with the process named, are confirmed;
  // whatever else is among them, nothing changes.
  lemma ConfirmAnswers(s: Store, ws: seq<Fact>, now: real)
    ensures (exists w :: w in ws && (w.kind != VerifiedEnd || w.session == "" || w.actor != PARENT || w.pid < 1
                                     || w.created <= 0.0)) ==>
              Confirm(s, ws, now) == (s, Failed)
    ensures Confirm(s, ws, now).1 != Published ==> Confirm(s, ws, now) == (s, Failed)
  {
  }

  // One such end is admitted with a freshness of five minutes.
  lemma OneConfirmed(s: Store, w: Fact, now: real)
    requires w.kind == VerifiedEnd && w.session != "" && w.actor == PARENT && w.pid >= 1 && w.created > 0.0
    ensures Confirm(s, [w], now) ==
      match Admit(s, w, now, 300.0) case Ok(s') => (s', Published) case Err(_) => (s, Failed)
  {
    var admitted := Admit(s, w, now, 300.0);
    assert [w][1..] == [];
    if admitted.Ok? { assert AdmitAll(admitted.value, [], now) == admitted; }
    assert AdmitAll(s, [w], now) == if admitted.Ok? then AdmitAll(admitted.value, [], now) else admitted;
  }

  datatype Action =
    | PublishFact(fact: Fact, first: Option<real>, freshness: real)
    | ConfirmEnds(witnesses: seq<Fact>, now: real)

  ghost function Act(s: Store, a: Action): Store {
    match a
    case PublishFact(f, first, freshness) => Publish(s, f, first, freshness).0
    case ConfirmEnds(ws, now) => Confirm(s, ws, now).0
  }

  function Clock(a: Action): real {
    match a
    case PublishFact(f, _, _) => f.ts
    case ConfirmEnds(_, now) => now
  }

  // The facts an action gets into the store: none when it is refused or fails.
  ghost function Admitted(s: Store, a: Action): seq<Fact> {
    match a
    case PublishFact(f, first, freshness) =>
      if Publish(s, f, first, freshness).1 == Published then [Linked(f, first)] else []
    case ConfirmEnds(ws, now) => if Confirm(s, ws, now).1 == Published then ws else []
  }

  ghost function Run(s: Store, acts: seq<Action>): Store
    decreases |acts|
  {
    if acts == [] then s else Run(Act(s, acts[0]), acts[1..])
  }

  ghost function AllAdmitted(s: Store, acts: seq<Action>): seq<Fact>
    decreases |acts|
  {
    if acts == [] then [] else Admitted(s, acts[0]) + AllAdmitted(Act(s, acts[0]), acts[1..])
  }

  lemma CarriesMore(s: Store, s': Store, ps: seq<Fact>, more: seq<Fact>, now: real)
    requires Carries(s, s', ps, now) && forall p :: p in ps ==> p in more
    ensures Carries(s, s', more, now)
  {
    forall f | Unresolved(f) && Followed(s, f, now) ensures Followed(s', f, now) || Discharged(more, f) {
      assert Followed(s', f, now) || Discharged(ps, f);
    }
    forall k | k in s.summaries
      ensures (k in s'.summaries && s.summaries[k] <= s'.summaries[k]) || Retired(more, k)
    {
      assert (k in s'.summaries && s.summaries[k] <= s'.summaries[k]) || Retired(ps, k);
    }
  }

  // From s to s' all is in order, and only facts of `ps` are stored.
  ghost predicate Advances(s: Store, s': Store, ps: seq<Fact>, lim: real) {
    Inv(s') && Carries(s, s', ps, lim) && forall x :: x in s'.facts ==> x in ps
  }

  lemma WitnessKeeps(s: Store, w: Fact, now: real, lim: real)
    requires Inv(s) && IsWitness(w) && now - WRITER_FRESHNESS <= lim <= now
    requires Admit(s, w, now, WRITER_FRESHNESS).Ok?
    ensures Advances(s, Admit(s, w, now, WRITER_FRESHNESS).value, s.facts + [w], lim)
  {
    AdmitKeeps(s, w, now, lim, WRITER_FRESHNESS);
  }

  lemma NothingKeeps(s: Store, lim: real)
    requires Inv(s)
    ensures Advances(s, s, s.facts, lim)
  {
    LawfulSelf(s, s.facts, s.facts, lim);
  }

  lemma AdvancesOn(a: Store, b: Store, c: Store, ws: seq<Fact>, lim: real)
    requires ws != [] && Advances(a, b, a.facts + [ws[0]], lim) && Advances(b, c, b.facts + ws[1..], lim)
    ensures Advances(a, c, a.facts + ws, lim)
  {
    var all := a.facts + ws;
    assert forall x :: x in b.facts + ws[1..] ==> x in all;
    CarriesMore(a, b, a.facts + [ws[0]], all, lim);
    CarriesMore(b, c, b.facts + ws[1..], all, lim);
    CarriesOn(a, b, c, all, lim);
  }

  lemma FirstWitness(s: Store, ws: seq<Fact>, now: real)
    requires ws != [] && AllWitnesses(ws) && AdmitAll(s, ws, now).Ok?
    ensures IsWitness(ws[0]) && AllWitnesses(ws[1..]) && Admit(s, ws[0], now, WRITER_FRESHNESS).Ok?
    ensures AdmitAll(Admit(s, ws[0], now, WRITER_FRESHNESS).value, ws[1..], now) == AdmitAll(s, ws, now)
  {
  }

  lemma {:induction false} AdmitAllKeeps(s: Store, ws: seq<Fact>, now: real, lim: real)
    requires Inv(s) && AllWitnesses(ws) && now - WRITER_FRESHNESS <= lim <= now && AdmitAll(s, ws, now).Ok?
    ensures Advances(s, AdmitAll(s, ws, now).value, s.facts + ws, lim)
    decreases |ws|
  {
    if ws == [] {
      assert s.facts + [] == s.facts;
      NothingKeeps(s, lim);
    } else {
      FirstWitness(s, ws, now);
      var s1 := Admit(s, ws[0], now, WRITER_FRESHNESS).value;
      WitnessKeeps(s, ws[0], now, lim);
      AdmitAllKeeps(s1, ws[1..], now, lim);
      AdvancesOn(s, s1, AdmitAll(s, ws, now).value, ws, lim);
    }
  }

  // The action gives up no row for its age that is not at least `d` old.
  predicate Spares(a: Action, d: real) {
    match a
    case PublishFact(_, _, freshness) => 0.0 < freshness <= RETENTION ==> d <= freshness
    case ConfirmEnds(_, _) => d <= WRITER_FRESHNESS
  }

  lemma PublishKeeps(s: Store, f: Fact, first: Option<real>, freshness: real, lim: real)
    requires Inv(s) && WellFormed(f) && 0.0 < freshness <= RETENTION && f.ts - freshness <= lim <= f.ts
    requires Admit(s, Linked(f, first), f.ts, freshness).Ok?
    ensures Advances(s, Admit(s, Linked(f, first), f.ts, freshness).value, s.facts + [Linked(f, first)], lim)
  {
    AdmitKeeps(s, Linked(f, first), f.ts, lim, freshness);
  }

  lemma LimitKeeps(s: Store, f: Fact, lim: real)
    requires Inv(s)
    ensures Advances(s, Refused(s, f), s.facts, lim)
  {
    RefusedKeeps(s, f, lim);
    CarriesMore(s, Refused(s, f), [], s.facts, lim);
  }

  lemma ActPublishKeeps(s: Store, f: Fact, first: Option<real>, freshness: real, lim: real)
    requires Inv(s) && lim <= f.ts && Spares(PublishFact(f, first, freshness), f.ts - lim)
    ensures var (s', outcome) := Publish(s, f, first, freshness);
      Advances(s, s', s.facts + (if outcome == Published then [Linked(f, first)] else []), lim)
  {
    assert s.facts + [] == s.facts;
    if !WellFormed(f) || !(0.0 < freshness <= RETENTION) {
      NothingKeeps(s, lim);
    } else {
      match Admit(s, Linked(f, first), f.ts, freshness) {
        case Ok(_) => PublishKeeps(s, f, first, freshness, lim);
        case Err(Capacity) => LimitKeeps(s, f, lim);
        case Err(Inconsistent) => NothingKeeps(s, lim);
      }
    }
  }

  lemma ActConfirmKeeps(s: Store, ws: seq<Fact>, now: real, lim: real)
    requires Inv(s) && now - WRITER_FRESHNESS <= lim <= now
    ensures var (s', outcome) := Confirm(s, ws, now);
      Advances(s, s', s.facts + (if outcome == Published then ws else []), lim)
  {
    assert s.facts + [] == s.facts;
    if AllWitnesses(ws) && AdmitAll(s, ws, now).Ok? {
      AdmitAllKeeps(s, ws, now, lim);
    } else {
      NothingKeeps(s, lim);
    }
  }

  lemma ActKeeps(s: Store, a: Action, lim: real)
    requires Inv(s) && lim <= Clock(a) && Spares(a, Clock(a) - lim)
    ensures Advances(s, Act(s, a), s.facts + Admitted(s, a), lim)
  {
    match a {
      case PublishFact(f, first, freshness) => ActPublishKeeps(s, f, first, freshness, lim);
      case ConfirmEnds(ws, now) => ActConfirmKeeps(s, ws, now, lim);
    }
  }

  // Over any run, on any clock: open work that was stored or remembered stays so,
  // unless a proof stored or admitted ended its scope or its session. Summaries
  // go only that way, and overflow bits never go.
  lemma {:induction false} RunsForgetNothing(s: Store, acts: seq<Action>)
    requires Inv(s)
    ensures Inv(Run(s, acts))
    ensures var (s', ps) := (Run(s, acts), s.facts + AllAdmitted(s, acts));
      && SummariesCarried(s, s', ps) && ToolsCarried(s, s')
      && forall f :: Unresolved(f) && Known(s, f) ==> Known(s', f) || Retired(ps, ScopeOf(f))
    decreases |acts|
  {
    var ps := s.facts + AllAdmitted(s, acts);
    if acts != [] {
      var s1, s2 := Act(s, acts[0]), Run(s, acts);
      ActKeeps(s, acts[0], Clock(acts[0]));
      CarriesMore(s, s1, s.facts + Admitted(s, acts[0]), ps, Clock(acts[0]));
      RunsForgetNothing(s1, acts[1..]);
      RetiredMore(s1.facts + AllAdmitted(s1, acts[1..]), ps);
      forall f | Unresolved(f) && Known(s, f) ensures Known(s2, f) || Retired(ps, ScopeOf(f)) {
        TrackedOn(s, s1, f, ps, Clock(acts[0]));
      }
    }
  }

  ghost predicate Known(s: Store, f: Fact) {
    f in s.facts || Remembered(s, f)
  }

  lemma RetiredMore(ps: seq<Fact>, more: seq<Fact>)
    requires forall p :: p in ps ==> p in more
    ensures forall k :: Retired(ps, k) ==> Retired(more, k)
  {
  }

  lemma TrackedOn(s: Store, s': Store, f: Fact, ps: seq<Fact>, lim: real)
    requires Carries(s, s', ps, lim) && Unresolved(f) && Known(s, f)
    ensures Known(s', f) || Retired(ps, ScopeOf(f))
  {
    if f in s.facts {
      assert Followed(s, f, lim);
      if CoveredIn(ps, f) {
        var p :| p in ps && IsProof(p) && Covered(f, p);
        assert RetiredBy(p, ScopeOf(f));
      } else if Discharged(ps, f) {
        var p :| p in ps && Sweeps(p, f);
        assert RetiredBy(p, ScopeOf(f));
      }
    }
  }

  // A proof that may take a summary away covers a parent's work summed up in it
  // exactly up to a day from its own time.
  lemma RetiringCovers(p: Fact, f: Fact)
    requires RetiredBy(p, ScopeOf(f)) && (p.kind == VerifiedEnd ==> p.session != "")
    ensures Covered(f, p) <==> f.ts <= p.ts + RETENTION && (f.actor == PARENT || p.kind == VerifiedEnd)
    ensures f.ts <= p.ts + RETENTION ==> Covered(f, p) || Sweeps(p, f)
  {
  }

  // The fact lies more than a day after a proof of its scope or session.
  ghost predicate Outrun(ps: seq<Fact>, f: Fact) {
    exists p :: p in ps && RetiredBy(p, ScopeOf(f)) && f.ts > p.ts + RETENTION
  }

  ghost predicate EndsNamed(ps: seq<Fact>) {
    forall p :: p in ps && p.kind == VerifiedEnd ==> p.session != ""
  }

  lemma {:induction false} AdmittedNamed(s: Store, acts: seq<Action>)
    ensures EndsNamed(AllAdmitted(s, acts))
    decreases |acts|
  {
    if acts != [] {
      AdmittedNamed(Act(s, acts[0]), acts[1..]);
      forall p | p in Admitted(s, acts[0]) && p.kind == VerifiedEnd ensures p.session != "" {
        if acts[0].ConfirmEnds? {
          var i :| 0 <= i < |acts[0].witnesses| && acts[0].witnesses[i] == p;
          assert IsWitness(acts[0].witnesses[i]);
        }
      }
    }
  }

  // The interrupts the hooks build name the parent.
  ghost predicate ParentInterrupts(ps: seq<Fact>) {
    forall p :: p in ps && p.kind == Interrupt ==> p.actor == PARENT
  }

  // On any clock: what a run lets go of, it lets go under a proof that covers it,
  // in the sweep of another actor's interrupt, or when it lies more than a day
  // after the proof.
  lemma RunsLetGo(s: Store, acts: seq<Action>, f: Fact)
    requires Inv(s) && Unresolved(f) && Known(s, f)
    ensures var ps := s.facts + AllAdmitted(s, acts);
      && (Known(Run(s, acts), f) || Discharged(ps, f) || Outrun(ps, f))
      && (ParentInterrupts(ps) ==> Known(Run(s, acts), f) || CoveredIn(ps, f) || Outrun(ps, f))
  {
    var ps := s.facts + AllAdmitted(s, acts);
    RunsForgetNothing(s, acts);
    AdmittedNamed(s, acts);
    if !Known(Run(s, acts), f) {
      var p :| p in ps && RetiredBy(p, ScopeOf(f));
      RetiringCovers(p, f);
    }
  }

  // No clock is more than `d` behind an earlier one, and nothing younger than
  // that is given up for its age: hooks stamp their facts before they wait for
  // the store.
  ghost predicate OutOfOrderBy(acts: seq<Action>, d: real) {
    && (forall i, j :: 0 <= i < j < |acts| ==> Clock(acts[i]) - d <= Clock(acts[j]))
    && (forall i :: 0 <= i < |acts| ==> Spares(acts[i], d))
  }

  ghost predicate Behind(lim: real, acts: seq<Action>) {
    forall i :: 0 <= i < |acts| ==> lim <= Clock(acts[i])
  }

  // While clocks are out of order by no more than that, the proof is one that
  // covers the fact itself, or the interrupt of another actor than the parent, of
  // exactly the fact's scope and at most a day older.
  lemma RunsDischargeUnderProof(s: Store, acts: seq<Action>, f: Fact, d: real)
    requires Inv(s) && d >= 0.0 && OutOfOrderBy(acts, d)
    requires Unresolved(f) && (f in s.facts || (Remembered(s, f) && Behind(f.ts, acts)))
    ensures Known(Run(s, acts), f) || Discharged(s.facts + AllAdmitted(s, acts), f)
  {
    if acts != [] { RunsTrack(s, acts, f, d, if f in s.facts then Clock(acts[0]) - d else f.ts); }
  }

  lemma {:induction false} RunsTrack(s: Store, acts: seq<Action>, f: Fact, d: real, lim: real)
    requires Inv(s) && d >= 0.0 && OutOfOrderBy(acts, d) && Behind(lim, acts)
    requires Unresolved(f) && Followed(s, f, lim)
    ensures Known(Run(s, acts), f) || Discharged(s.facts + AllAdmitted(s, acts), f)
    decreases |acts|
  {
    if acts != [] {
      var ps, rest, s1 := s.facts + AllAdmitted(s, acts), acts[1..], Act(s, acts[0]);
      var next := if lim < Clock(acts[0]) - d then Clock(acts[0]) - d else lim;
      ActKeeps(s, acts[0], next);
      StepTracks(s, s1, f, s.facts + Admitted(s, acts[0]), ps, next);
      RestInOrder(acts, d, lim);
      if Followed(s1, f, next) {
        RunsTrack(s1, rest, f, d, next);
        DischargedMore(s1.facts + AllAdmitted(s1, rest), ps);
      }
    }
  }

  lemma StepTracks(s: Store, s': Store, f: Fact, ps: seq<Fact>, more: seq<Fact>, lim: real)
    requires Carries(s, s', ps, lim) && Unresolved(f) && Followed(s, f, lim) && forall p :: p in ps ==> p in more
    ensures Followed(s', f, lim) || Discharged(more, f)
  {
    DischargedMore(ps, more);
  }

  lemma RestInOrder(acts: seq<Action>, d: real, lim: real)
    requires acts != [] && OutOfOrderBy(acts, d) && Behind(lim, acts)
    ensures OutOfOrderBy(acts[1..], d) && Behind(Clock(acts[0]) - d, acts[1..]) && Behind(lim, acts[1..])
  {
    var rest := acts[1..];
    forall i | 0 <= i < |rest| ensures rest[i] == acts[i + 1] {}
    forall i, j | 0 <= i < j < |rest| ensures Clock(rest[i]) - d <= Clock(rest[j]) {
      assert rest[i] == acts[i + 1] && rest[j] == acts[j + 1];
    }
  }

  lemma DischargedMore(ps: seq<Fact>, more: seq<Fact>)
    requires forall p :: p in ps ==> p in more
    ensures forall f :: Discharged(ps, f) ==> Discharged(more, f)
  {
  }

  // With interrupts that name the parent, nothing but a proof that covers the fact
  // lets it go then.
  lemma HookRunsCover(s: Store, acts: seq<Action>, f: Fact, d: real)
    requires Inv(s) && d >= 0.0 && OutOfOrderBy(acts, d)
    requires Unresolved(f) && (f in s.facts || (Remembered(s, f) && Behind(f.ts, acts)))
    requires ParentInterrupts(s.facts + AllAdmitted(s, acts))
    ensures Known(Run(s, acts), f) || CoveredIn(s.facts + AllAdmitted(s, acts), f)
  {
    RunsDischargeUnderProof(s, acts, f, d);
  }

  // An interrupt of another actor, which the store admits too, lets go of old work
  // that no proof covers.
  lemma OtherActorSweeps(x: Fact, p: Fact)
    requires x.kind == Busy && Complete(x) && x.actor != PARENT && x.id != p.id
    requires p.kind == Interrupt && ScopeOf(p) == ScopeOf(x) && p.ts > x.ts + RETENTION
    ensures var s := Store(map[x.tool := Tool(None, {})], [x], map[]);
      && Inv(s) && Followed(s, x, p.ts) && !CoveredIn(s.facts + [p], x)
      && Admit(s, p, p.ts, WRITER_FRESHNESS) == Ok(Store(map[x.tool := Tool(Some(p.ts), {})], [p], map[]))
  {
    var now, s := p.ts, Store(map[x.tool := Tool(None, {})], [x], map[]);
    var s2 := Store(s.tools, [], map[ScopeOf(x) := {Active}]);
    OneFactInv(s, x);
    OneFactExpires(s, x, now, [p]);
    KeptOne(x, FreshInterrupt(now));
    assert Finals(s, p, now) == [p];
    OneFact(p);
    assert [] + [p] == [p];
    SweptSummary(s2, x, p);
    assert Admit(s, p, now, WRITER_FRESHNESS) == Placed(s2, p, now, WRITER_FRESHNESS, [p]);
  }

  // When the clock steps back by more than a day, so does the parent's own
  // interrupt: a later fact of the tool has had the work summed up, and the
  // interrupt that takes the summary away lies too far before it to cover it.
  lemma SteppedBackLoses(x: Fact, y: Fact, p: Fact)
    requires x.kind == Busy && Complete(x) && x.actor == PARENT
    requires y.kind == Presence && y.tool == x.tool && y.ts > x.ts + RETENTION
    requires p.kind == Interrupt && ScopeOf(p) == ScopeOf(x) && x.ts > p.ts + RETENTION && p.id != y.id
    ensures var tools := map[x.tool := Tool(None, {})];
      var s, s1 := Store(tools, [x], map[]), Store(tools, [y], map[ScopeOf(x) := {Active}]);
      && Inv(s) && Admit(s, y, y.ts, WRITER_FRESHNESS) == Ok(s1)
      && Admit(s1, p, p.ts, WRITER_FRESHNESS) == Ok(Store(map[x.tool := Tool(Some(p.ts), {})], [y, p], map[]))
      && !Discharged([x, y, p], x)
  {
    var s := Store(map[x.tool := Tool(None, {})], [x], map[]);
    OneFactInv(s, x);
    SummedUpBy(s, x, y);
    SweptEarly(Store(s.tools, [y], map[ScopeOf(x) := {Active}]), x, y, p);
    TooLateFor(x, y, p);
  }

  lemma TooLateFor(x: Fact, y: Fact, p: Fact)
    requires x.kind == Busy && x.actor == PARENT && y.kind == Presence && p.kind == Interrupt && x.ts > p.ts + RETENTION
    ensures !Discharged([x, y, p], x)
  {
    assert forall q :: q in [x, y, p] ==> q == x || q == y || q == p;
  }

  lemma SummedUpBy(s: Store, x: Fact, y: Fact)
    requires s == Store(map[x.tool := Tool(None, {})], [x], map[]) && x.kind == Busy && Complete(x)
    requires y.kind == Presence && y.tool == x.tool && y.ts > x.ts + RETENTION
    ensures Admit(s, y, y.ts, WRITER_FRESHNESS) == Ok(Store(s.tools, [y], map[ScopeOf(x) := {Active}]))
  {
    var s2 := Store(s.tools, [], map[ScopeOf(x) := {Active}]);
    KeptOne(x, FreshInterrupt(y.ts));
    assert Finals(s, y, y.ts) == [];
    OneFactExpires(s, x, y.ts, []);
    OneFact(y);
    assert [] + [y] == [y];
    assert Placed(s2, y, y.ts, WRITER_FRESHNESS, []) == Ok(s2.(facts := [y]));
  }

  lemma SweptEarly(s: Store, x: Fact, y: Fact, p: Fact)
    requires s == Store(map[x.tool := Tool(None, {})], [y], map[ScopeOf(x) := {Active}])
    requires y.kind == Presence && y.ts >= p.ts && p.kind == Interrupt && ScopeOf(p) == ScopeOf(x) && p.id != y.id
    ensures Admit(s, p, p.ts, WRITER_FRESHNESS) == Ok(Store(map[x.tool := Tool(Some(p.ts), {})], [y, p], map[]))
  {
    var now := p.ts;
    KeptOne(y, FreshInterrupt(now));
    assert Finals(s, p, now) == [p];
    KeptOne(y, IsEnd());
    KeptOne(y, OldInterrupt(now));
    KeptOne(y, Old(now, RETENTION));
    assert Expire(s, now, RETENTION, [p]) == s;
    TwoFacts(y, p);
    assert [y] + [p] == [y, p];
    SweptSummary(s, x, p);
  }

  // The interrupt is stored, and the only summary is the one it takes away.
  lemma SweptSummary(s: Store, x: Fact, p: Fact)
    requires p.kind == Interrupt && ScopeOf(p) == ScopeOf(x)
    requires s.tools == map[x.tool := Tool(None, {})] && s.summaries == map[ScopeOf(x) := {Active}]
    requires |s.facts| < FACT_CAP && !TooSpread(s.facts + [p]) && !HasId(s.facts, p.id) && !HasProof(s.facts, p, p.ts)
    ensures Placed(s, p, p.ts, WRITER_FRESHNESS, [p]) ==
      Ok(Store(map[x.tool := Tool(Some(p.ts), {})], s.facts + [p], map[]))
  {
    var s' := s.(facts := s.facts + [p]);
    assert Concluded(s', p, p, p.ts).summaries == map[];
    assert Concluded(s', p, p, p.ts).tools == map[x.tool := Tool(Some(p.ts), {})];
  }

  lemma OneFact(f: Fact)
    ensures !TooSpread([f])
  {
    TwoFacts(f, f);
    SpreadShrinks([f, f], [f]);
  }

  lemma TwoFacts(f: Fact, g: Fact)
    ensures !TooSpread([f, g])
  {
    assert Sessions([f, g]) <= {f.session, g.session};
    SmallerSet({f.session, g.session}, Sessions([f, g]));
    assert Turns([f, g]) <= {(f.session, f.turn), (g.session, g.turn)};
    SmallerSet({(f.session, f.turn), (g.session, g.turn)}, Turns([f, g]));
  }

  lemma OneFactInv(s: Store, x: Fact)
    requires s == Store(map[x.tool := Tool(None, {})], [x], map[]) && x.kind == Busy
    ensures Inv(s)
  {
    OneFact(x);
    assert |s.tools| == |s.tools.Keys| && s.tools.Keys == {x.tool};
  }

  lemma OneFactExpires(s: Store, x: Fact, now: real, finals: seq<Fact>)
    requires x.kind == Busy && Complete(x) && now > x.ts + RETENTION && !Interrupted(x, finals)
    requires s.facts == [x] && s.summaries == map[]
    ensures Expire(s, now, RETENTION, finals) == Store(s.tools, [], map[ScopeOf(x) := {Active}])
  {
    KeptOne(x, IsEnd());
    KeptOne(x, OldInterrupt(now));
    KeptOne(x, Old(now, RETENTION));
    KeptOne(x, NotId(x.id));
    assert Kept(s.facts, IsEnd()) == [] && Kept(s.facts, OldInterrupt(now)) == [];
    assert Kept(s.facts, Old(now, RETENTION)) == [x] && [x][1..] == [];
    assert Expire(s, now, RETENTION, finals) == ExpireRows(s, [x], now, finals);
    assert Retain(s, x).summaries == map[ScopeOf(x) := {Active}];
    assert !HasProof(s.facts, x, now);
  }

  // ----- the store itself ---------------------------------------------------

  lemma FirstIsUnique(names: set<string>, a: string, b: string)
    requires IsFirst(names, a) && IsFirst(names, b)
    ensures a == b
  {
    LeqOrders(a, b);
  }

  method FirstName(names: set<string>) returns (t: string)
    requires names != {}
    ensures t == FirstTool(names)
  {
    t :| t in names;
    var left := names - {t};
    LeqOrders(t, t);
    while left != {}
      invariant t in names && left <= names
      invariant forall n :: n in names ==> n in left || Leq(t, n)
      decreases |left|
    {
      var n :| n in left;
      LeqOrders(n, t);
      if Leq(n, t) {
        forall m | m in names && m !in left ensures Leq(n, m) { LeqTransitive(n, t, m); }
        t := n;
      }
      left := left - {n};
    }
    FirstIsUnique(names, t, FirstTool(names));
  }

  lemma NextEnd(s: Store, ends: seq<Fact>, i: nat, now: real, base: seq<Fact>)
    requires Ready(s, base) && i < |ends| && ends[i] in base && ends[i].kind == VerifiedEnd
    ensures ExpireEnds(s, ends[i..], now) == ExpireEnds(ExpireEnd(s, ends[i], now), ends[i + 1..], now)
    ensures Ready(ExpireEnd(s, ends[i], now), base)
  {
    assert ends[i..][1..] == ends[i + 1..];
    ExpireEndLawful(s, ends[i], now, now, base, base);
  }

  lemma NextInterrupt(s: Store, proofs: seq<Fact>, i: nat, now: real, base: seq<Fact>)
    requires Ready(s, base) && i < |proofs| && proofs[i] in base && proofs[i].kind == Interrupt
    ensures ExpireInterrupts(s, proofs[i..]) == ExpireInterrupts(ExpireInterrupt(s, proofs[i]), proofs[i + 1..])
    ensures Ready(ExpireInterrupt(s, proofs[i]), base)
  {
    assert proofs[i..][1..] == proofs[i + 1..];
    ExpireInterruptLawful(s, proofs[i], now, base, base);
  }

  lemma PublishKeepsInv(s: Store, f: Fact, first: Option<real>, freshness: real)
    requires Inv(s)
    ensures Inv(Publish(s, f, first, freshness).0)
  {
    ActKeeps(s, PublishFact(f, first, freshness), f.ts);
  }

  function RefusalOf(r: Result<Store, Refusal>): Option<Refusal> {
    match r
    case Ok(_) => None
    case Err(e) => Some(e)
  }

  lemma PublishByRefusal(s: Store, f: Fact, first: Option<real>, freshness: real)
    requires WellFormed(f) && 0.0 < freshness <= RETENTION
    ensures var admitted := Admit(s, Linked(f, first), f.ts, freshness);
            Publish(s, f, first, freshness) ==
              match RefusalOf(admitted)
              case None => (admitted.value, Published)
              case Some(Capacity) => (Refused(s, f), Limited)
              case Some(Inconsistent) => (s, Failed)
  {
  }

  class ActivityStore {
    var tools: map<string, Tool>
    var facts: seq<Fact>
    var summaries: map<Scope, set<Reason>>

    constructor ()
      ensures Inv(State()) && State() == Store(map[], [], map[])
    {
      tools, facts, summaries := map[], [], map[];
    }

    ghost function State(): Store
      reads this
    {
      Store(tools, facts, summaries)
    }

    // Deletes, one by one, the rows that fail a test.
    method DeleteRows(test: Fact -> bool)
      requires Unique(facts)
      modifies this`facts
      ensures facts == Kept(old(facts), test)
    {
      var rows := facts;
      var i := 0;
      while i < |rows|
        invariant 0 <= i <= |rows|
        invariant facts == Kept(rows[..i], test) + rows[i..]
      {
        RowDone(rows, test, i);
        if !test(rows[i]) { facts := Deleted(facts, rows[i].id); }
        i := i + 1;
      }
      assert rows[..i] == rows;
    }

    method CollapseVerified(proof: Fact, now: real)
      requires Unique(facts)
      modifies this
      ensures State() == Collapse(old(State()), proof, now)
    {
      DeleteRows(OutlivesEnd(proof));
      if now <= proof.ts + RETENTION {
        summaries := map k | k in summaries && !EndsScope(proof, k) :: summaries[k];
      }
      tools := Raised(tools, proof.tool, proof.ts);
    }

    method ProofFor(f: Fact, now: real) returns (r: Option<Fact>)
      ensures r.Some? <==> HasProof(facts, f, now)
      ensures r.Some? ==> r.value in facts && Proves(r.value, f, now)
    {
      var i := 0;
      while i < |facts|
        invariant 0 <= i <= |facts|
        invariant forall k :: 0 <= k < i ==> !Proves(facts[k], f, now)
      {
        if Proves(facts[i], f, now) { return Some(facts[i]); }
        i := i + 1;
      }
      return None;
    }

    method RetainUnknown(f: Fact)
      modifies this
      ensures State() == Retain(old(State()), f)
    {
      if !Complete(f) {
        tools := Marked(tools, f.tool, OfTool);
        return;
      }
      var k, reason := ScopeOf(f), ReasonFor(f.kind);
      if k in summaries {
        summaries := summaries[k := summaries[k] + {reason}];
        return;
      }
      if |summaries| >= SUMMARY_CAP {
        tools := Marked(tools, f.tool, OfTool);
        return;
      }
      summaries := summaries[k := {reason}];
    }

    method ExpireOneEnd(proof: Fact, now: real)
      requires Unique(facts)
      modifies this
      ensures State() == ExpireEnd(old(State()), proof, now)
    {
      if proof.ts > now + SKEW { return; }
      CollapseVerified(proof, now);
      if now > proof.ts + RETENTION { facts := Deleted(facts, proof.id); }
    }

    method ExpireVerified(now: real, ghost base: seq<Fact>)
      requires Ready(State(), base)
      modifies this
      ensures State() == ExpireEnds(old(State()), Kept(old(facts), IsEnd()), now)
    {
      var ends := Kept(facts, IsEnd());
      KeptMembers(facts, IsEnd());
      var i := 0;
      while i < |ends|
        invariant 0 <= i <= |ends|
        invariant Ready(State(), base)
        invariant ExpireEnds(State(), ends[i..], now) == ExpireEnds(old(State()), ends, now)
      {
        NextEnd(State(), ends, i, now, base);
        ExpireOneEnd(ends[i], now);
        i := i + 1;
      }
    }

    method ExpireOneInterrupt(proof: Fact)
      requires Unique(facts)
      modifies this`facts
      ensures State() == ExpireInterrupt(old(State()), proof)
    {
      DeleteRows(OutlivesInterrupt(proof));
      facts := Deleted(facts, proof.id);
    }

    method ExpireOldInterrupts(now: real, ghost base: seq<Fact>)
      requires Ready(State(), base)
      modifies this`facts
      ensures State() == ExpireInterrupts(old(State()), Kept(old(facts), OldInterrupt(now)))
    {
      var proofs := Kept(facts, OldInterrupt(now));
      KeptMembers(facts, OldInterrupt(now));
      var i := 0;
      while i < |proofs|
        invariant 0 <= i <= |proofs|
        invariant Ready(State(), base)
        invariant ExpireInterrupts(State(), proofs[i..]) == ExpireInterrupts(old(State()), proofs)
      {
        NextInterrupt(State(), proofs, i, now, base);
        ExpireOneInterrupt(proofs[i]);
        i := i + 1;
      }
    }

    method ExpireOldFacts(now: real, threshold: real, finals: seq<Fact>, ghost base: seq<Fact>)
      requires Ready(State(), base) && threshold >= 0.0
      modifies this
      ensures State() == ExpireRows(old(State()), Kept(old(facts), Old(now, threshold)), now, finals)
    {
      var rows := Kept(facts, Old(now, threshold));
      var i := 0;
      while i < |rows|
        invariant 0 <= i <= |rows|
        invariant ExpireRows(State(), rows[i..], now, finals) == ExpireRows(old(State()), rows, now, finals)
      {
        var f := rows[i];
        assert rows[i..][0] == f && rows[i..][1..] == rows[i + 1..];
        if !IsProof(f) {
          var proof := ProofFor(f, now);
          if proof.None? && f.kind != Presence && f.kind != SessionEnd && !Interrupted(f, finals) {
            RetainUnknown(f);
          }
          facts := Deleted(facts, f.id);
        }
        i := i + 1;
      }
    }

    method ExpireFacts(now: real, threshold: real, finals: seq<Fact>, ghost base: seq<Fact>)
      requires Ready(State(), base) && threshold >= 0.0
      modifies this
      ensures State() == Expire(old(State()), now, threshold, finals)
      ensures Ready(State(), base)
    {
      ghost var s0, ps := State(), base + finals;
      ExpireLawful(s0, now, now, threshold, finals, base, ps);
      KeptMembers(facts, IsEnd());
      ExpireEndsLawful(s0, Kept(facts, IsEnd()), now, now, base, ps);
      ExpireVerified(now, base);
      ghost var s1 := State();
      KeptMembers(facts, OldInterrupt(now));
      ExpireInterruptsLawful(s1, Kept(facts, OldInterrupt(now)), now, base, ps);
      ExpireOldInterrupts(now, base);
      ExpireOldFacts(now, threshold, finals, base);
    }

    method RetainRefused(f: Fact)
      modifies this
      ensures State() == Refused(old(State()), f)
    {
      if f.tool !in tools {
        if |tools| >= TOOL_CAP {
          var t := FirstName(tools.Keys);
          tools := Marked(tools, t, OfStore);
          return;
        }
        tools := tools[f.tool := Tool(None, {})];
      }
      RetainUnknown(f.(kind := Unknown));
    }

    // Admits a fact; after a refusal the caller restores what was stored.
    method AdmitFact(f: Fact, now: real, freshness: real) returns (refusal: Option<Refusal>)
      requires Inv(State()) && freshness >= 0.0
      modifies this
      ensures refusal == RefusalOf(Admit(old(State()), f, now, freshness))
      ensures refusal.None? ==> State() == Admit(old(State()), f, now, freshness).value
    {
      ghost var base := facts;
      if f.tool !in tools {
        if |tools| >= TOOL_CAP { return Some(Capacity); }
        NewToolCarries(State(), f.tool, [], now);
        tools := tools[f.tool := Tool(None, {})];
      }
      var finals := Kept(facts, FreshInterrupt(now));
      if f.kind == Interrupt && InWindow(now, f.ts) { finals := finals + [f]; }
      assert State() == WithTool(old(State()), f.tool);
      assert finals == Finals(old(State()), f, now);
      ExpireFacts(now, RETENTION, finals, base);
      refusal := PlaceFact(f, now, freshness, finals, base);
    }

    method PlaceFact(f: Fact, now: real, freshness: real, finals: seq<Fact>, ghost base: seq<Fact>)
      returns (refusal: Option<Refusal>)
      requires Ready(State(), base) && freshness >= 0.0
      modifies this
      ensures refusal == RefusalOf(Placed(old(State()), f, now, freshness, finals))
      ensures refusal.None? ==> State() == Placed(old(State()), f, now, freshness, finals).value
    {
      var existing := Find(facts, f.id);
      if existing.Some? && !SameFact(existing.value, f) { return Some(Inconsistent); }
      var proof := ProofFor(f, now);
      if f.kind != VerifiedEnd && proof.Some? { return None; }
      if existing.None? {
        FreeSpace(now, freshness, finals, base);
        if |facts| >= FACT_CAP { return Some(Capacity); }
        NoIdStays(old(facts), facts, f.id);
        facts := facts + [f];
      }
      if TooSpread(facts) { return Some(Capacity); }
      Conclude(f, if existing.Some? then existing.value else f, now);
      return None;
    }

    method FreeSpace(now: real, freshness: real, finals: seq<Fact>, ghost base: seq<Fact>)
      requires Ready(State(), base) && freshness >= 0.0
      modifies this
      ensures State() == MakeRoom(old(State()), now, freshness, finals)
      ensures Unique(facts) && forall x :: x in facts ==> x in old(facts)
    {
      MakeRoomLawful(State(), now, now, freshness, finals, base, base + finals);
      if |facts| >= FACT_CAP {
        ExpireFacts(now, freshness, finals, base);
        if |facts| >= FACT_CAP { DeleteRows(OutlivesFinals(finals)); }
      }
    }

    method Conclude(f: Fact, stored: Fact, now: real)
      requires Unique(facts)
      modifies this
      ensures State() == Concluded(old(State()), f, stored, now)
    {
      if f.kind == Interrupt && InWindow(now, f.ts) { summaries := summaries - {ScopeOf(f)}; }
      if f.kind == VerifiedEnd { CollapseVerified(stored, now); }
      if f.kind == Interrupt || f.kind == SessionEnd || f.kind == StopAttempt {
        tools := Raised(tools, f.tool, f.ts);
      }
    }

    // Publishes a hook's fact, or the coverage of a refused one.
    method PublishHook(f: Fact, first: Option<real>, freshness: real) returns (outcome: Outcome)
      requires Inv(State())
      modifies this
      ensures (State(), outcome) == Publish(old(State()), f, first, freshness)
      ensures Inv(State())
    {
      PublishKeepsInv(State(), f, first, freshness);
      outcome := PublishUnderSavepoint(f, first, freshness);
    }

    method PublishUnderSavepoint(f: Fact, first: Option<real>, freshness: real) returns (outcome: Outcome)
      requires Inv(State())
      modifies this
      ensures (State(), outcome) == Publish(old(State()), f, first, freshness)
    {
      if !WellFormed(f) || !(0.0 < freshness <= RETENTION) { return Failed; }
      PublishByRefusal(State(), f, first, freshness);
      var refusal := AdmitOrRollBack(Linked(f, first), f.ts, freshness);
      if refusal.None? { return Published; }
      if refusal == Some(Inconsistent) { return Failed; }
      RetainRefused(f);
      return Limited;
    }

    method AdmitOrRollBack(f: Fact, now: real, freshness: real) returns (refusal: Option<Refusal>)
      requires Inv(State()) && freshness >= 0.0
      modifies this
      ensures refusal == RefusalOf(Admit(old(State()), f, now, freshness))
      ensures State() == if refusal.None? then Admit(old(State()), f, now, freshness).value else old(State())
    {
      var savepoint := Store(tools, facts, summaries);
      refusal := AdmitFact(f, now, freshness);
      if refusal.Some? { RollBack(savepoint); }
    }

    method RollBack(savepoint: Store)
      modifies this
      ensures State() == savepoint
    {
      tools, facts, summaries := savepoint.tools, savepoint.facts, savepoint.summaries;
    }

    // Admits the session ends the monitor verified, all or none.
    method ConfirmSessionEnds(ws: seq<Fact>, now: real) returns (outcome: Outcome)
      requires Inv(State())
      modifies this
      ensures (State(), outcome) == Confirm(old(State()), ws, now)
      ensures Inv(State())
    {
      if !AllWitnesses(ws) { return Failed; }
      var savepoint := Store(tools, facts, summaries);
      var i := 0;
      while i < |ws|
        invariant 0 <= i <= |ws|
        invariant Inv(State())
        invariant AdmitAll(State(), ws[i..], now) == AdmitAll(old(State()), ws, now)
      {
        assert ws[i..][0] == ws[i] && ws[i..][1..] == ws[i + 1..] && IsWitness(ws[i]);
        ghost var was := State();
        var refusal := AdmitFact(ws[i], now, WRITER_FRESHNESS);
        if refusal.Some? {
          RollBack(savepoint);
          return Failed;
        }
        AdmitKeeps(was, ws[i], now, now, WRITER_FRESHNESS);
        i := i + 1;
      }
      return Published;
    }
  }
}
