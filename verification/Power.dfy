// The power sampler: each sampled window of energy is added once to its bucket
// and once to its owner's counter, and intervals of a counter are exact sums.
module Power {
  import opened Wrappers

  const GAP_SECONDS := 15.0
  const BUCKET_SECONDS := 900
  const MAX_BUCKETS := 3360
  const OWNER_IDLE_SECONDS := 172800.0
  const PEAK_SAMPLES := 17280

  // ----- the model of one machine -------------------------------------------

  datatype Settings = Settings(tdp: Option<real>, idle: Option<real>, other: Option<real>,
                               efficiency: Option<real>, estimated: bool)

  datatype Model = Model(tdp: real, idle: real, other: real, efficiency: Option<real>, estimated: bool)

  // What the configuration accepts.
  predicate Accepted(c: Settings) {
    && (c.tdp.Some? ==> 0.0 <= c.tdp.value <= 2000.0)
    && (c.idle.Some? ==> 0.0 <= c.idle.value <= 2000.0)
    && (c.other.Some? ==> 0.0 <= c.other.value <= 2000.0)
    && (c.efficiency.Some? ==> 0.0 < c.efficiency.value <= 1.0)
    && (c.tdp.Some? && c.idle.Some? ==> c.idle.value <= c.tdp.value)
  }

  function Or(o: Option<real>, default: real): real {
    if o.Some? then o.value else default
  }

  function Least(x: real, y: real): real {
    if x < y then x else y
  }

  function Most(x: real, y: real): real {
    if x < y then y else x
  }

  function Resolve(c: Settings, darwin: bool): Model {
    var tdp := Or(c.tdp, if darwin then 20.0 else 65.0);
    var idle := Or(c.idle, if darwin then 3.0 else 10.0);
    Model(tdp, Least(idle, tdp), Or(c.other, if darwin then 5.0 else 35.0), c.efficiency, c.estimated)
  }

  function Utilisation(percent: Option<real>): (u: real)
    ensures 0.0 <= u <= 1.0
  {
    Least(100.0, Most(0.0, Or(percent, 0.0))) / 100.0
  }

  function CpuWatts(m: Model, percent: Option<real>): real {
    if !m.estimated then 0.0 else Curve(m, Utilisation(percent))
  }

  // From idle to full load.
  function Curve(m: Model, u: real): real {
    m.idle + (m.tdp - m.idle) * u
  }

  predicate Sane(m: Model) {
    0.0 <= m.idle <= m.tdp && 0.0 <= m.other && (m.efficiency.Some? ==> 0.0 < m.efficiency.value <= 1.0)
  }

  lemma CpuBounds(m: Model, percent: Option<real>)
    requires Sane(m)
    ensures CpuWatts(m, percent) >= 0.0
    ensures m.estimated ==> m.idle <= CpuWatts(m, percent) <= m.tdp
  {
    CurveGrows(m, 0.0, Utilisation(percent));
    CurveGrows(m, Utilisation(percent), 1.0);
    CurveEnds(m);
  }

  // Whatever the configuration accepts, on any platform: every value it sets is
  // used, but for an idle power above the platform's own full load, and the
  // CPU's share never leaves its idle and full-load bounds.
  lemma ResolvedIsSane(c: Settings, darwin: bool, percent: Option<real>)
    requires Accepted(c)
    ensures var m := Resolve(c, darwin);
      && Sane(m)
      && (c.tdp.Some? ==> m.tdp == c.tdp.value) && (c.other.Some? ==> m.other == c.other.value)
      && m.efficiency == c.efficiency
      && (c.idle.Some? && m.idle != c.idle.value ==> c.tdp.None? && m.idle == m.tdp < c.idle.value)
      && (if c.estimated then m.idle <= CpuWatts(m, percent) <= m.tdp else CpuWatts(m, percent) == 0.0)
  {
    CpuBounds(Resolve(c, darwin), percent);
  }

  // The CPU's share runs from idle at no load to the TDP at full load, and never
  // falls as the load grows.
  lemma CpuCurve(m: Model, low: real, high: real)
    requires Sane(m) && m.estimated && low <= high
    ensures low <= 0.0 ==> CpuWatts(m, Some(low)) == m.idle == CpuWatts(m, None)
    ensures high >= 100.0 ==> CpuWatts(m, Some(high)) == m.tdp
    ensures CpuWatts(m, Some(low)) <= CpuWatts(m, Some(high))
  {
    CurveGrows(m, Utilisation(Some(low)), Utilisation(Some(high)));
    CurveEnds(m);
  }

  lemma CurveEnds(m: Model)
    ensures Curve(m, 0.0) == m.idle && Curve(m, 1.0) == m.tdp
  {
  }

  lemma CurveGrows(m: Model, u: real, v: real)
    requires Sane(m) && u <= v
    ensures Curve(m, u) <= Curve(m, v)
  {
    var x, w := m.tdp - m.idle, v - u;
    Product(x, w);
    assert x * v == x * u + x * w;
  }

  lemma Scaled(x: real, u: real)
    requires x >= 0.0 && 0.0 <= u <= 1.0
    ensures 0.0 <= x * u <= x
  {
  }

  // What is neither GPU nor CPU: the baseline and the supply's loss on the whole.
  function WallShare(m: Model, gpu: real, cpu: real, base: real): real
    requires Sane(m)
  {
    var total := if m.efficiency.Some? then (gpu + cpu + base) / m.efficiency.value else gpu + cpu + base;
    total - gpu - cpu
  }

  // The loss is never negative when what is measured is not.
  lemma WallShareCoversBase(m: Model, gpu: real, cpu: real, base: real)
    requires Sane(m) && gpu + cpu + base >= 0.0
    ensures WallShare(m, gpu, cpu, base) >= base
  {
    if m.efficiency.Some? { Divided(gpu + cpu + base, m.efficiency.value); }
  }

  lemma Divided(x: real, e: real)
    requires x >= 0.0 && 0.0 < e <= 1.0
    ensures x / e >= x
  {
    assert x / e * e == x;
    if x / e < x { Scaled(x / e, e); }
  }

  // A baseline worked out from a socket reading gives that reading back.
  lemma CalibrationInverts(m: Model, socket: real, gpu: real, cpu: real)
    requires Sane(m)
    ensures var e := Or(m.efficiency, 1.0);
      gpu + cpu + WallShare(m, gpu, cpu, socket * e - gpu - cpu) == socket
  {
    if m.efficiency.Some? {
      var e := m.efficiency.value;
      assert (socket * e) / e == socket;
    }
  }

  // ----- energy -------------------------------------------------------------

  datatype Activity = Restore | Asr | Translate | Idle | OtherWork

  datatype Acts = Acts(restore: real, asr: real, translate: real, idle: real, other: real)

  datatype Energy = Energy(seconds: real, gpu: real, cpu: real, other: real)

  datatype Bucket = Bucket(e: Energy, acts: Acts)

  const ZERO := Bucket(Energy(0.0, 0.0, 0.0, 0.0), Acts(0.0, 0.0, 0.0, 0.0, 0.0))

  function Wh(e: Energy): real {
    e.gpu + e.cpu + e.other
  }

  function Both(a: Energy, b: Energy): Energy {
    Energy(a.seconds + b.seconds, a.gpu + b.gpu, a.cpu + b.cpu, a.other + b.other)
  }

  function Plus(a: Bucket, b: Bucket): Bucket {
    Bucket(Both(a.e, b.e),
           Acts(a.acts.restore + b.acts.restore, a.acts.asr + b.acts.asr, a.acts.translate + b.acts.translate,
                a.acts.idle + b.acts.idle, a.acts.other + b.acts.other))
  }

  function Only(a: Activity, wh: real): Acts {
    Acts(if a == Restore then wh else 0.0, if a == Asr then wh else 0.0, if a == Translate then wh else 0.0,
         if a == Idle then wh else 0.0, if a == OtherWork then wh else 0.0)
  }

  // What can be asked of an amount of energy, and of a bucket.
  datatype Share = Seconds | Gpu | Cpu | Rest

  datatype Part = Of(share: Share) | In(activity: Activity)

  function ShareOf(e: Energy, x: Share): real {
    match x
    case Seconds => e.seconds
    case Gpu => e.gpu
    case Cpu => e.cpu
    case Rest => e.other
  }

  function Amount(b: Bucket, p: Part): real {
    match p
    case Of(x) => ShareOf(b.e, x)
    case In(Restore) => b.acts.restore
    case In(Asr) => b.acts.asr
    case In(Translate) => b.acts.translate
    case In(Idle) => b.acts.idle
    case In(OtherWork) => b.acts.other
  }

  lemma ShareAdds(a: Energy, b: Energy, x: Share)
    ensures ShareOf(Both(a, b), x) == ShareOf(a, x) + ShareOf(b, x)
    ensures ShareOf(ZERO.e, x) == 0.0
  {
  }

  lemma AmountAdds(a: Bucket, b: Bucket, p: Part)
    ensures Amount(Plus(a, b), p) == Amount(a, p) + Amount(b, p)
  {
  }

  lemma NoAmount(p: Part)
    ensures Amount(ZERO, p) == 0.0
  {
  }

  // One sampled interval: the bucket of its end, whose it is, and its energy.
  datatype Window = Window(sample: nat, start: int, owner: string, activity: Activity, e: Energy, watts: real)

  function OfWindow(w: Window): Bucket {
    Bucket(w.e, Only(w.activity, Wh(w.e)))
  }

  // What the windows that pass a test add up to.
  function SumOf(ws: seq<Window>, test: Window -> bool, p: Part): real {
    if ws == [] then 0.0
    else
      var w := ws[|ws| - 1];
      SumOf(ws[..|ws| - 1], test, p) + (if test(w) then Amount(OfWindow(w), p) else 0.0)
  }

  function At(start: int): Window -> bool {
    (w: Window) => w.start == start
  }

  function OwnedBy(owner: string): Window -> bool {
    (w: Window) => w.owner == owner
  }

  // The owner's samples after `from`, and those of them up to `to`.
  function Since(owner: string, from: int): Window -> bool {
    (w: Window) => w.owner == owner && from < w.sample
  }

  function Span(owner: string, from: int, to: int): Window -> bool {
    (w: Window) => w.owner == owner && from < w.sample <= to
  }

  function Any(): Window -> bool {
    (w: Window) => true
  }

  lemma SumOfAppend(ws: seq<Window>, w: Window, test: Window -> bool, p: Part)
    ensures SumOf(ws + [w], test, p) == SumOf(ws, test, p) + (if test(w) then Amount(OfWindow(w), p) else 0.0)
  {
    assert (ws + [w])[..|ws|] == ws;
  }

  // ----- the sampler's state ------------------------------------------------

  datatype Counter = Counter(epoch: nat, last: real, wh: real, e: Energy, peaks: seq<(nat, real)>, dropped: int)

  datatype Sampler = Sampler(buckets: map<int, Bucket>, current: Option<(int, Bucket)>,
                             prev: Option<(real, Option<real>)>, samples: nat, epochs: nat,
                             counters: map<string, Counter>)

  function BucketAt(buckets: map<int, Bucket>, start: int): Bucket {
    if start in buckets then buckets[start] else ZERO
  }

  function CurrentAt(current: Option<(int, Bucket)>, start: int): Bucket {
    if current.Some? && current.value.0 == start then current.value.1 else ZERO
  }

  function Keep(buckets: map<int, Bucket>, start: int, b: Bucket): map<int, Bucket> {
    buckets[start := Plus(BucketAt(buckets, start), b)]
  }

  ghost predicate IsOldest(starts: set<int>, m: int) {
    m in starts && forall s :: s in starts ==> m <= s
  }

  lemma Empty(starts: set<int>)
    requires forall x: int :: x !in starts
    ensures starts == {}
  {
    assert forall x :: x in starts <==> x in {};
  }

  lemma {:induction false} OldestExists(starts: set<int>)
    requires starts != {}
    ensures exists m :: IsOldest(starts, m)
  {
    if forall x: int :: x !in starts { Empty(starts); assert false; }
    var s: int :| s in starts;
    var rest := starts - {s};
    if rest == {} {
      assert starts == {s};
      assert IsOldest(starts, s);
    } else {
      OldestExists(rest);
      var m :| IsOldest(rest, m);
      assert forall x :: x in starts ==> x == s || x in rest;
      assert IsOldest(starts, if s < m then s else m);
    }
  }

  // Drops the oldest buckets one by one until they fit.
  ghost function Newest(buckets: map<int, Bucket>): map<int, Bucket>
    decreases |buckets|
  {
    if |buckets| <= MAX_BUCKETS then buckets
    else
      OldestExists(buckets.Keys);
      var m :| IsOldest(buckets.Keys, m);
      FewerWithout(buckets, m);
      Newest(buckets - {m})
  }

  // The buckets kept are unchanged, as many as fit, and later than all dropped.
  lemma {:induction false} NewestKeepsLatest(buckets: map<int, Bucket>)
    ensures var kept := Newest(buckets);
      && kept.Keys <= buckets.Keys && (forall k :: k in kept ==> kept[k] == buckets[k])
      && |kept| == (if |buckets| < MAX_BUCKETS then |buckets| else MAX_BUCKETS)
      && forall k, d :: k in kept && d in buckets && d !in kept ==> d < k
    decreases |buckets|
  {
    if |buckets| > MAX_BUCKETS {
      OldestExists(buckets.Keys);
      var m :| IsOldest(buckets.Keys, m) && Newest(buckets) == Newest(buckets - {m});
      FewerWithout(buckets, m);
      NewestKeepsLatest(buckets - {m});
    }
  }

  lemma FewerWithout(buckets: map<int, Bucket>, m: int)
    requires m in buckets
    ensures |buckets - {m}| == |buckets| - 1
  {
    assert (buckets - {m}).Keys == buckets.Keys - {m};
    assert |buckets| == |buckets.Keys| && |buckets - {m}| == |(buckets - {m}).Keys|;
  }

  function Unused(counters: map<string, Counter>, clock: real): set<string> {
    set o | o in counters && counters[o].last < clock - OWNER_IDLE_SECONDS
  }

  function NewCounter(epoch: nat, now: real): Counter {
    Counter(epoch, now, 0.0, ZERO.e, [], -1)
  }

  // The owner's counter, made when it has none, and when its epoch began.
  function Made(counters: map<string, Counter>, epochs: nat, owner: string, now: real): map<string, Counter> {
    if owner in counters then counters else counters[owner := NewCounter(epochs + 1, now)]
  }

  function Born(born: map<nat, (string, nat)>, counters: map<string, Counter>, epochs: nat, owner: string, from: nat)
    : map<nat, (string, nat)>
  {
    if owner in counters then born else born[epochs + 1 := (owner, from)]
  }

  function WithCounter(s: Sampler, owner: string, now: real): Sampler {
    s.(epochs := if owner in s.counters then s.epochs else s.epochs + 1,
       counters := Made(s.counters, s.epochs, owner, now))
  }

  // The full buffer forgets its oldest sample, and remembers which it was.
  function Counted(c: Counter, w: Window, now: real): Counter {
    var full := |c.peaks| == PEAK_SAMPLES;
    Counter(c.epoch, now, c.wh + Wh(w.e), Both(c.e, w.e),
            (if full then c.peaks[1..] else c.peaks) + [(w.sample, w.watts)],
            if full then c.peaks[0].0 else c.dropped)
  }

  function BucketStart(wall: real): int {
    (wall / (BUCKET_SECONDS as real)).Floor * BUCKET_SECONDS
  }

  predicate Closes(s: Sampler, w: Window) {
    s.current.Some? && s.current.value.0 != w.start
  }

  // The closed bucket joins the others, before the oldest are dropped.
  function Closing(s: Sampler): map<int, Bucket> {
    if s.current.Some? then Keep(s.buckets, s.current.value.0, s.current.value.1) else s.buckets
  }

  // Closing a bucket also drops the counters that were idle too long.
  function Remaining(s: Sampler, w: Window, clock: real): map<string, Counter> {
    if Closes(s, w) then s.counters - Unused(s.counters, clock) else s.counters
  }

  ghost function AddToBucket(s: Sampler, w: Window, clock: real): Sampler {
    var before := if Closes(s, w) then ZERO else CurrentAt(s.current, w.start);
    s.(buckets := if Closes(s, w) then Newest(Closing(s)) else s.buckets,
       counters := Remaining(s, w, clock),
       current := Some((w.start, Plus(before, OfWindow(w)))))
  }

  function AddToOwner(s: Sampler, w: Window, now: real): Sampler {
    var s1 := WithCounter(s, w.owner, now);
    s1.(counters := s1.counters[w.owner := Counted(s1.counters[w.owner], w, now)])
  }

  // What one tick reads.
  datatype Input = Input(model: Model, gpu: Option<real>, percent: Option<real>, activity: Activity, owner: string,
                         now: real, wall: real, clock: real)

  function Mean(x: real, y: real): real {
    (x + y) / 2.0
  }

  function Hours(seconds: real): real {
    seconds / 3600.0
  }

  // The energy of mean GPU and CPU powers over h hours.
  function EnergyOf(m: Model, gpuW: real, cpuW: real, seconds: real, h: real): Energy
    requires Sane(m)
  {
    Measured(m, seconds, gpuW * h, cpuW * h, m.other * h)
  }

  function Measured(m: Model, seconds: real, gpu: real, cpu: real, base: real): Energy
    requires Sane(m)
  {
    Energy(seconds, gpu, cpu, WallShare(m, gpu, cpu, base))
  }

  // The trapezoid over the two GPU readings, and the CPU's mean over the window.
  function EnergyOver(before: Option<real>, i: Input, dt: real): Energy
    requires Sane(i.model)
  {
    EnergyOf(i.model, Mean(Or(before, 0.0), Or(i.gpu, 0.0)), CpuWatts(i.model, i.percent), dt, Hours(dt))
  }

  // The figure of the moment.
  function Watts(i: Input): real
    requires Sane(i.model)
  {
    var gpu, cpu := Most(0.0, Or(i.gpu, 0.0)), CpuWatts(i.model, i.percent);
    gpu + cpu + WallShare(i.model, gpu, cpu, i.model.other)
  }

  // The window since the previous sample, unless it is the first or a gap.
  function WindowOf(prev: Option<(real, Option<real>)>, sample: nat, i: Input): Option<Window>
    requires Sane(i.model)
  {
    if prev.None? || i.now <= prev.value.0 || i.now - prev.value.0 > GAP_SECONDS then None
    else
      var e := EnergyOver(prev.value.1, i, i.now - prev.value.0);
      Some(Window(sample, BucketStart(i.wall), i.owner, i.activity, e, Watts(i)))
  }

  // The next sample, with its window taken in.
  ghost function TakeIn(s: Sampler, w: Window, clock: real, now: real): Sampler {
    AddToOwner(AddToBucket(s, w, clock), w, now)
  }

  function Sampled(s: Sampler, prev: Option<(real, Option<real>)>): Sampler {
    s.(samples := s.samples + 1, prev := prev)
  }

  // A tick, with the window it measured, if any.
  ghost function Tick(s: Sampler, w: Option<Window>, i: Input): Sampler {
    var s1 := Sampled(s, Some((i.now, i.gpu)));
    if w.None? then s1 else TakeIn(s1, w.value, i.clock, i.now)
  }

  // Sampling is off: the open bucket is kept and the next window is not measured.
  function TickOff(s: Sampler): Sampler {
    s.(prev := None, current := None,
       buckets := if s.current.Some? then Keep(s.buckets, s.current.value.0, s.current.value.1) else s.buckets)
  }

  // The whole is (gpu + cpu + base) over the supply's efficiency.
  lemma EnergyIsWallEnergy(m: Model, gpuW: real, cpuW: real, seconds: real, h: real)
    requires Sane(m)
    ensures var e := EnergyOf(m, gpuW, cpuW, seconds, h);
      Wh(e) * Or(m.efficiency, 1.0) == e.gpu + e.cpu + m.other * h
  {
    var e := EnergyOf(m, gpuW, cpuW, seconds, h);
    WallShareIsWhole(m, e.gpu, e.cpu, m.other * h);
  }

  lemma WallShareIsWhole(m: Model, gpu: real, cpu: real, base: real)
    requires Sane(m)
    ensures (gpu + cpu + WallShare(m, gpu, cpu, base)) * Or(m.efficiency, 1.0) == gpu + cpu + base
  {
    if m.efficiency.Some? {
      assert gpu + cpu + WallShare(m, gpu, cpu, base) == (gpu + cpu + base) / m.efficiency.value;
    }
  }

  // The figure of the moment is that of the machine at the wall, too.
  lemma WattsIsWall(i: Input)
    requires Sane(i.model)
    ensures Watts(i) * Or(i.model.efficiency, 1.0)
      == Most(0.0, Or(i.gpu, 0.0)) + CpuWatts(i.model, i.percent) + i.model.other
  {
    WallShareIsWhole(i.model, Most(0.0, Or(i.gpu, 0.0)), CpuWatts(i.model, i.percent), i.model.other);
  }

  lemma OverHours(x: real, dt: real)
    ensures x * Hours(dt) * 3600.0 == x * dt
  {
    assert Hours(dt) * 3600.0 == dt;
    assert x * Hours(dt) * 3600.0 == x * (Hours(dt) * 3600.0);
  }

  // What is measured, in watts and seconds: the GPU's two readings as a trapezoid,
  // the CPU's load and the baseline over the whole window, and the supply's loss
  // on all of it. There is a window exactly for a step forward of up to 15
  // seconds, and it goes to the input's owner, activity and quarter of an hour.
  lemma WindowIsMeasured(prev: Option<(real, Option<real>)>, sample: nat, i: Input)
    requires Sane(i.model)
    ensures WindowOf(prev, sample, i).Some? <==> prev.Some? && 0.0 < i.now - prev.value.0 <= 15.0
    ensures WindowOf(prev, sample, i).Some? ==>
      var (w, dt) := (WindowOf(prev, sample, i).value, i.now - prev.value.0);
      && w.e.seconds == dt
      && w.e.gpu * 7200.0 == (Or(prev.value.1, 0.0) + Or(i.gpu, 0.0)) * dt
      && w.e.cpu * 3600.0 == CpuWatts(i.model, i.percent) * dt
      && (w.e.gpu + w.e.cpu + w.e.other) * Or(i.model.efficiency, 1.0) * 3600.0 ==
           (w.e.gpu + w.e.cpu) * 3600.0 + i.model.other * dt
      && w.watts * Or(i.model.efficiency, 1.0) ==
           Most(0.0, Or(i.gpu, 0.0)) + CpuWatts(i.model, i.percent) + i.model.other
      && w.sample == sample && w.owner == i.owner && w.activity == i.activity
      && w.start % 900 == 0 && w.start as real <= i.wall < (w.start + 900) as real
  {
    if WindowOf(prev, sample, i).Some? {
      var dt := i.now - prev.value.0;
      var gpu, cpu := Mean(Or(prev.value.1, 0.0), Or(i.gpu, 0.0)), CpuWatts(i.model, i.percent);
      OverHours(gpu, dt);
      OverHours(cpu, dt);
      OverHours(i.model.other, dt);
      assert gpu * 2.0 == Or(prev.value.1, 0.0) + Or(i.gpu, 0.0);
      EnergyIsWallEnergy(i.model, gpu, cpu, dt, Hours(dt));
      WattsIsWall(i);
      QuarterOf(i.wall);
    }
  }

  lemma QuarterOf(wall: real)
    ensures BucketStart(wall) % 900 == 0
    ensures BucketStart(wall) as real <= wall < (BucketStart(wall) + 900) as real
  {
    var q := (wall / 900.0).Floor;
    assert q as real <= wall / 900.0 < q as real + 1.0;
    assert BucketStart(wall) == q * 900;
  }

  predicate NonNegative(e: Energy) {
    e.seconds >= 0.0 && e.gpu >= 0.0 && e.cpu >= 0.0 && e.other >= 0.0
  }

  lemma MeasuredSign(m: Model, seconds: real, gpu: real, cpu: real, base: real)
    requires Sane(m) && seconds >= 0.0 && cpu >= 0.0 && base >= 0.0
    ensures NonNegative(Measured(m, seconds, gpu, cpu, base)) <==> gpu >= 0.0
  {
    if gpu >= 0.0 { WallShareCoversBase(m, gpu, cpu, base); }
  }

  lemma Sign(x: real, h: real)
    requires h > 0.0
    ensures x * h >= 0.0 <==> x >= 0.0
  {
    if x >= 0.0 { Product(x, h); } else { NegativeProduct(x, h); }
  }

  lemma EnergySign(m: Model, gpuW: real, cpuW: real, seconds: real, h: real)
    requires Sane(m) && seconds > 0.0 && h > 0.0 && cpuW >= 0.0
    ensures NonNegative(EnergyOf(m, gpuW, cpuW, seconds, h)) <==> gpuW >= 0.0
  {
    Sign(gpuW, h);
    Sign(cpuW, h);
    Sign(m.other, h);
    MeasuredSign(m, seconds, gpuW * h, cpuW * h, m.other * h);
  }

  // No part of a window is negative exactly when its two GPU readings are not, on
  // average.
  lemma WindowNonNegative(before: Option<real>, i: Input, dt: real)
    requires Sane(i.model) && dt > 0.0
    ensures NonNegative(EnergyOver(before, i, dt)) <==> Or(before, 0.0) + Or(i.gpu, 0.0) >= 0.0
  {
    CpuBounds(i.model, i.percent);
    EnergySign(i.model, Mean(Or(before, 0.0), Or(i.gpu, 0.0)), CpuWatts(i.model, i.percent), dt, Hours(dt));
  }

  // The window as a whole is negative exactly when that average outweighs the CPU
  // and the baseline.
  lemma WindowSign(before: Option<real>, i: Input, dt: real)
    requires Sane(i.model) && dt > 0.0
    ensures Wh(EnergyOver(before, i, dt)) >= 0.0 <==>
      Mean(Or(before, 0.0), Or(i.gpu, 0.0)) + CpuWatts(i.model, i.percent) + i.model.other >= 0.0
  {
    var (gpu, cpu, base) := (Mean(Or(before, 0.0), Or(i.gpu, 0.0)), CpuWatts(i.model, i.percent), i.model.other);
    var h := Hours(dt);
    EnergyIsWallEnergy(i.model, gpu, cpu, dt, h);
    ThreeProducts(gpu, cpu, base, h);
    Sign(gpu + cpu + base, h);
    Sign(Wh(EnergyOver(before, i, dt)), Or(i.model.efficiency, 1.0));
  }

  lemma ThreeProducts(x: real, y: real, z: real, h: real)
    ensures (x + y + z) * h == x * h + y * h + z * h
  {
  }

  lemma NegativeProduct(x: real, y: real)
    requires x < 0.0 && y > 0.0
    ensures x * y < 0.0
  {
  }

  lemma Product(x: real, y: real)
    requires x >= 0.0 && y >= 0.0
    ensures x * y >= 0.0
  {
  }

  // ----- the ledger: everything ever measured -------------------------------

  // The windows in order, what was loaded at the start, what was pruned or
  // dropped since, and for each counter its owner and the last sample before it.
  datatype Ledger = Ledger(loaded: map<int, Bucket>, windows: seq<Window>, pruned: map<int, Bucket>,
                           gone: map<string, Energy>, born: map<nat, (string, nat)>)

  function Held(buckets: map<int, Bucket>, start: int, p: Part): real {
    Amount(BucketAt(buckets, start), p)
  }

  function Open(current: Option<(int, Bucket)>, start: int, p: Part): real {
    Amount(CurrentAt(current, start), p)
  }

  function Counts(counters: map<string, Counter>, owner: string, x: Share): real {
    if owner in counters then ShareOf(counters[owner].e, x) else 0.0
  }

  function Lost(gone: map<string, Energy>, owner: string, x: Share): real {
    if owner in gone then ShareOf(gone[owner], x) else 0.0
  }

  function Trace(ws: seq<Window>, test: Window -> bool): seq<(nat, real)> {
    if ws == [] then []
    else
      var w := ws[|ws| - 1];
      Trace(ws[..|ws| - 1], test) + (if test(w) then [(w.sample, w.watts)] else [])
  }

  lemma TraceAppend(ws: seq<Window>, w: Window, test: Window -> bool)
    ensures Trace(ws + [w], test) == Trace(ws, test) + (if test(w) then [(w.sample, w.watts)] else [])
  {
    assert (ws + [w])[..|ws|] == ws;
  }

  // The peak buffer is the end of the whole trace, and knows what precedes it.
  predicate PeaksFit(c: Counter, trace: seq<(nat, real)>) {
    if |trace| <= PEAK_SAMPLES then c.peaks == trace && c.dropped == -1
    else
      var cut := |trace| - PEAK_SAMPLES;
      c.peaks == trace[cut..] && c.dropped == trace[cut - 1].0
  }

  // Closed, open and pruned energy of a bucket is what was loaded and measured,
  // part by part.
  ghost predicate BucketLaw(s: Sampler, l: Ledger, start: int, p: Part) {
    Held(s.buckets, start, p) + Open(s.current, start, p) + Held(l.pruned, start, p)
    == Held(l.loaded, start, p) + SumOf(l.windows, At(start), p)
  }

  // Kept and dropped energy of an owner is what was measured for it.
  ghost predicate OwnerLaw(s: Sampler, l: Ledger, owner: string, x: Share) {
    Counts(s.counters, owner, x) + Lost(l.gone, owner, x) == SumOf(l.windows, OwnedBy(owner), Of(x))
  }

  ghost predicate CounterSum(c: Counter, ws: seq<Window>, owner: string, from: nat, x: Share) {
    ShareOf(c.e, x) == SumOf(ws, Since(owner, from), Of(x))
  }

  // A counter holds its owner's windows since it was made.
  ghost predicate CounterLaw(ws: seq<Window>, born: map<nat, (string, nat)>, owner: string, c: Counter) {
    c.epoch in born && born[c.epoch].0 == owner && CounterFits(ws, born[c.epoch].1, owner, c)
  }

  ghost predicate CounterFits(ws: seq<Window>, from: nat, owner: string, c: Counter) {
    && c.wh == Wh(c.e)
    && (forall x :: CounterSum(c, ws, owner, from, x))
    && PeaksFit(c, Trace(ws, Since(owner, from)))
  }

  ghost predicate BucketsAgree(s: Sampler, l: Ledger) {
    forall start, p :: BucketLaw(s, l, start, p)
  }

  ghost predicate OwnersAgree(s: Sampler, l: Ledger) {
    forall o, x :: OwnerLaw(s, l, o, x)
  }

  ghost predicate CountersAgree(s: Sampler, l: Ledger) {
    AllFit(l.windows, l.born, s.counters) && BornBefore(l.born, s.epochs, s.samples)
  }

  ghost predicate InOrder(ws: seq<Window>, samples: nat) {
    && (forall i, j :: 0 <= i < j < |ws| ==> ws[i].sample < ws[j].sample)
    && (forall i :: 0 <= i < |ws| ==> ws[i].sample <= samples)
  }

  ghost predicate Valid(s: Sampler, l: Ledger) {
    BucketsAgree(s, l) && OwnersAgree(s, l) && CountersAgree(s, l) && InOrder(l.windows, s.samples)
  }

  function Fresh(loaded: map<int, Bucket>): Sampler {
    Sampler(loaded, None, None, 0, 0, map[])
  }

  lemma FreshIsValid(loaded: map<int, Bucket>)
    ensures Valid(Fresh(loaded), Ledger(loaded, [], map[], map[], map[]))
  {
    var s, l := Fresh(loaded), Ledger(loaded, [], map[], map[], map[]);
    forall start, p ensures BucketLaw(s, l, start, p) { NoAmount(p); }
  }

  // ----- what one window does to the ledger ---------------------------------

  function Merged(a: map<int, Bucket>, b: map<int, Bucket>): map<int, Bucket> {
    map k | k in a.Keys + b.Keys :: Plus(BucketAt(a, k), BucketAt(b, k))
  }

  function DroppedInto(gone: map<string, Energy>, counters: map<string, Counter>, lost: set<string>)
    : map<string, Energy>
    requires lost <= counters.Keys
  {
    map o | o in gone.Keys + lost ::
      Both(if o in gone then gone[o] else ZERO.e, if o in lost then counters[o].e else ZERO.e)
  }

  ghost function PrunedAfter(s: Sampler, l: Ledger, w: Window): map<int, Bucket> {
    if Closes(s, w) then Merged(l.pruned, Closing(s) - Newest(Closing(s)).Keys) else l.pruned
  }

  ghost function GoneAfter(s: Sampler, l: Ledger, w: Window, clock: real): map<string, Energy> {
    if Closes(s, w) then DroppedInto(l.gone, s.counters, Unused(s.counters, clock)) else l.gone
  }

  // The ledger once a window has been taken in.
  ghost function Entered(s: Sampler, l: Ledger, w: Window, clock: real): Ledger
    requires w.sample > 0
  {
    l.(windows := l.windows + [w], pruned := PrunedAfter(s, l, w), gone := GoneAfter(s, l, w, clock),
       born := Born(l.born, Remaining(s, w, clock), s.epochs, w.owner, w.sample - 1))
  }

  lemma KeepAmount(buckets: map<int, Bucket>, key: int, b: Bucket, start: int, p: Part)
    ensures Held(Keep(buckets, key, b), start, p)
      == Held(buckets, start, p) + (if start == key then Amount(b, p) else 0.0)
  {
    AmountAdds(BucketAt(buckets, start), b, p);
  }

  lemma MergedAmount(a: map<int, Bucket>, b: map<int, Bucket>, start: int, p: Part)
    ensures Held(Merged(a, b), start, p) == Held(a, start, p) + Held(b, start, p)
  {
    NoAmount(p);
    if start in a.Keys + b.Keys { AmountAdds(BucketAt(a, start), BucketAt(b, start), p); }
  }

  lemma KeptOrLost(all: map<int, Bucket>, start: int, p: Part)
    ensures Held(Newest(all), start, p) + Held(all - Newest(all).Keys, start, p) == Held(all, start, p)
  {
    NewestKeepsLatest(all);
    NoAmount(p);
  }

  lemma ClosedAmount(s: Sampler, start: int, p: Part)
    ensures Held(Closing(s), start, p) == Held(s.buckets, start, p) + Open(s.current, start, p)
  {
    NoAmount(p);
    if s.current.Some? { KeepAmount(s.buckets, s.current.value.0, s.current.value.1, start, p); }
  }

  lemma OpenedAmount(current: Option<(int, Bucket)>, w: Window, start: int, p: Part)
    ensures Open(Some((w.start, Plus(CurrentAt(current, w.start), OfWindow(w)))), start, p)
      == if start == w.start then Open(current, start, p) + Amount(OfWindow(w), p) else 0.0
  {
    AmountAdds(CurrentAt(current, w.start), OfWindow(w), p);
  }

  // A bucket gains exactly the windows that end in it, through closing, opening
  // and pruning.
  lemma BucketStepKeepsLaw(s: Sampler, l: Ledger, w: Window, clock: real, start: int, p: Part)
    requires BucketLaw(s, l, start, p) && w.sample > 0
    ensures BucketLaw(AddToBucket(s, w, clock), Entered(s, l, w, clock), start, p)
  {
    SumOfAppend(l.windows, w, At(start), p);
    NoAmount(p);
    if Closes(s, w) {
      var all := Closing(s);
      ClosedAmount(s, start, p);
      KeptOrLost(all, start, p);
      MergedAmount(l.pruned, all - Newest(all).Keys, start, p);
      OpenedAmount(None, w, start, p);
    } else {
      OpenedAmount(s.current, w, start, p);
    }
  }

  lemma DroppedAmount(gone: map<string, Energy>, counters: map<string, Counter>, lost: set<string>, owner: string,
                      x: Share)
    requires lost <= counters.Keys
    ensures Counts(counters - lost, owner, x) + Lost(DroppedInto(gone, counters, lost), owner, x)
      == Counts(counters, owner, x) + Lost(gone, owner, x)
  {
    if owner in gone.Keys + lost {
      ShareAdds(if owner in gone then gone[owner] else ZERO.e, if owner in lost then counters[owner].e else ZERO.e, x);
    }
  }

  lemma CountedAmount(s: Sampler, w: Window, now: real, owner: string, x: Share)
    ensures Counts(AddToOwner(s, w, now).counters, owner, x)
      == Counts(s.counters, owner, x) + (if owner == w.owner then ShareOf(w.e, x) else 0.0)
  {
    ShareAdds(WithCounter(s, w.owner, now).counters[w.owner].e, w.e, x);
  }

  // An owner gains exactly its windows, whether its counter is kept, dropped or
  // made anew.
  lemma OwnerStepKeepsLaw(s: Sampler, l: Ledger, w: Window, clock: real, now: real, owner: string, x: Share)
    requires OwnerLaw(s, l, owner, x) && w.sample > 0
    ensures OwnerLaw(AddToOwner(AddToBucket(s, w, clock), w, now), Entered(s, l, w, clock), owner, x)
  {
    SumOfAppend(l.windows, w, OwnedBy(owner), Of(x));
    CountedAmount(AddToBucket(s, w, clock), w, now, owner, x);
    if Closes(s, w) { DroppedAmount(l.gone, s.counters, Unused(s.counters, clock), owner, x); }
  }

  lemma {:induction false} NoneSince(ws: seq<Window>, test: Window -> bool, p: Part)
    requires forall i :: 0 <= i < |ws| ==> !test(ws[i])
    ensures SumOf(ws, test, p) == 0.0 && Trace(ws, test) == []
  {
    if ws != [] { NoneSince(ws[..|ws| - 1], test, p); }
  }

  lemma FreshCounter(epoch: nat, now: real, x: Share)
    ensures ShareOf(NewCounter(epoch, now).e, x) == 0.0 && NewCounter(epoch, now).wh == Wh(NewCounter(epoch, now).e)
  {
  }

  // A counter that starts now holds nothing yet.
  lemma NewCounterFits(ws: seq<Window>, owner: string, epoch: nat, from: nat, now: real)
    requires InOrder(ws, from)
    ensures CounterFits(ws, from, owner, NewCounter(epoch, now))
  {
    forall x ensures CounterSum(NewCounter(epoch, now), ws, owner, from, x) {
      FreshCounter(epoch, now, x);
      NoneSince(ws, Since(owner, from), Of(x));
    }
    NoneSince(ws, Since(owner, from), Of(Seconds));
    FreshCounter(epoch, now, Seconds);
  }

  lemma WhAdds(a: Energy, b: Energy)
    ensures Wh(Both(a, b)) == Wh(a) + Wh(b)
  {
  }

  lemma PeaksGrow(c: Counter, trace: seq<(nat, real)>, w: Window, now: real)
    requires PeaksFit(c, trace)
    ensures PeaksFit(Counted(c, w, now), trace + [(w.sample, w.watts)])
  {
    var cut := |trace| - PEAK_SAMPLES;
    if cut >= 0 {
      assert c.peaks == trace[cut..];
      assert c.peaks[0] == trace[cut];
      assert c.peaks[1..] == trace[cut + 1..];
      assert trace[cut + 1..] + [(w.sample, w.watts)] == (trace + [(w.sample, w.watts)])[cut + 1..];
    }
  }

  // A counter takes in a window of its owner, with its peak.
  lemma CountedFits(ws: seq<Window>, from: nat, c: Counter, w: Window, now: real)
    requires CounterFits(ws, from, w.owner, c) && from < w.sample
    ensures CounterFits(ws + [w], from, w.owner, Counted(c, w, now))
  {
    forall x ensures CounterSum(Counted(c, w, now), ws + [w], w.owner, from, x) {
      assert CounterSum(c, ws, w.owner, from, x);
      ShareAdds(c.e, w.e, x);
      SumOfAppend(ws, w, Since(w.owner, from), Of(x));
    }
    WhAdds(c.e, w.e);
    TraceAppend(ws, w, Since(w.owner, from));
    PeaksGrow(c, Trace(ws, Since(w.owner, from)), w, now);
  }

  lemma OtherFits(ws: seq<Window>, from: nat, owner: string, c: Counter, w: Window)
    requires CounterFits(ws, from, owner, c) && owner != w.owner
    ensures CounterFits(ws + [w], from, owner, c)
  {
    forall x ensures CounterSum(c, ws + [w], owner, from, x) {
      assert CounterSum(c, ws, owner, from, x);
      SumOfAppend(ws, w, Since(owner, from), Of(x));
    }
    TraceAppend(ws, w, Since(owner, from));
  }

  ghost predicate AllFit(ws: seq<Window>, born: map<nat, (string, nat)>, counters: map<string, Counter>) {
    forall o :: o in counters ==> CounterLaw(ws, born, o, counters[o])
  }

  ghost predicate BornBefore(born: map<nat, (string, nat)>, epochs: nat, samples: nat) {
    forall e :: e in born ==> e <= epochs && born[e].1 <= samples
  }

  lemma BornGrows(ws: seq<Window>, born: map<nat, (string, nat)>, epochs: nat, more: (string, nat), o: string,
                  c: Counter)
    requires CounterLaw(ws, born, o, c) && forall e :: e in born ==> e <= epochs
    ensures CounterLaw(ws, born[epochs + 1 := more], o, c)
  {
    assert born[epochs + 1 := more][c.epoch] == born[c.epoch];
  }

  // Making an owner's counter, when it has none, keeps all counters fitting.
  lemma MadeFits(ws: seq<Window>, born: map<nat, (string, nat)>, counters: map<string, Counter>, epochs: nat,
                 owner: string, from: nat, now: real)
    requires AllFit(ws, born, counters) && BornBefore(born, epochs, from) && InOrder(ws, from)
    ensures AllFit(ws, Born(born, counters, epochs, owner, from), Made(counters, epochs, owner, now))
  {
    if owner !in counters {
      var born', counters' := Born(born, counters, epochs, owner, from), Made(counters, epochs, owner, now);
      NewCounterFits(ws, owner, epochs + 1, from, now);
      forall o | o in counters' ensures CounterLaw(ws, born', o, counters'[o]) {
        if o in counters { BornGrows(ws, born, epochs, (owner, from), o, counters[o]); }
      }
    }
  }

  // One window, taken in by its owner's counter, keeps all counters fitting.
  lemma CountingFits(ws: seq<Window>, born: map<nat, (string, nat)>, counters: map<string, Counter>, w: Window,
                     now: real)
    requires AllFit(ws, born, counters) && w.owner in counters
    requires forall e :: e in born ==> born[e].1 < w.sample
    ensures AllFit(ws + [w], born, counters[w.owner := Counted(counters[w.owner], w, now)])
  {
    var counters' := counters[w.owner := Counted(counters[w.owner], w, now)];
    forall o | o in counters' ensures CounterLaw(ws + [w], born, o, counters'[o]) {
      var c := counters[o];
      assert CounterLaw(ws, born, o, c);
      var from := born[c.epoch].1;
      if o == w.owner { CountedFits(ws, from, c, w, now); } else { OtherFits(ws, from, o, c, w); }
    }
  }

  lemma TakeInBuckets(before: Sampler, s: Sampler, l: Ledger, w: Window, clock: real, now: real)
    requires BucketsAgree(before, l) && w.sample > 0
    requires s.buckets == before.buckets && s.current == before.current
    ensures BucketsAgree(TakeIn(s, w, clock, now), Entered(s, l, w, clock))
  {
    forall start, p ensures BucketLaw(TakeIn(s, w, clock, now), Entered(s, l, w, clock), start, p) {
      assert BucketLaw(before, l, start, p);
      BucketStepKeepsLaw(s, l, w, clock, start, p);
    }
  }

  lemma TakeInOwners(before: Sampler, s: Sampler, l: Ledger, w: Window, clock: real, now: real)
    requires OwnersAgree(before, l) && w.sample > 0 && s.counters == before.counters
    ensures OwnersAgree(TakeIn(s, w, clock, now), Entered(s, l, w, clock))
  {
    forall o, x ensures OwnerLaw(TakeIn(s, w, clock, now), Entered(s, l, w, clock), o, x) {
      assert OwnerLaw(before, l, o, x);
      OwnerStepKeepsLaw(s, l, w, clock, now, o, x);
    }
  }

  lemma SubsetFits(ws: seq<Window>, born: map<nat, (string, nat)>, counters: map<string, Counter>,
                   left: map<string, Counter>)
    requires AllFit(ws, born, counters) && forall o :: o in left ==> o in counters && left[o] == counters[o]
    ensures AllFit(ws, born, left)
  {
    forall o | o in left ensures CounterLaw(ws, born, o, left[o]) { assert CounterLaw(ws, born, o, counters[o]); }
  }

  lemma BornEarlier(born: map<nat, (string, nat)>, counters: map<string, Counter>, epochs: nat, owner: string,
                    from: nat)
    requires BornBefore(born, epochs, from)
    ensures forall e :: e in Born(born, counters, epochs, owner, from) ==>
      Born(born, counters, epochs, owner, from)[e].1 < from + 1
  {
  }

  lemma TakeInCounters(ws: seq<Window>, born: map<nat, (string, nat)>, left: map<string, Counter>, epochs: nat,
                       w: Window, now: real)
    requires AllFit(ws, born, left)
    requires w.sample > 0 && BornBefore(born, epochs, w.sample - 1) && InOrder(ws, w.sample - 1)
    ensures var made := Made(left, epochs, w.owner, now);
      AllFit(ws + [w], Born(born, left, epochs, w.owner, w.sample - 1), made[w.owner := Counted(made[w.owner], w, now)])
  {
    MadeFits(ws, born, left, epochs, w.owner, w.sample - 1, now);
    BornEarlier(born, left, epochs, w.owner, w.sample - 1);
    var born', made := Born(born, left, epochs, w.owner, w.sample - 1), Made(left, epochs, w.owner, now);
    assert w.owner in made && AllFit(ws, born', made);
    CountingFits(ws, born', made, w, now);
  }

  lemma RemainingFits(s: Sampler, l: Ledger, w: Window, clock: real)
    requires AllFit(l.windows, l.born, s.counters)
    ensures AllFit(l.windows, l.born, Remaining(s, w, clock))
  {
    SubsetFits(l.windows, l.born, s.counters, Remaining(s, w, clock));
  }

  lemma TakenInFit(s: Sampler, l: Ledger, w: Window, clock: real, now: real)
    requires AllFit(l.windows, l.born, s.counters)
    requires w.sample > 0 && BornBefore(l.born, s.epochs, w.sample - 1) && InOrder(l.windows, w.sample - 1)
    ensures AllFit(Entered(s, l, w, clock).windows, Entered(s, l, w, clock).born, TakeIn(s, w, clock, now).counters)
  {
    RemainingFits(s, l, w, clock);
    TakeInCounters(l.windows, l.born, Remaining(s, w, clock), s.epochs, w, now);
    TakenInCounters(s, w, clock, now);
  }

  lemma TakeInAccounts(before: Sampler, s: Sampler, l: Ledger, w: Window, clock: real, now: real)
    requires CountersAgree(before, l) && InOrder(l.windows, before.samples) && w.sample == before.samples + 1
    requires s.counters == before.counters && s.epochs == before.epochs && s.samples == w.sample
    ensures CountersAgree(TakeIn(s, w, clock, now), Entered(s, l, w, clock))
  {
    TakenInFit(s, l, w, clock, now);
    TakenInBorn(s, l, w, clock, now);
  }

  lemma TakenInBorn(s: Sampler, l: Ledger, w: Window, clock: real, now: real)
    requires w.sample > 0 && s.samples == w.sample && BornBefore(l.born, s.epochs, w.sample - 1)
    ensures BornBefore(Entered(s, l, w, clock).born, TakeIn(s, w, clock, now).epochs, w.sample)
    ensures TakeIn(s, w, clock, now).samples == w.sample
  {
    BornLater(l.born, Remaining(s, w, clock), s.epochs, w.owner, w.sample - 1);
  }

  lemma TakenInCounters(s: Sampler, w: Window, clock: real, now: real)
    ensures var made := Made(Remaining(s, w, clock), s.epochs, w.owner, now);
      TakeIn(s, w, clock, now).counters == made[w.owner := Counted(made[w.owner], w, now)]
  {
  }

  lemma BornLater(born: map<nat, (string, nat)>, counters: map<string, Counter>, epochs: nat, owner: string, from: nat)
    requires BornBefore(born, epochs, from)
    ensures BornBefore(Born(born, counters, epochs, owner, from),
                       if owner in counters then epochs else epochs + 1, from + 1)
  {
  }

  lemma TakeInKeepsValid(before: Sampler, s: Sampler, l: Ledger, w: Window, clock: real, now: real)
    requires Valid(before, l) && w.sample == before.samples + 1
    requires s == before.(samples := w.sample, prev := s.prev)
    ensures Valid(TakeIn(s, w, clock, now), Entered(s, l, w, clock))
  {
    TakeInBuckets(before, s, l, w, clock, now);
    TakeInOwners(before, s, l, w, clock, now);
    TakeInAccounts(before, s, l, w, clock, now);
    assert InOrder(l.windows + [w], w.sample);
  }

  // ----- whole calls --------------------------------------------------------

  ghost function TickLedger(s: Sampler, l: Ledger, w: Option<Window>, i: Input): Ledger
    requires IsNext(s, w)
  {
    if w.None? then l else Entered(Sampled(s, Some((i.now, i.gpu))), l, w.value, i.clock)
  }

  predicate IsNext(s: Sampler, w: Option<Window>) {
    w.Some? ==> w.value.sample == s.samples + 1
  }

  // Every tick, whatever it measures, closes, prunes or drops, keeps all three
  // accounts of the energy equal to what was measured.
  lemma TickKeepsValid(s: Sampler, l: Ledger, w: Option<Window>, i: Input)
    requires Valid(s, l) && IsNext(s, w)
    ensures Valid(Tick(s, w, i), TickLedger(s, l, w, i))
  {
    var s1 := Sampled(s, Some((i.now, i.gpu)));
    if w.Some? {
      TakeInKeepsValid(s, s1, l, w.value, i.clock, i.now);
    } else {
      SameBuckets(s, s1, l);
    }
  }

  lemma SameBuckets(s: Sampler, s': Sampler, l: Ledger)
    requires Valid(s, l) && s'.samples >= s.samples
    requires s'.buckets == s.buckets && s'.current == s.current && s'.counters == s.counters && s'.epochs == s.epochs
    ensures Valid(s', l)
  {
    forall start, p ensures BucketLaw(s', l, start, p) { assert BucketLaw(s, l, start, p); }
    forall o, x ensures OwnerLaw(s', l, o, x) { assert OwnerLaw(s, l, o, x); }
  }

  // Switching sampling off moves the open bucket, and nothing is lost.
  lemma TickOffKeepsValid(s: Sampler, l: Ledger)
    requires Valid(s, l)
    ensures Valid(TickOff(s), l)
  {
    forall start, p ensures BucketLaw(TickOff(s), l, start, p) {
      assert BucketLaw(s, l, start, p);
      ClosedAmount(s, start, p);
      NoAmount(p);
    }
    forall o, x ensures OwnerLaw(TickOff(s), l, o, x) { assert OwnerLaw(s, l, o, x); }
  }

  // ----- readings of a counter ----------------------------------------------

  datatype Reading = Reading(owner: string, sampler: nat, epoch: nat, sample: nat, wh: real, e: Energy, at: real)

  function ReadOf(s: Sampler, id: nat, owner: string, at: real): Reading
    requires owner in s.counters
  {
    var c := s.counters[owner];
    Reading(owner, id, c.epoch, s.samples, c.wh, c.e, at)
  }

  function ReadLedger(s: Sampler, l: Ledger, owner: string): Ledger {
    l.(born := Born(l.born, s.counters, s.epochs, owner, s.samples))
  }

  // The reading is the owner's energy from its counter's start to its sample.
  ghost predicate IsReading(r: Reading, s: Sampler, l: Ledger) {
    && r.epoch in l.born && l.born[r.epoch].0 == r.owner && l.born[r.epoch].1 <= r.sample <= s.samples
    && r.wh == Wh(r.e)
    && forall x :: ReadingSum(r, l.windows, l.born[r.epoch].1, x)
  }

  ghost predicate ReadingSum(r: Reading, ws: seq<Window>, from: nat, x: Share) {
    ShareOf(r.e, x) == SumOf(ws, Span(r.owner, from, r.sample), Of(x))
  }

  lemma {:induction false} SinceIsSpan(ws: seq<Window>, owner: string, from: int, to: nat, p: Part)
    requires forall i :: 0 <= i < |ws| ==> ws[i].sample <= to
    ensures SumOf(ws, Since(owner, from), p) == SumOf(ws, Span(owner, from, to), p)
  {
    if ws != [] { SinceIsSpan(ws[..|ws| - 1], owner, from, to, p); }
  }

  lemma ReadKeepsValid(s: Sampler, l: Ledger, owner: string, at: real)
    requires Valid(s, l)
    ensures Valid(WithCounter(s, owner, at), ReadLedger(s, l, owner))
  {
    var s', l' := WithCounter(s, owner, at), ReadLedger(s, l, owner);
    forall start, p ensures BucketLaw(s', l', start, p) { assert BucketLaw(s, l, start, p); }
    forall o, x ensures OwnerLaw(s', l', o, x) {
      assert OwnerLaw(s, l, o, x);
      FreshCounter(s.epochs + 1, at, x);
    }
    MadeFits(l.windows, l.born, s.counters, s.epochs, owner, s.samples, at);
  }

  // What is read is the owner's whole energy since its counter was made.
  lemma ReadingIsSum(s: Sampler, l: Ledger, owner: string, id: nat, at: real)
    requires Valid(s, l) && owner in s.counters
    ensures IsReading(ReadOf(s, id, owner, at), s, l)
  {
    var c := s.counters[owner];
    assert CounterLaw(l.windows, l.born, owner, c);
    forall x ensures ReadingSum(ReadOf(s, id, owner, at), l.windows, l.born[c.epoch].1, x) {
      assert CounterSum(c, l.windows, owner, l.born[c.epoch].1, x);
      SinceIsSpan(l.windows, owner, l.born[c.epoch].1, s.samples, Of(x));
    }
  }

  // A reading stays what it was, whatever is measured later.
  lemma ReadingLasts(r: Reading, s: Sampler, l: Ledger, w: Option<Window>, i: Input)
    requires Valid(s, l) && IsReading(r, s, l) && IsNext(s, w)
    ensures IsReading(r, Tick(s, w, i), TickLedger(s, l, w, i))
  {
    if w.Some? {
      var l' := TickLedger(s, l, w, i);
      var from := l.born[r.epoch].1;
      assert l'.born[r.epoch] == l.born[r.epoch];
      forall x ensures ReadingSum(r, l'.windows, from, x) {
        assert ReadingSum(r, l.windows, from, x);
        SumOfAppend(l.windows, w.value, Span(r.owner, from, r.sample), Of(x));
      }
    }
  }

  lemma ReadingLastsReads(r: Reading, s: Sampler, l: Ledger, owner: string, at: real)
    requires Valid(s, l) && IsReading(r, s, l)
    ensures IsReading(r, WithCounter(s, owner, at), ReadLedger(s, l, owner))
  {
    var l' := ReadLedger(s, l, owner);
    assert l'.born[r.epoch] == l.born[r.epoch];
    forall x ensures ReadingSum(r, l'.windows, l'.born[r.epoch].1, x) {
      assert ReadingSum(r, l.windows, l.born[r.epoch].1, x);
    }
  }

  // ----- the energy between two readings ------------------------------------

  datatype Delta = Delta(wh: real, e: Energy, average: Option<real>, peak: Option<real>)

  function PeakIn(peaks: seq<(nat, real)>, from: int, to: int): Option<real> {
    if peaks == [] then None
    else
      var (sample, watts) := peaks[|peaks| - 1];
      var rest := PeakIn(peaks[..|peaks| - 1], from, to);
      if from < sample <= to then Some(if rest.None? then watts else Most(rest.value, watts)) else rest
  }

  function Gain(a: Energy, b: Energy): Energy {
    Energy(Most(0.0, b.seconds - a.seconds), Most(0.0, b.gpu - a.gpu), Most(0.0, b.cpu - a.cpu),
      Most(0.0, b.other - a.other))
  }

  predicate SameCounter(s: Sampler, id: nat, a: Reading, b: Reading) {
    && a.owner in s.counters && a.sampler == id && b.sampler == id && a.owner == b.owner
    && a.epoch == b.epoch && s.counters[a.owner].epoch == a.epoch && a.sample <= b.sample
  }

  // None when the readings are not of one live counter, or when the counter did
  // not cover the time between them.
  function Between(s: Sampler, id: nat, enabled: bool, a: Reading, b: Reading): Option<Delta> {
    if !enabled || !SameCounter(s, id, a, b) then None
    else
      var c := s.counters[a.owner];
      var e := Gain(a.e, b.e);
      if e.seconds < (b.at - a.at) - 2.0 * GAP_SECONDS then None
      else
        var wh := Most(0.0, b.wh - a.wh);
        Some(Delta(wh, e, if e.seconds > 0.0 then Some(wh * 3600.0 / e.seconds) else None,
                   if c.dropped <= a.sample then PeakIn(c.peaks, a.sample, b.sample) else None))
  }

  lemma {:induction false} SpanSplits(ws: seq<Window>, owner: string, a: int, b: int, c: int, p: Part)
    requires a <= b <= c
    ensures SumOf(ws, Span(owner, a, c), p) == SumOf(ws, Span(owner, a, b), p) + SumOf(ws, Span(owner, b, c), p)
  {
    if ws != [] { SpanSplits(ws[..|ws| - 1], owner, a, b, c, p); }
  }

  // The windows that pass a test have no negative part.
  ghost predicate NoneNegative(ws: seq<Window>, test: Window -> bool) {
    forall i :: 0 <= i < |ws| && test(ws[i]) ==> NonNegative(ws[i].e)
  }

  lemma {:induction false} SumNonNegative(ws: seq<Window>, test: Window -> bool, x: Share)
    requires NoneNegative(ws, test)
    ensures SumOf(ws, test, Of(x)) >= 0.0
  {
    if ws != [] {
      assert test(ws[|ws| - 1]) ==> NonNegative(ws[|ws| - 1].e);
      SumNonNegative(ws[..|ws| - 1], test, x);
    }
  }

  // What the owner used between two readings, taken as none when it is negative.
  lemma GainIsClamped(s: Sampler, l: Ledger, a: Reading, b: Reading, x: Share)
    requires IsReading(a, s, l) && IsReading(b, s, l)
    requires a.owner == b.owner && a.epoch == b.epoch && a.sample <= b.sample
    ensures ShareOf(b.e, x) - ShareOf(a.e, x) == SumOf(l.windows, Span(a.owner, a.sample, b.sample), Of(x))
    ensures ShareOf(Gain(a.e, b.e), x) == Most(0.0, SumOf(l.windows, Span(a.owner, a.sample, b.sample), Of(x)))
  {
    var from := l.born[a.epoch].1;
    assert ReadingSum(a, l.windows, from, x) && ReadingSum(b, l.windows, from, x);
    SpanSplits(l.windows, a.owner, from, a.sample, b.sample, Of(x));
    assert ShareOf(Gain(a.e, b.e), x) == Most(0.0, ShareOf(b.e, x) - ShareOf(a.e, x));
  }

  function WhOf(ws: seq<Window>, test: Window -> bool): real {
    SumOf(ws, test, Of(Gpu)) + SumOf(ws, test, Of(Cpu)) + SumOf(ws, test, Of(Rest))
  }

  // Between two readings lies exactly the owner's energy measured between them:
  // the whole and each part is the sum over the windows, or nothing where that
  // sum is negative.
  lemma BetweenIsExact(s: Sampler, l: Ledger, id: nat, a: Reading, b: Reading)
    requires IsReading(a, s, l) && IsReading(b, s, l)
    requires Between(s, id, true, a, b).Some?
    ensures var (d, test) := (Between(s, id, true, a, b).value, Span(a.owner, a.sample, b.sample));
      && d.wh == Most(0.0, WhOf(l.windows, test))
      && (forall x :: ShareOf(d.e, x) == Most(0.0, SumOf(l.windows, test, Of(x))))
      && (NoneNegative(l.windows, test) ==>
            d.wh == Wh(d.e) && forall x :: ShareOf(d.e, x) == SumOf(l.windows, test, Of(x)))
  {
    var test := Span(a.owner, a.sample, b.sample);
    forall x ensures ShareOf(b.e, x) - ShareOf(a.e, x) == SumOf(l.windows, test, Of(x))
      && ShareOf(Gain(a.e, b.e), x) == Most(0.0, SumOf(l.windows, test, Of(x)))
    {
      GainIsClamped(s, l, a, b, x);
    }
    WhSplits(a.e, b.e, l.windows, test);
    if NoneNegative(l.windows, test) {
      forall x ensures SumOf(l.windows, test, Of(x)) >= 0.0 { SumNonNegative(l.windows, test, x); }
      WhOfGain(a.e, b.e, l.windows, test);
    }
  }

  lemma WhSplits(a: Energy, b: Energy, ws: seq<Window>, test: Window -> bool)
    requires forall x :: ShareOf(b, x) - ShareOf(a, x) == SumOf(ws, test, Of(x))
    ensures Wh(b) - Wh(a) == WhOf(ws, test)
  {
    assert ShareOf(b, Gpu) == b.gpu && ShareOf(b, Cpu) == b.cpu && ShareOf(b, Rest) == b.other;
  }

  lemma WhOfGain(a: Energy, b: Energy, ws: seq<Window>, test: Window -> bool)
    requires forall x :: ShareOf(Gain(a, b), x) == SumOf(ws, test, Of(x)) >= 0.0
    ensures Wh(Gain(a, b)) == WhOf(ws, test) >= 0.0
  {
    var g := Gain(a, b);
    assert ShareOf(g, Gpu) == g.gpu && ShareOf(g, Cpu) == g.cpu && ShareOf(g, Rest) == g.other;
  }

  predicate Amid(x: real, y: real, z: real) {
    x <= y <= z || z <= y <= x
  }

  // Of three readings of one counter, the two intervals make the whole exactly
  // when the middle reading lies between the others; so it does whenever no
  // window of the owner between them has a negative part.
  lemma BetweenAdds(s: Sampler, l: Ledger, id: nat, a: Reading, b: Reading, c: Reading)
    requires IsReading(a, s, l) && IsReading(b, s, l) && IsReading(c, s, l)
    requires Between(s, id, true, a, b).Some? && Between(s, id, true, b, c).Some? && Between(s, id, true, a, c).Some?
    ensures var (ab, bc, ac) :=
      (Between(s, id, true, a, b).value, Between(s, id, true, b, c).value, Between(s, id, true, a, c).value);
      && (ac.wh == ab.wh + bc.wh <==> Amid(a.wh, b.wh, c.wh))
      && (forall x :: ShareOf(ac.e, x) == ShareOf(ab.e, x) + ShareOf(bc.e, x)
            <==> Amid(ShareOf(a.e, x), ShareOf(b.e, x), ShareOf(c.e, x)))
      && (NoneNegative(l.windows, Span(a.owner, a.sample, c.sample)) ==>
            ac.wh == ab.wh + bc.wh && ac.e == Both(ab.e, bc.e))
  {
    var (ab, bc, ac) :=
      (Between(s, id, true, a, b).value, Between(s, id, true, b, c).value, Between(s, id, true, a, c).value);
    forall x ensures ShareOf(ac.e, x) == ShareOf(ab.e, x) + ShareOf(bc.e, x)
      <==> Amid(ShareOf(a.e, x), ShareOf(b.e, x), ShareOf(c.e, x))
    {
      GainIs(a.e, b.e, x);
      GainIs(b.e, c.e, x);
      GainIs(a.e, c.e, x);
    }
    if NoneNegative(l.windows, Span(a.owner, a.sample, c.sample)) {
      BetweenIsExact(s, l, id, a, b);
      BetweenIsExact(s, l, id, b, c);
      BetweenIsExact(s, l, id, a, c);
      forall x ensures ShareOf(ac.e, x) == ShareOf(ab.e, x) + ShareOf(bc.e, x) {
        SpanSplits(l.windows, a.owner, a.sample, b.sample, c.sample, Of(x));
      }
      SameShares(ac.e, ab.e, bc.e);
      WhAdds(ab.e, bc.e);
    }
  }

  lemma GainIs(a: Energy, b: Energy, x: Share)
    ensures ShareOf(Gain(a, b), x) == Most(0.0, ShareOf(b, x) - ShareOf(a, x))
  {
  }

  lemma SameShares(whole: Energy, a: Energy, b: Energy)
    requires forall x :: ShareOf(whole, x) == ShareOf(a, x) + ShareOf(b, x)
    ensures whole == Both(a, b)
  {
    assert ShareOf(whole, Seconds) == whole.seconds && ShareOf(whole, Gpu) == whole.gpu;
    assert ShareOf(whole, Cpu) == whole.cpu && ShareOf(whole, Rest) == whole.other;
  }

  // ----- the peak between two readings --------------------------------------

  predicate SpanEmpty(ws: seq<Window>, test: Window -> bool) {
    forall i :: 0 <= i < |ws| ==> !test(ws[i])
  }

  // The largest figure among the windows that pass a test.
  ghost predicate IsPeak(ws: seq<Window>, test: Window -> bool, watts: real) {
    && (exists i :: 0 <= i < |ws| && test(ws[i]) && ws[i].watts == watts)
    && (forall i :: 0 <= i < |ws| && test(ws[i]) ==> ws[i].watts <= watts)
  }

  // The peak told is right: none when there is no window, else the largest.
  ghost predicate Peaks(ws: seq<Window>, test: Window -> bool, peak: Option<real>) {
    if peak.None? then SpanEmpty(ws, test) else IsPeak(ws, test, peak.value)
  }

  lemma PeakNext(ws: seq<Window>, w: Window, owner: string, from: int, a: int, b: int)
    requires from <= a && Peaks(ws, Span(owner, a, b), PeakIn(Trace(ws, Since(owner, from)), a, b))
    ensures Peaks(ws + [w], Span(owner, a, b), PeakIn(Trace(ws + [w], Since(owner, from)), a, b))
  {
    var trace := Trace(ws, Since(owner, from));
    TraceAppend(ws, w, Since(owner, from));
    if Since(owner, from)(w) {
      PeakAppend(trace, (w.sample, w.watts), a, b);
    } else {
      assert trace + [] == trace;
    }
    var peak := PeakIn(Trace(ws + [w], Since(owner, from)), a, b);
    if Span(owner, a, b)(w) {
      PeakGrows(ws, w, Span(owner, a, b), PeakIn(trace, a, b), peak.value);
    } else {
      PeakStays(ws, w, Span(owner, a, b), peak);
    }
  }

  lemma {:induction false} PeakOfTrace(ws: seq<Window>, owner: string, from: int, a: int, b: int)
    requires from <= a
    ensures Peaks(ws, Span(owner, a, b), PeakIn(Trace(ws, Since(owner, from)), a, b))
  {
    if ws != [] {
      var rest, w := ws[..|ws| - 1], ws[|ws| - 1];
      assert ws == rest + [w];
      PeakOfTrace(rest, owner, from, a, b);
      PeakNext(rest, w, owner, from, a, b);
    }
  }

  lemma PeakAppend(peaks: seq<(nat, real)>, next: (nat, real), a: int, b: int)
    ensures PeakIn(peaks + [next], a, b) ==
      var rest := PeakIn(peaks, a, b);
      if a < next.0 <= b then Some(if rest.None? then next.1 else Most(rest.value, next.1)) else rest
  {
    assert (peaks + [next])[..|peaks|] == peaks;
  }

  lemma PeakGrows(ws: seq<Window>, w: Window, test: Window -> bool, was: Option<real>, peak: real)
    requires test(w) && Peaks(ws, test, was)
    requires peak == if was.None? then w.watts else Most(was.value, w.watts)
    ensures IsPeak(ws + [w], test, peak)
  {
    var all := ws + [w];
    assert all[|ws|] == w;
    if was.Some? {
      var i :| 0 <= i < |ws| && test(ws[i]) && ws[i].watts == was.value;
      assert all[i] == ws[i];
    }
  }

  lemma PeakStays(ws: seq<Window>, w: Window, test: Window -> bool, peak: Option<real>)
    requires !test(w) && Peaks(ws, test, peak)
    ensures Peaks(ws + [w], test, peak)
  {
    var all := ws + [w];
    if peak.Some? {
      var i :| 0 <= i < |ws| && test(ws[i]) && ws[i].watts == peak.value;
      assert all[i] == ws[i];
    }
  }

  // Samples in order; those before a point play no part after it.
  ghost predicate Rising(peaks: seq<(nat, real)>) {
    forall i, j :: 0 <= i < j < |peaks| ==> peaks[i].0 < peaks[j].0
  }

  lemma {:induction false} TraceRises(ws: seq<Window>, test: Window -> bool, samples: nat)
    requires InOrder(ws, samples)
    ensures Rising(Trace(ws, test))
    ensures forall i :: 0 <= i < |Trace(ws, test)| ==> Trace(ws, test)[i].0 <= samples
    decreases |ws|
  {
    if ws != [] {
      var rest, w := ws[..|ws| - 1], ws[|ws| - 1];
      if rest == [] {
        assert Trace(rest, test) == [];
      } else {
        assert InOrder(rest, rest[|rest| - 1].sample);
        TraceRises(rest, test, rest[|rest| - 1].sample);
        assert rest[|rest| - 1].sample < w.sample;
      }
    }
  }

  lemma {:induction false} PeakSkips(early: seq<(nat, real)>, late: seq<(nat, real)>, a: int, b: int)
    requires forall i :: 0 <= i < |early| ==> early[i].0 <= a
    ensures PeakIn(early + late, a, b) == PeakIn(late, a, b)
    decreases |early| + |late|
  {
    if late != [] {
      var all := early + late;
      assert all[..|all| - 1] == early + late[..|late| - 1];
      PeakSkips(early, late[..|late| - 1], a, b);
    } else if early != [] {
      assert early + late == early;
      assert early[..|early| - 1] + [] == early[..|early| - 1];
      PeakSkips(early[..|early| - 1], [], a, b);
    } else {
      assert early + late == [];
    }
  }

  // The buffer tells the peak of the whole trace when nothing it dropped is later
  // than the start.
  lemma BufferTellsPeak(c: Counter, trace: seq<(nat, real)>, a: int, b: int)
    requires PeaksFit(c, trace) && Rising(trace) && c.dropped <= a
    ensures PeakIn(c.peaks, a, b) == PeakIn(trace, a, b)
  {
    if |trace| > PEAK_SAMPLES {
      var cut := |trace| - PEAK_SAMPLES;
      assert trace == trace[..cut] + trace[cut..];
      forall i | 0 <= i < cut ensures trace[..cut][i].0 <= a {
        assert trace[i].0 <= trace[cut - 1].0;
      }
      PeakSkips(trace[..cut], trace[cut..], a, b);
    }
  }

  // A peak that is told is the largest figure sampled for the owner between the
  // readings; none is told exactly when none was sampled or one was dropped.
  lemma PeakIsExact(s: Sampler, l: Ledger, id: nat, a: Reading, b: Reading)
    requires Valid(s, l) && IsReading(a, s, l) && Between(s, id, true, a, b).Some?
    ensures var (peak, test) := (Between(s, id, true, a, b).value.peak, Span(a.owner, a.sample, b.sample));
      && (peak.Some? ==> IsPeak(l.windows, test, peak.value))
      && (peak.None? <==> s.counters[a.owner].dropped > a.sample || SpanEmpty(l.windows, test))
  {
    var c := s.counters[a.owner];
    var from := l.born[a.epoch].1;
    assert CounterLaw(l.windows, l.born, a.owner, c);
    if c.dropped <= a.sample {
      TraceRises(l.windows, Since(a.owner, from), s.samples);
      BufferTellsPeak(c, Trace(l.windows, Since(a.owner, from)), a.sample, b.sample);
      PeakOfTrace(l.windows, a.owner, from, a.sample, b.sample);
      if PeakIn(c.peaks, a.sample, b.sample).Some? {
        assert !SpanEmpty(l.windows, Span(a.owner, a.sample, b.sample));
      }
    }
  }

  // ----- the three totals ---------------------------------------------------

  // The activities of any windows make up their whole energy.
  lemma {:induction false} ActivitiesMakeWhole(ws: seq<Window>, test: Window -> bool)
    ensures SumOf(ws, test, In(Restore)) + SumOf(ws, test, In(Asr)) + SumOf(ws, test, In(Translate))
      + SumOf(ws, test, In(Idle)) + SumOf(ws, test, In(OtherWork))
      == SumOf(ws, test, Of(Gpu)) + SumOf(ws, test, Of(Cpu)) + SumOf(ws, test, Of(Rest))
  {
    if ws != [] {
      ActivitiesMakeWhole(ws[..|ws| - 1], test);
      OneActivity(ws[|ws| - 1]);
    }
  }

  lemma OneActivity(w: Window)
    ensures var b := OfWindow(w);
      Amount(b, In(Restore)) + Amount(b, In(Asr)) + Amount(b, In(Translate)) + Amount(b, In(Idle))
        + Amount(b, In(OtherWork))
      == Amount(b, Of(Gpu)) + Amount(b, Of(Cpu)) + Amount(b, Of(Rest))
  {
  }

  ghost function TotalOver<K>(keys: set<K>, f: K -> real): real {
    if keys == {} then 0.0
    else
      var k :| k in keys;
      f(k) + TotalOver(keys - {k}, f)
  }

  lemma {:induction false} SameTotal<K>(keys: set<K>, f: K -> real, g: K -> real)
    requires forall k :: k in keys ==> f(k) == g(k)
    ensures TotalOver(keys, f) == TotalOver(keys, g)
  {
    if keys != {} {
      var k :| k in keys && TotalOver(keys, f) == f(k) + TotalOver(keys - {k}, f)
                         && TotalOver(keys, g) == g(k) + TotalOver(keys - {k}, g);
      SameTotal(keys - {k}, f, g);
    }
  }

  lemma {:induction false} RaisedTotal<K>(keys: set<K>, f: K -> real, g: K -> real, at: K, x: real)
    requires at in keys && g(at) == f(at) + x && forall k :: k in keys && k != at ==> f(k) == g(k)
    ensures TotalOver(keys, g) == TotalOver(keys, f) + x
  {
    var k :| k in keys && TotalOver(keys, f) == f(k) + TotalOver(keys - {k}, f)
                       && TotalOver(keys, g) == g(k) + TotalOver(keys - {k}, g);
    if k == at { SameTotal(keys - {k}, f, g); } else { RaisedTotal(keys - {k}, f, g, at, x); }
  }

  // The order in which a total is taken does not matter.
  lemma {:induction false} TakeOut<K>(keys: set<K>, f: K -> real, k: K)
    requires k in keys
    ensures TotalOver(keys, f) == f(k) + TotalOver(keys - {k}, f)
  {
    var k0 :| k0 in keys && TotalOver(keys, f) == f(k0) + TotalOver(keys - {k0}, f);
    if k0 != k {
      TakeOut(keys - {k0}, f, k);
      TakeOut(keys - {k}, f, k0);
      assert keys - {k0} - {k} == keys - {k} - {k0};
    }
  }

  lemma {:induction false} ZeroTotal<K>(keys: set<K>, f: K -> real)
    requires forall k :: k in keys ==> f(k) == 0.0
    ensures TotalOver(keys, f) == 0.0
  {
    if keys != {} {
      var k :| k in keys && TotalOver(keys, f) == f(k) + TotalOver(keys - {k}, f);
      ZeroTotal(keys - {k}, f);
    }
  }

  // Windows grouped by bucket start add up to all of them, and so do windows
  // grouped by owner.
  lemma {:induction false} StartsMakeTotal(ws: seq<Window>, starts: set<int>, p: Part)
    requires forall i :: 0 <= i < |ws| ==> ws[i].start in starts
    ensures TotalOver(starts, start => SumOf(ws, At(start), p)) == SumOf(ws, Any(), p)
  {
    if ws == [] {
      ZeroTotal(starts, start => SumOf(ws, At(start), p));
    } else {
      var rest, w := ws[..|ws| - 1], ws[|ws| - 1];
      StartsMakeTotal(rest, starts, p);
      RaisedTotal(starts, start => SumOf(rest, At(start), p), start => SumOf(ws, At(start), p), w.start,
        Amount(OfWindow(w), p));
    }
  }

  lemma {:induction false} OwnersMakeTotal(ws: seq<Window>, owners: set<string>, p: Part)
    requires forall i :: 0 <= i < |ws| ==> ws[i].owner in owners
    ensures TotalOver(owners, o => SumOf(ws, OwnedBy(o), p)) == SumOf(ws, Any(), p)
  {
    if ws == [] {
      ZeroTotal(owners, o => SumOf(ws, OwnedBy(o), p));
    } else {
      var rest, w := ws[..|ws| - 1], ws[|ws| - 1];
      OwnersMakeTotal(rest, owners, p);
      RaisedTotal(owners, o => SumOf(rest, OwnedBy(o), p), o => SumOf(ws, OwnedBy(o), p), w.owner,
        Amount(OfWindow(w), p));
    }
  }

  // What the buckets gained, over all starts, is what the counters gained, over
  // all owners: the energy measured.
  lemma EnergyIsConserved(s: Sampler, l: Ledger, starts: set<int>, owners: set<string>, x: Share)
    requires Valid(s, l)
    requires forall i :: 0 <= i < |l.windows| ==> l.windows[i].start in starts && l.windows[i].owner in owners
    ensures TotalOver(starts, start => Held(s.buckets, start, Of(x)) + Open(s.current, start, Of(x))
                                       + Held(l.pruned, start, Of(x)) - Held(l.loaded, start, Of(x)))
      == SumOf(l.windows, Any(), Of(x))
      == TotalOver(owners, o => Counts(s.counters, o, x) + Lost(l.gone, o, x))
  {
    var gained := (start: int) => Held(s.buckets, start, Of(x)) + Open(s.current, start, Of(x))
                                  + Held(l.pruned, start, Of(x)) - Held(l.loaded, start, Of(x));
    forall start | start in starts ensures gained(start) == SumOf(l.windows, At(start), Of(x)) {
      assert BucketLaw(s, l, start, Of(x));
    }
    SameTotal(starts, gained, start => SumOf(l.windows, At(start), Of(x)));
    StartsMakeTotal(l.windows, starts, Of(x));
    var counted := (o: string) => Counts(s.counters, o, x) + Lost(l.gone, o, x);
    forall o | o in owners ensures counted(o) == SumOf(l.windows, OwnedBy(o), Of(x)) {
      assert OwnerLaw(s, l, o, x);
    }
    SameTotal(owners, counted, o => SumOf(l.windows, OwnedBy(o), Of(x)));
    OwnersMakeTotal(l.windows, owners, Of(x));
  }

  // ----- the sampler itself -------------------------------------------------

  method OldestOf(starts: set<int>) returns (m: int)
    requires starts != {}
    ensures IsOldest(starts, m)
  {
    if forall x: int :: x !in starts { Empty(starts); assert false; }
    m :| m in starts;
    var left := starts - {m};
    while left != {}
      invariant m in starts && left <= starts
      invariant forall x :: x in starts ==> x in left || m <= x
      decreases |left|
    {
      if forall x: int :: x !in left { Empty(left); assert false; }
      var x: int :| x in left;
      if x < m { m := x; }
      left := left - {x};
    }
  }

  // Dropping the oldest bucket is one step towards the newest ones.
  lemma OneOldest(buckets: map<int, Bucket>, m: int)
    requires |buckets| > MAX_BUCKETS && IsOldest(buckets.Keys, m)
    ensures Newest(buckets) == Newest(buckets - {m})
  {
    OldestExists(buckets.Keys);
    var k :| IsOldest(buckets.Keys, k) && Newest(buckets) == Newest(buckets - {k});
    assert k <= m && m <= k;
  }

  // Reading an owner keeps the accounts, and what is read is its whole energy.
  lemma ReadIsReading(s: Sampler, l: Ledger, owner: string, id: nat, at: real)
    requires Valid(s, l)
    ensures var (s', l') := (WithCounter(s, owner, at), ReadLedger(s, l, owner));
      Valid(s', l') && IsReading(ReadOf(s', id, owner, at), s', l')
  {
    ReadKeepsValid(s, l, owner, at);
    ReadingIsSum(WithCounter(s, owner, at), ReadLedger(s, l, owner), owner, id, at);
  }

  class PowerSampler {
    const id: nat
    var buckets: map<int, Bucket>
    var current: Option<(int, Bucket)>
    var prev: Option<(real, Option<real>)>
    var samples: nat
    var epochs: nat
    var counters: map<string, Counter>
    ghost var ledger: Ledger

    constructor (id: nat, loaded: map<int, Bucket>)
      ensures this.id == id && State() == Fresh(loaded) && Valid(State(), ledger)
    {
      this.id := id;
      buckets, current, prev, samples, epochs, counters := loaded, None, None, 0, 0, map[];
      ledger := Ledger(loaded, [], map[], map[], map[]);
      new;
      FreshIsValid(loaded);
    }

    ghost function State(): Sampler
      reads this
    {
      Sampler(buckets, current, prev, samples, epochs, counters)
    }

    // One sample: what it measured joins its bucket and its owner's counter.
    method TakeSample(i: Input) returns (ghost w: Option<Window>)
      requires Valid(State(), ledger) && Sane(i.model)
      modifies this
      ensures w == WindowOf(old(prev), old(samples) + 1, i) && IsNext(old(State()), w)
      ensures State() == Tick(old(State()), w, i)
      ensures ledger == TickLedger(old(State()), old(ledger), w, i)
      ensures Valid(State(), ledger)
    {
      var window := WindowOf(prev, samples + 1, i);
      w := window;
      TickKeepsValid(State(), ledger, w, i);
      ledger := TickLedger(State(), ledger, w, i);
      samples, prev := samples + 1, Some((i.now, i.gpu));
      if window.Some? {
        Add(window.value, i.clock);
        Count(window.value, i.now);
      }
    }

    method Add(w: Window, clock: real)
      modifies this`buckets, this`current, this`counters
      ensures State() == AddToBucket(old(State()), w, clock)
    {
      if current.Some? && current.value.0 != w.start {
        buckets := Keep(buckets, current.value.0, current.value.1);
        current := None;
        Prune(clock);
      }
      var open := if current.Some? then current.value.1 else ZERO;
      current := Some((w.start, Plus(open, OfWindow(w))));
    }

    method Prune(clock: real)
      modifies this`buckets, this`counters
      ensures buckets == Newest(old(buckets))
      ensures counters == old(counters) - Unused(old(counters), clock)
    {
      while |buckets| > MAX_BUCKETS
        invariant Newest(buckets) == Newest(old(buckets)) && counters == old(counters)
        decreases |buckets|
      {
        var m := OldestOf(buckets.Keys);
        OneOldest(buckets, m);
        FewerWithout(buckets, m);
        buckets := buckets - {m};
      }
      counters := counters - Unused(counters, clock);
    }

    method Count(w: Window, now: real)
      modifies this`counters, this`epochs
      ensures State() == AddToOwner(old(State()), w, now)
    {
      Ensure(w.owner, now);
      var c := Raise(counters[w.owner], w, now);
      counters := counters[w.owner := c];
    }

    // The counter with the window taken in; a full peak buffer drops its oldest.
    static method Raise(c: Counter, w: Window, now: real) returns (c': Counter)
      ensures c' == Counted(c, w, now)
    {
      var dropped, peaks := c.dropped, c.peaks;
      if |peaks| == PEAK_SAMPLES {
        dropped, peaks := peaks[0].0, peaks[1..];
      }
      peaks := peaks + [(w.sample, w.watts)];
      c' := Counter(c.epoch, now, c.wh + Wh(w.e), Both(c.e, w.e), peaks, dropped);
    }

    method Ensure(owner: string, now: real)
      modifies this`counters, this`epochs
      ensures State() == WithCounter(old(State()), owner, now)
      ensures owner in counters
    {
      if owner !in counters {
        epochs := epochs + 1;
        counters := counters[owner := NewCounter(epochs, now)];
      }
    }

    // Sampling is off: what is open is kept, and the next window is not measured.
    method Pause()
      requires Valid(State(), ledger)
      modifies this`prev, this`current, this`buckets
      ensures State() == TickOff(old(State())) && Valid(State(), ledger)
    {
      TickOffKeepsValid(State(), ledger);
      prev := None;
      if current.Some? {
        buckets := Keep(buckets, current.value.0, current.value.1);
        current := None;
      }
    }

    // Every bucket, the open one merged with what was closed at its start.
    method AllBuckets() returns (all: map<int, Bucket>)
      ensures all == Closing(State())
    {
      all := buckets;
      if current.Some? {
        all := Keep(all, current.value.0, current.value.1);
      }
    }

    // The owner's counter now.
    method Read(owner: string, at: real) returns (r: Reading)
      requires Valid(State(), ledger)
      modifies this`counters, this`epochs, this`ledger
      ensures State() == WithCounter(old(State()), owner, at) && ledger == ReadLedger(old(State()), old(ledger), owner)
      ensures owner in counters && r == ReadOf(State(), id, owner, at)
      ensures Valid(State(), ledger)
    {
      ghost var s', l' := WithCounter(State(), owner, at), ReadLedger(State(), ledger, owner);
      ReadKeepsValid(State(), ledger, owner, at);
      assert Valid(s', l');
      ledger := l';
      Ensure(owner, at);
      assert State() == s';
      var c := counters[owner];
      r := Reading(owner, id, c.epoch, samples, c.wh, c.e, at);
    }

    // The largest figure sampled after one sample, up to another.
    method PeakBetween(peaks: seq<(nat, real)>, from: nat, to: nat) returns (peak: Option<real>)
      ensures peak == PeakIn(peaks, from, to)
    {
      peak := None;
      var i := 0;
      while i < |peaks|
        invariant 0 <= i <= |peaks|
        invariant peak == PeakIn(peaks[..i], from, to)
      {
        assert peaks[..i + 1] == peaks[..i] + [peaks[i]];
        PeakAppend(peaks[..i], peaks[i], from, to);
        if from < peaks[i].0 <= to {
          peak := Some(if peak.None? then peaks[i].1 else Most(peak.value, peaks[i].1));
        }
        i := i + 1;
      }
      assert peaks[..i] == peaks;
    }

    method EnergyBetween(enabled: bool, a: Reading, b: Reading) returns (d: Option<Delta>)
      ensures d == Between(State(), id, enabled, a, b)
    {
      if !enabled { return None; }
      if a.owner !in counters || a.sampler != id || b.sampler != id || a.owner != b.owner || a.epoch != b.epoch
         || counters[a.owner].epoch != a.epoch || b.sample < a.sample {
        return None;
      }
      var c := counters[a.owner];
      var peak: Option<real> := None;
      if c.dropped <= a.sample { peak := PeakBetween(c.peaks, a.sample, b.sample); }
      var e := Gain(a.e, b.e);
      if e.seconds < (b.at - a.at) - 2.0 * GAP_SECONDS { return None; }
      var wh := Most(0.0, b.wh - a.wh);
      return Some(Delta(wh, e, if e.seconds > 0.0 then Some(wh * 3600.0 / e.seconds) else None, peak));
    }
  }
}
