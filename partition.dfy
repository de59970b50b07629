/**
  The task partitioner: how an integer task id becomes a (batch, vertex)
  pair and, for geometry-processing tasks, a (touch-query task, sub-batch)
  pair; and the replay of one sub-batch of a touch-query batch file with the
  (vertex id, configuration id) of every sample re-derived by arithmetic.

  Layout of the work (one touch-query batch, split into gp-batches):

    |------------- touch-query batch of vertex v, batch b -------------|
    |-- gp task 0 --||-- gp task 1 --|  ...  |-- gp task gpPerTq-1 --|

  configuration ids of that batch: b * tqBatch .. b * tqBatch + tqBatch - 1.
 */
module Partition {
  import opened Types
  import opened Naming

  /** One replayed sample: the touch configuration, its flag, and its identity. */
  datatype Sample = Sample(touch: Config, isInf: bool, vertId: nat, confId: nat)

  /**
    What the replay generator yields: `samples` in order, then either it
    ran to the end (`complete`) or the next array read was out of range.
   */
  datatype Replay = Replay(samples: seq<Sample>, complete: bool)

  // ---- arithmetic facts --------------------------------------------------

  /** q * n + r with 0 <= r < n is the Euclidean (for n > 0 also Python's) divmod. */
  lemma DivModUnique(t: int, n: int, q: int, r: int)
    requires n > 0 && 0 <= r < n && q * n + r == t
    ensures q == t / n && r == t % n
  {
    var q0, r0 := t / n, t % n;
    assert q0 * n + r0 == t;
    if q < q0 {
      MulStep(q, q0, n);
    } else if q0 < q {
      MulStep(q0, q, n);
    }
  }

  lemma MulStep(a: int, b: int, n: int)
    requires a < b && n > 0
    ensures a * n + n <= b * n
  {
    var c := b - a;
    assert b * n == a * n + c * n;
    assert c * n == (c - 1) * n + n;
    assert (c - 1) * n >= 0;
  }

  lemma MulSucc(a: nat, n: nat)
    ensures (a + 1) * n == a * n + n
  {
  }

  lemma DivExact(t: nat, n: nat)
    requires n > 0 && t % n == 0
    ensures (t / n) * n == t
  {
  }

  /** The i-th item of sub-batch r stays inside a batch of k sub-batches of size gp. */
  lemma SubBatchBound(r: nat, i: nat, k: nat, gp: nat)
    requires r < k && i < gp
    ensures r * gp + i < k * gp && r * gp + gp <= k * gp
  {
    if gp > 0 {
      MulStep(r, k, gp);
    }
  }

  // ---- the partitioner -----------------------------------------------------

  /**
    The state of a TaskPartitioner after construction. `tunnelV` is the tunnel
    vertex array loaded from disk; `gpPerTq` is only set when a geometry batch
    size was given.
   */
  datatype Partitioner = Partitioner(
    ioDir: string,
    gpBatch: Option<nat>,
    gpPerTq: Option<nat>,
    tqBatch: nat,
    tunnelV: seq<Config>)
  {
    /** What construction establishes. */
    predicate Valid()
    {
      (gpBatch.None? <==> gpPerTq.None?)
      && (gpBatch.Some? ==> gpBatch.value > 0 && gpPerTq.value * gpBatch.value == tqBatch)
    }

    /** divmod(task_id, number of tunnel vertices): the task vector as a (batch, vertex) matrix. */
    function BatchVertIndex(taskId: nat): (r: (nat, nat))
      requires |tunnelV| > 0
      ensures r.1 < |tunnelV| && r.0 * |tunnelV| + r.1 == taskId
    {
      (taskId / |tunnelV|, taskId % |tunnelV|)
    }

    /** get_vert_id: the remainder of divmod(task_id, V). */
    function VertId(taskId: nat): (r: nat)
      requires |tunnelV| > 0
      ensures r < |tunnelV| && BatchId(taskId) * |tunnelV| + r == taskId
    {
      BatchVertIndex(taskId).1
    }

    /** get_batch_id: the floor quotient of divmod(task_id, V). */
    function BatchId(taskId: nat): (r: nat)
      requires |tunnelV| > 0
      ensures r * |tunnelV| <= taskId < r * |tunnelV| + |tunnelV|
    {
      BatchVertIndex(taskId).0
    }

    /** get_tunnel_vertex: the tunnel vertex a task samples from. */
    function TunnelVertex(taskId: nat): (r: Config)
      requires |tunnelV| > 0
      ensures r in tunnelV
      ensures r == tunnelV[taskId % |tunnelV|]
    {
      tunnelV[VertId(taskId)]
    }

    /** get_tq_batch_size: on a partitioner with gp batches, gp_per_tq sub-batches of gp_batch samples. */
    function TqBatchSize(): (r: nat)
      ensures r == tqBatch
      ensures Valid() && gpBatch.Some? ==> r == gpPerTq.value * gpBatch.value
    {
      tqBatch
    }

    /** Configuration id of row 0 of the batch file of touch-query task taskId. */
    function ConfBase(taskId: nat): nat
      requires |tunnelV| > 0
    {
      BatchId(taskId) * tqBatch
    }

    /** Array row where sub-batch rem of a batch file starts. */
    function SubStart(rem: nat): nat
      requires gpBatch.Some?
    {
      rem * gpBatch.value
    }

    /** divmod(task_id, gp_per_tq): owning touch-query task and sub-batch of a gp task. */
    function TaskIdGpToTq(taskId: nat): (r: Result<(nat, nat)>)
      ensures gpPerTq.None? ==> r == Err(NoGpBatch)
      ensures gpPerTq == Some(0) ==> r == Err(ZeroDivision)
      ensures r.Ok? <==> gpPerTq.Some? && gpPerTq.value > 0
      ensures r.Ok? ==> r.value.1 < gpPerTq.value && r.value.0 * gpPerTq.value + r.value.1 == taskId
    {
      match gpPerTq
      case None => Err(NoGpBatch)
      case Some(k) => if k == 0 then Err(ZeroDivision) else Ok((taskId / k, taskId % k))
    }

    /** get_tq_fn: the batch file of (vertex, batch) = divmod(task_id, V), in io_dir. */
    function TqName(taskId: nat): (r: string)
      requires |tunnelV| > 0
      ensures InDir(r, ioDir, "/touchq-", ".npz")
    {
      TouchQName(ioDir, VertId(taskId), BatchId(taskId))
    }

    /** get_isect_fn: the intersection mesh of (vertex, configuration), in io_dir. */
    function IsectName(vert: nat, conf: nat): (r: string)
      ensures r == IsectGeoName(ioDir, vert, conf)
      ensures InDir(r, ioDir, "/isectgeo-from-vert-", ".obj")
    {
      IsectGeoName(ioDir, vert, conf)
    }

    /** get_uv_fn: the UV mesh of (geo type, vertex, configuration), in io_dir. */
    function UvName(geo: GeoType, vert: nat, conf: nat): (r: string)
      ensures r == UvGeoName(ioDir, geo, vert, conf)
      ensures InDir(r, ioDir, "/" + GeoName(geo) + "-uv-from-vert-", ".obj")
    {
      UvGeoName(ioDir, geo, vert, conf)
    }

    /**
      gen_touch_q: resolve the gp task to its touch-query task and sub-batch,
      load that batch file from `store` and replay the gpBatch samples of the
      sub-batch.
     */
    function GenTouchQ(store: map<string, BatchFile>, taskId: nat): (r: Result<Replay>)
      requires Valid() && |tunnelV| > 0
      ensures gpPerTq.None? ==> r == Err(NoGpBatch)
      ensures gpPerTq == Some(0) ==> r == Err(ZeroDivision)
      ensures r.Ok? <==> gpPerTq.Some? && gpPerTq.value > 0 && TqName(taskId / gpPerTq.value) in store
      ensures r.Err? && gpPerTq.Some? && gpPerTq.value > 0 ==>
                r.error == MissingFile(TqName(taskId / gpPerTq.value))
      ensures r.Ok? ==>
                && gpBatch.Some? && gpPerTq.Some? && gpPerTq.value > 0
                && TqName(taskId / gpPerTq.value) in store
                && r.value == TqGen(store[TqName(taskId / gpPerTq.value)], SubStart(taskId % gpPerTq.value),
                                 gpBatch.value, VertId(taskId / gpPerTq.value), ConfBase(taskId / gpPerTq.value))
    {
      match TaskIdGpToTq(taskId)
      case Err(e) => Err(e)
      case Ok((tq, rem)) =>
        var fn := TqName(tq);
        if fn !in store then Err(MissingFile(fn))
        else Ok(TqGen(store[fn], SubStart(rem), gpBatch.value, VertId(tq), ConfBase(tq)))
    }

    /** The samples a gp task yields, or none if it fails before yielding. */
    function SamplesOf(store: map<string, BatchFile>, taskId: nat): seq<Sample>
      requires Valid() && |tunnelV| > 0
    {
      match GenTouchQ(store, taskId)
      case Ok(rp) => rp.samples
      case Err(_) => []
    }

    /** The samples of gp tasks first, first + 1, ..., first + count - 1, in task order. */
    function Replayed(store: map<string, BatchFile>, first: nat, count: nat): seq<Sample>
      requires Valid() && |tunnelV| > 0
    {
      Flatten(seq(count, i requires 0 <= i < count => SamplesOf(store, first + i)))
    }
  }

  /**
    TaskPartitioner's constructor. gp_batch None is the `run` command's
    configuration; otherwise `tq_batch % gp_batch == 0` is asserted
    (a zero gp_batch raises ZeroDivisionError first).
   */
  function NewPartitioner(ioDir: string, gpBatch: Option<nat>, tqBatch: nat,
                          tunnelV: seq<Config>): (r: Result<Partitioner>)
    ensures gpBatch.None? ==> r.Ok? && r.value.gpPerTq.None?
    ensures gpBatch == Some(0) ==> r == Err(ZeroDivision)
    ensures gpBatch.Some? && gpBatch.value > 0 ==>
              (r.Ok? <==> tqBatch % gpBatch.value == 0)
              && (r.Err? ==> r.error == NotDivisible(tqBatch, gpBatch.value))
    ensures r.Ok? ==> r.value.Valid() && r.value.ioDir == ioDir && r.value.gpBatch == gpBatch
                      && r.value.tqBatch == tqBatch && r.value.tunnelV == tunnelV
    ensures r.Ok? && gpBatch.Some? ==> r.value.gpPerTq.value * gpBatch.value == tqBatch
  {
    match gpBatch
    case None => Ok(Partitioner(ioDir, None, None, tqBatch, tunnelV))
    case Some(gp) =>
      if gp == 0 then Err(ZeroDivision)
      else if tqBatch % gp != 0 then Err(NotDivisible(tqBatch, gp))
      else
        DivExact(tqBatch, gp);
        Ok(Partitioner(ioDir, gpBatch, Some(tqBatch / gp), tqBatch, tunnelV))
  }

  /**
    tqgen: yields `size` samples starting at array index `start`, stopping
    early at the first index past the end of the TOUCH_V or IS_INF array.
   */
  function TqGen(d: BatchFile, start: nat, size: nat, vertId: nat, confBase: nat): (r: Replay)
    ensures r.complete <==> size == 0 || (start + size <= |d.touchV| && start + size <= |d.isInf|)
    ensures r.complete ==> |r.samples| == size
    ensures !r.complete ==> |r.samples| < size
                            && (start + |r.samples| >= |d.touchV| || start + |r.samples| >= |d.isInf|)
    ensures forall i :: 0 <= i < |r.samples| ==>
              && start + i < |d.touchV| && start + i < |d.isInf|
              && r.samples[i] == Sample(d.touchV[start + i], d.isInf[start + i], vertId, confBase + start + i)
  {
    var limit := Min(|d.touchV|, |d.isInf|);
    var avail: nat := if limit <= start then 0 else Min(size, limit - start);
    Replay(seq(avail, i requires 0 <= i < avail =>
                 Sample(d.touchV[start + i], d.isInf[start + i], vertId, confBase + start + i)),
           avail == size)
  }

  /** The parts one after the other. */
  function Flatten<T>(parts: seq<seq<T>>): seq<T>
  {
    if |parts| == 0 then [] else parts[0] + Flatten(parts[1..])
  }

  /** A whole batch file as samples of vertex `vert` with ids from `base`. */
  function BatchSamples(d: BatchFile, n: nat, vert: nat, base: nat): seq<Sample>
    requires n <= |d.touchV| && n <= |d.isInf|
  {
    seq(n, c requires 0 <= c < n => Sample(d.touchV[c], d.isInf[c], vert, base + c))
  }

  // ---- properties ------------------------------------------------------------

  /** The (batch, vertex) pair is the only one with batch * V + vertex == task id. */
  lemma BatchVertIndexIsDivMod(p: Partitioner, taskId: nat, batch: nat, vert: nat)
    requires |p.tunnelV| > 0 && vert < |p.tunnelV|
    ensures p.BatchVertIndex(taskId) == (batch, vert) <==> batch * |p.tunnelV| + vert == taskId
  {
    if batch * |p.tunnelV| + vert == taskId {
      DivModUnique(taskId, |p.tunnelV|, batch, vert);
    }
  }

  /** Tasks V apart sample the same tunnel vertex, one batch further on. */
  lemma NextBatchSameVertex(p: Partitioner, taskId: nat)
    requires |p.tunnelV| > 0
    ensures p.VertId(taskId + |p.tunnelV|) == p.VertId(taskId)
    ensures p.BatchId(taskId + |p.tunnelV|) == p.BatchId(taskId) + 1
    ensures p.TunnelVertex(taskId + |p.tunnelV|) == p.TunnelVertex(taskId)
  {
    var n := |p.tunnelV|;
    DivModUnique(taskId + n, n, taskId / n + 1, taskId % n);
  }

  /** Distinct task ids have distinct touch-query file names. */
  lemma TqNameInjective(p: Partitioner, t1: nat, t2: nat)
    requires |p.tunnelV| > 0
    ensures p.TqName(t1) == p.TqName(t2) <==> t1 == t2
  {
    TouchQNameInjective(p.ioDir, p.VertId(t1), p.BatchId(t1), p.VertId(t2), p.BatchId(t2));
  }

  /** The gp tasks of one touch-query task are tqTask * k .. tqTask * k + k - 1. */
  lemma GpTaskOwner(k: nat, tqTask: nat, j: nat)
    requires j < k
    ensures (tqTask * k + j) / k == tqTask && (tqTask * k + j) % k == j
  {
    DivModUnique(tqTask * k + j, k, tqTask, j);
  }

  /**
    gen_touch_q of gp task tq * k + rem (rem < k) replays sub-batch rem of the
    batch file of touch-query task tq: gpBatch samples from array row
    rem * gpBatch, under vertex tq mod V and configuration base (tq div V) * tqBatch.
   */
  lemma GenTouchQIsTqGen(p: Partitioner, store: map<string, BatchFile>, taskId: nat, tq: nat, rem: nat)
    requires p.Valid() && |p.tunnelV| > 0 && p.gpBatch.Some?
    requires rem < p.gpPerTq.value && tq * p.gpPerTq.value + rem == taskId
    requires p.TqName(tq) in store
    ensures p.GenTouchQ(store, taskId)
            == Ok(TqGen(store[p.TqName(tq)], p.SubStart(rem), p.gpBatch.value, p.VertId(tq), p.ConfBase(tq)))
  {
    DivModUnique(taskId, p.gpPerTq.value, tq, rem);
  }

  /** Every row a sub-batch reads lies inside its batch; a full batch completes every sub-batch. */
  lemma TqGenWithin(d: BatchFile, start: nat, r: nat, k: nat, gp: nat, vert: nat, base: nat, batch: nat)
    requires r < k && start == r * gp && k * gp == batch
    ensures var s := TqGen(d, start, gp, vert, base);
            && (batch <= |d.touchV| && batch <= |d.isInf| ==> s.complete)
            && start + |s.samples| <= batch
  {
    if gp > 0 {
      MulStep(r, k, gp);
    }
  }

  /** On a full batch, sub-batch r is exactly slice r of the batch's samples. */
  lemma TqGenSubBatch(d: BatchFile, start: nat, r: nat, k: nat, gp: nat, vert: nat, base: nat, batch: nat)
    requires r < k && start == r * gp && k * gp == batch && batch <= |d.touchV| && batch <= |d.isInf|
    ensures start + gp <= batch
    ensures TqGen(d, start, gp, vert, base) == Replay(BatchSamples(d, batch, vert, base)[start..start + gp], true)
  {
    TqGenWithin(d, start, r, k, gp, vert, base, batch);
  }

  /**
    What a successful gen_touch_q of sub-batch rem of touch-query task tq
    yields, given the batch file d: at most gpBatch samples (exactly gpBatch
    when complete, and complete for a batch file written by `run`); its rows
    lie inside the batch, and sample i is array row SubStart(rem) + i, with
    vertex VertId(tq) and configuration id ConfBase(tq) + SubStart(rem) + i.
   */
  predicate SubBatchFacts(p: Partitioner, d: BatchFile, tq: nat, rem: nat, s: Replay)
    requires |p.tunnelV| > 0 && p.gpBatch.Some?
  {
    var gp := p.gpBatch.value;
    && |s.samples| <= gp
    && (s.complete ==> |s.samples| == gp)
    && (WellFormed(d, p.tqBatch) ==> s.complete)
    && p.SubStart(rem) + |s.samples| <= p.tqBatch
    && (forall i :: 0 <= i < |s.samples| ==>
          && p.SubStart(rem) + i < |d.touchV| && p.SubStart(rem) + i < |d.isInf|
          && s.samples[i] == Sample(d.touchV[p.SubStart(rem) + i], d.isInf[p.SubStart(rem) + i],
                                 p.VertId(tq), p.ConfBase(tq) + p.SubStart(rem) + i))
  }

  /** The replay of sub-batch rem of touch-query task tq satisfies SubBatchFacts. */
  lemma TqGenFacts(p: Partitioner, d: BatchFile, tq: nat, rem: nat)
    requires p.Valid() && |p.tunnelV| > 0 && p.gpBatch.Some? && rem < p.gpPerTq.value
    ensures SubBatchFacts(p, d, tq, rem, TqGen(d, p.SubStart(rem), p.gpBatch.value, p.VertId(tq), p.ConfBase(tq)))
  {
    var start, gp, vert, base := p.SubStart(rem), p.gpBatch.value, p.VertId(tq), p.ConfBase(tq);
    TqGenWithin(d, start, rem, p.gpPerTq.value, gp, vert, base, p.tqBatch);
  }

  /** gen_touch_q on a present batch file satisfies SubBatchFacts. */
  lemma GenTouchQSamples(p: Partitioner, store: map<string, BatchFile>, taskId: nat, tq: nat, rem: nat)
    requires p.Valid() && |p.tunnelV| > 0 && p.gpBatch.Some?
    requires rem < p.gpPerTq.value && tq * p.gpPerTq.value + rem == taskId
    requires p.TqName(tq) in store
    ensures p.GenTouchQ(store, taskId).Ok?
    ensures SubBatchFacts(p, store[p.TqName(tq)], tq, rem, p.GenTouchQ(store, taskId).value)
  {
    GenTouchQIsTqGen(p, store, taskId, tq, rem);
    TqGenFacts(p, store[p.TqName(tq)], tq, rem);
  }

  /** gp task tqTask * k + j replays slice j of its batch. */
  lemma SubBatchSlice(p: Partitioner, store: map<string, BatchFile>, tqTask: nat, j: nat)
    requires p.Valid() && |p.tunnelV| > 0 && p.gpBatch.Some?
    requires p.TqName(tqTask) in store && WellFormed(store[p.TqName(tqTask)], p.tqBatch)
    requires j < p.gpPerTq.value
    ensures p.SubStart(j + 1) == p.SubStart(j) + p.gpBatch.value <= p.tqBatch
    ensures p.SamplesOf(store, tqTask * p.gpPerTq.value + j)
            == BatchSamples(store[p.TqName(tqTask)], p.tqBatch, p.VertId(tqTask), p.ConfBase(tqTask))
                 [p.SubStart(j)..p.SubStart(j + 1)]
  {
    MulSucc(j, p.gpBatch.value);
    GenTouchQIsTqGen(p, store, tqTask * p.gpPerTq.value + j, tqTask, j);
    TqGenSubBatch(store[p.TqName(tqTask)], p.SubStart(j), j, p.gpPerTq.value, p.gpBatch.value,
                  p.VertId(tqTask), p.ConfBase(tqTask), p.tqBatch);
  }

  /** Parts j, j + 1, ... that are consecutive slices of width w make up all from j * w on. */
  lemma {:induction false} FlattenSlicesFrom<T>(parts: seq<seq<T>>, all: seq<T>, w: nat, j: nat)
    requires |all| == |parts| * w && j <= |parts|
    requires forall i :: 0 <= i < |parts| ==> i * w + w <= |all| && parts[i] == all[i * w..i * w + w]
    ensures j * w <= |all| && Flatten(parts[j..]) == all[j * w..]
    decreases |parts| - j
  {
    if j == |parts| {
      assert parts[j..] == [];
    } else {
      FlattenSlicesFrom(parts, all, w, j + 1);
      MulSucc(j, w);
      assert parts[j..][1..] == parts[j + 1..];
      assert all[j * w..] == all[j * w..j * w + w] + all[(j + 1) * w..];
    }
  }

  /** Consecutive slices of width w, flattened, are the whole sequence. */
  lemma FlattenSlices<T>(parts: seq<seq<T>>, all: seq<T>, w: nat)
    requires |all| == |parts| * w
    requires forall i :: 0 <= i < |parts| ==> i * w + w <= |all| && parts[i] == all[i * w..i * w + w]
    ensures Flatten(parts) == all
  {
    FlattenSlicesFrom(parts, all, w, 0);
    assert parts[0..] == parts && all[0..] == all;
  }

  /**
    The partition property: the gp tasks of one touch-query task together
    replay every sample of its batch exactly once, in order.
   */
  lemma SubBatchesPartition(p: Partitioner, store: map<string, BatchFile>, tqTask: nat)
    requires p.Valid() && |p.tunnelV| > 0 && p.gpBatch.Some?
    requires p.TqName(tqTask) in store && WellFormed(store[p.TqName(tqTask)], p.tqBatch)
    ensures p.Replayed(store, tqTask * p.gpPerTq.value, p.gpPerTq.value)
            == BatchSamples(store[p.TqName(tqTask)], p.tqBatch, p.VertId(tqTask), p.ConfBase(tqTask))
  {
    var k, gp := p.gpPerTq.value, p.gpBatch.value;
    var first := tqTask * k;
    var all := BatchSamples(store[p.TqName(tqTask)], p.tqBatch, p.VertId(tqTask), p.ConfBase(tqTask));
    var parts := seq(k, i requires 0 <= i < k => p.SamplesOf(store, first + i));
    forall i | 0 <= i < k
      ensures i * gp + gp <= |all| && parts[i] == all[i * gp..i * gp + gp]
    {
      SubBatchSlice(p, store, tqTask, i);
    }
    FlattenSlices(parts, all, gp);
  }

  /**
    Every configuration id of the batch, ConfBase .. ConfBase + tqBatch - 1,
    is replayed by exactly one position, in increasing order, all under the
    batch's vertex.
   */
  lemma ConfIdsCoverBatch(p: Partitioner, store: map<string, BatchFile>, tqTask: nat)
    requires p.Valid() && |p.tunnelV| > 0 && p.gpBatch.Some?
    requires p.TqName(tqTask) in store && WellFormed(store[p.TqName(tqTask)], p.tqBatch)
    ensures var s := p.Replayed(store, tqTask * p.gpPerTq.value, p.gpPerTq.value);
            && |s| == p.tqBatch
            && (forall c :: 0 <= c < |s| ==> s[c].confId == p.ConfBase(tqTask) + c && s[c].vertId == p.VertId(tqTask))
            && (forall c1, c2 :: 0 <= c1 < c2 < |s| ==> s[c1].confId < s[c2].confId)
  {
    SubBatchesPartition(p, store, tqTask);
  }

  /** Arithmetic core of key uniqueness: (tq mod n, (tq div n) * T + r * gp + i) determines (tq, r, i). */
  lemma KeyDecompose(n: nat, bigT: nat, k: nat, gp: nat,
                     tq1: nat, r1: nat, i1: nat, tq2: nat, r2: nat, i2: nat)
    requires n > 0 && k * gp == bigT && r1 < k && r2 < k && i1 < gp && i2 < gp
    requires tq1 % n == tq2 % n
    requires (tq1 / n) * bigT + (r1 * gp + i1) == (tq2 / n) * bigT + (r2 * gp + i2)
    ensures tq1 == tq2 && r1 == r2 && i1 == i2
  {
    var x1, x2 := r1 * gp + i1, r2 * gp + i2;
    SubBatchBound(r1, i1, k, gp);
    SubBatchBound(r2, i2, k, gp);
    var conf := (tq1 / n) * bigT + x1;
    DivModUnique(conf, bigT, tq1 / n, x1);
    DivModUnique(conf, bigT, tq2 / n, x2);
    DivModUnique(x1, gp, r1, i1);
    DivModUnique(x1, gp, r2, i2);
    assert tq1 == (tq1 / n) * n + tq1 % n;
    assert tq2 == (tq2 / n) * n + tq2 % n;
  }

  /**
    (vertex id, configuration id) identifies a sample across all gp tasks:
    two replayed samples with the same pair came from the same task and
    the same position.
   */
  lemma SampleKeysUnique(p: Partitioner, store: map<string, BatchFile>,
                         t1: nat, i1: nat, t2: nat, i2: nat)
    requires p.Valid() && |p.tunnelV| > 0
    requires p.GenTouchQ(store, t1).Ok? && p.GenTouchQ(store, t2).Ok?
    requires i1 < |p.GenTouchQ(store, t1).value.samples| && i2 < |p.GenTouchQ(store, t2).value.samples|
    requires p.GenTouchQ(store, t1).value.samples[i1].vertId == p.GenTouchQ(store, t2).value.samples[i2].vertId
    requires p.GenTouchQ(store, t1).value.samples[i1].confId == p.GenTouchQ(store, t2).value.samples[i2].confId
    ensures t1 == t2 && i1 == i2
  {
    var k, gp, n := p.gpPerTq.value, p.gpBatch.value, |p.tunnelV|;
    var (tq1, r1) := p.TaskIdGpToTq(t1).value;
    var (tq2, r2) := p.TaskIdGpToTq(t2).value;
    GenTouchQSamples(p, store, t1, tq1, r1);
    GenTouchQSamples(p, store, t2, tq2, r2);
    KeyDecompose(n, p.tqBatch, k, gp, tq1, r1, i1, tq2, r2, i2);
  }
}
