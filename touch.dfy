/**
  Touch sampling (calc_touch) and the `run` command: from one tunnel vertex,
  shoot batchSize random probes through configuration space and store the
  first contact of each as one touch-query batch file.

  The random direction and angle of each probe are a parameter (`draws`):
  draw i is the pair the random number generator produced for probe i.
 */
module TouchSampling {
  import opened Types
  import opened Naming
  import opened Partition

  /** Contact-search step length passed to the engine. */
  const STEP: real := 0.0125 / 8.0

  /** One random draw: a direction on the unit sphere and an angle vector within radius 2 pi. */
  datatype Probe = Probe(direction: Config, angle: Config)

  /** The contact found by probe `draw` shot from `vertex`. */
  function ProbeContact(e: Engine, vertex: Config, draw: Probe): Contact
  {
    var q0 := e.toUnitState(vertex);
    e.transitWithContact(q0, e.apply(q0, draw.direction, draw.angle), STEP)
  }

  /** The batch file `run` stores: the five probe arrays and the origin repeated. */
  function TouchBatch(e: Engine, vertex: Config, n: nat, draws: nat -> Probe): (d: BatchFile)
    ensures WellFormed(d, n)
  {
    BatchFile(seq(n, _ => vertex),
              seq(n, i requires 0 <= i < n => ProbeContact(e, vertex, draws(i)).free),
              seq(n, i requires 0 <= i < n => ProbeContact(e, vertex, draws(i)).touch),
              seq(n, i requires 0 <= i < n => ProbeContact(e, vertex, draws(i)).isInf),
              seq(n, i requires 0 <= i < n => ProbeContact(e, vertex, draws(i)).freeTau),
              seq(n, i requires 0 <= i < n => ProbeContact(e, vertex, draws(i)).touchTau))
  }

  /**
    calc_touch: one probe per iteration, each appending the five parts of its
    contact to five parallel lists.
   */
  method CalcTouch(e: Engine, vertex: Config, batchSize: nat, draws: nat -> Probe)
    returns (free: seq<Config>, touch: seq<Config>, inf: seq<bool>, freeTau: seq<real>, touchTau: seq<real>)
    ensures |free| == |touch| == |inf| == |freeTau| == |touchTau| == batchSize
    ensures forall i :: 0 <= i < batchSize ==>
              var c := ProbeContact(e, vertex, draws(i));
              free[i] == c.free && touch[i] == c.touch && inf[i] == c.isInf
              && freeTau[i] == c.freeTau && touchTau[i] == c.touchTau
  {
    var q0 := e.toUnitState(vertex);
    free, touch, inf, freeTau, touchTau := [], [], [], [], [];
    var i := 0;
    while i < batchSize
      invariant i <= batchSize
      invariant |free| == |touch| == |inf| == |freeTau| == |touchTau| == i
      invariant forall j :: 0 <= j < i ==>
                  var c := ProbeContact(e, vertex, draws(j));
                  free[j] == c.free && touch[j] == c.touch && inf[j] == c.isInf
                  && freeTau[j] == c.freeTau && touchTau[j] == c.touchTau
    {
      var tr, aa := draws(i).direction, draws(i).angle;
      var to := e.apply(q0, tr, aa);
      var tups := e.transitWithContact(q0, to, STEP);
      free := free + [tups.free];
      touch := touch + [tups.touch];
      inf := inf + [tups.isInf];
      freeTau := freeTau + [tups.freeTau];
      touchTau := touchTau + [tups.touchTau];
      i := i + 1;
    }
  }

  /**
    The `run` command: task taskId samples from tunnel vertex taskId mod V and
    saves its batch under the touch-query name of the task. An empty tunnel
    vertex array makes the divmod fail.
   */
  method RunTask(e: Engine, tunnelV: seq<Config>, taskId: nat, batchSize: nat, outDir: string,
                 draws: nat -> Probe)
    returns (r: Result<(string, BatchFile)>)
    ensures |tunnelV| == 0 ==> r == Err(ZeroDivision)
    ensures |tunnelV| > 0 ==>
              && r.Ok?
              && r.value.0 == TouchQName(outDir, taskId % |tunnelV|, taskId / |tunnelV|)
              && r.value.1 == TouchBatch(e, tunnelV[taskId % |tunnelV|], batchSize, draws)
  {
    if |tunnelV| == 0 {
      return Err(ZeroDivision);
    }
    var tp := NewPartitioner(outDir, None, batchSize, tunnelV).value;
    var vertex := tp.TunnelVertex(taskId);
    var outFn := tp.TqName(taskId);
    var free, touch, inf, freeTau, touchTau := CalcTouch(e, vertex, batchSize, draws);
    var file := BatchFile(seq(batchSize, _ => vertex), free, touch, inf, freeTau, touchTau);
    assert file == TouchBatch(e, vertex, batchSize, draws);
    r := Ok((outFn, file));
  }

  /**
    What `run` stores is what the geometry-processing tasks replay: when the
    batch file of touch-query task tqTask is the one `run` wrote, its gp tasks
    together yield the touch and flag of every probe, in probe order, with
    configuration ids ConfBase .. ConfBase + tqBatch - 1.
   */
  lemma RunThenReplay(p: Partitioner, store: map<string, BatchFile>, tqTask: nat,
                      e: Engine, draws: nat -> Probe)
    requires p.Valid() && |p.tunnelV| > 0 && p.gpBatch.Some?
    requires p.TqName(tqTask) in store
    requires store[p.TqName(tqTask)] == TouchBatch(e, p.TunnelVertex(tqTask), p.tqBatch, draws)
    ensures var s := p.Replayed(store, tqTask * p.gpPerTq.value, p.gpPerTq.value);
            && |s| == p.tqBatch
            && forall c :: 0 <= c < p.tqBatch ==>
                 var k := ProbeContact(e, p.TunnelVertex(tqTask), draws(c));
                 s[c] == Sample(k.touch, k.isInf, p.VertId(tqTask), p.ConfBase(tqTask) + c)
  {
    SubBatchesPartition(p, store, tqTask);
  }
}
