/**
  The three file-walking generators of the geometry-processing commands:

  - TouchQGenerator walks the touch-query batch files of one tunnel vertex,
    batch 0, 1, 2, ..., yielding (touch configuration, is-inf flag) pairs, and
    stops at the first batch file that does not exist;
  - ObjGenerator walks the intersection meshes of one vertex and stops at the
    first missing one;
  - UVObjGenerator walks the UV meshes of one vertex and never stops: a
    missing file yields "nothing" and the counter still moves on.

  The file system is a map from file name to contents.
 */
module Generators {
  import opened Types
  import opened Naming

  // ---------------------------------------------------------------------
  // Runs of present files under an injective naming scheme
  // ---------------------------------------------------------------------

  /** A file-naming scheme that gives distinct numbers distinct names. */
  ghost predicate Injective(name: nat -> string)
  {
    forall i: nat, j: nat :: name(i) == name(j) ==> i == j
  }

  /** The names of files 0 .. b - 1. */
  ghost function Names(name: nat -> string, b: nat): set<string>
  {
    if b == 0 then {} else Names(name, b - 1) + {name(b - 1)}
  }

  lemma {:induction false} NamesMember(name: nat -> string, b: nat, j: nat)
    requires Injective(name)
    ensures name(j) in Names(name, b) <==> j < b
  {
    if b > 0 {
      NamesMember(name, b - 1, j);
    }
  }

  lemma {:induction false} NamesCard(name: nat -> string, b: nat)
    requires Injective(name)
    ensures |Names(name, b)| == b
  {
    if b > 0 {
      NamesCard(name, b - 1);
      NamesMember(name, b - 1, b - 1);
    }
  }

  lemma {:induction false} NamesWithin<V>(m: map<string, V>, name: nat -> string, b: nat)
    requires forall j :: 0 <= j < b ==> name(j) in m
    ensures Names(name, b) <= m.Keys
  {
    if b > 0 {
      NamesWithin(m, name, b - 1);
    }
  }

  /** A directory holding files 0 .. b - 1 of an injective scheme holds at least b files. */
  lemma PresentRunBound<V>(m: map<string, V>, name: nat -> string, b: nat)
    requires Injective(name)
    requires forall j :: 0 <= j < b ==> name(j) in m
    ensures b <= |m|
  {
    NamesCard(name, b);
    NamesWithin(m, name, b);
    SubsetCard(Names(name, b), m.Keys);
  }

  lemma {:induction false} SubsetCard<T>(a: set<T>, b: set<T>)
    requires a <= b
    ensures |a| <= |b|
  {
    if a != {} {
      var x :| x in a;
      SubsetCard(a - {x}, b - {x});
    }
  }

  lemma TouchQScheme(dir: string, vert: nat)
    ensures Injective((j: nat) => TouchQName(dir, vert, j))
  {
    forall i: nat, j: nat | TouchQName(dir, vert, i) == TouchQName(dir, vert, j)
      ensures i == j
    {
      TouchQNameInjective(dir, vert, i, vert, j);
    }
  }

  lemma IsectScheme(dir: string, vert: nat)
    ensures Injective((j: nat) => IsectGeoName(dir, vert, j))
  {
    forall i: nat, j: nat | IsectGeoName(dir, vert, i) == IsectGeoName(dir, vert, j)
      ensures i == j
    {
      IsectGeoNameInjective(dir, vert, i, vert, j);
    }
  }

  /** A directory holding touch-query batches 0 .. b - 1 of a vertex holds at least b files. */
  lemma TouchQRunBound<V>(files: map<string, V>, dir: string, vert: nat, b: nat)
    requires forall j :: 0 <= j < b ==> TouchQName(dir, vert, j) in files
    ensures b <= |files|
  {
    TouchQScheme(dir, vert);
    PresentRunBound(files, (j: nat) => TouchQName(dir, vert, j), b);
  }

  /** A directory holding intersection meshes 0 .. c - 1 of a vertex holds at least c files. */
  lemma IsectRunBound<V>(files: map<string, V>, dir: string, vert: nat, c: nat)
    requires forall j :: 0 <= j < c ==> IsectGeoName(dir, vert, j) in files
    ensures c <= |files|
  {
    IsectScheme(dir, vert);
    PresentRunBound(files, (j: nat) => IsectGeoName(dir, vert, j), c);
  }

  // ---------------------------------------------------------------------
  // The touch-query stream
  // ---------------------------------------------------------------------

  /** One item of the touch-query stream: a touch configuration and its is-inf flag. */
  type Record = (Config, bool)

  /**
    What a walk yields: its items, and whether it ends by stopping cleanly
    (true) or by an out-of-range read (false).
   */
  datatype Stream = Stream(items: seq<Record>, ok: bool)

  /**
    The records one batch file yields: row k pairs touch row k with flag row k,
    for as long as both arrays have a row k; reading stops with an error when
    the file has no touch rows (row 0 is read regardless) or fewer flags than
    touch rows.
   */
  function BatchStream(d: BatchFile): Stream
  {
    var n := Min(|d.touchV|, |d.isInf|);
    Stream(seq(n, k requires 0 <= k < n => (d.touchV[k], d.isInf[k])), Clean(d))
  }

  /** A batch file whose every touch row has a flag, and which has at least one touch row. */
  predicate Clean(d: BatchFile)
  {
    0 < |d.touchV| <= |d.isInf|
  }

  /** Batch files 0 .. b - 1 of vertex vert exist. */
  ghost predicate Loaded(files: map<string, BatchFile>, dir: string, vert: nat, b: nat)
  {
    forall j :: 0 <= j < b ==> TouchQName(dir, vert, j) in files
  }

  /** Batch files 0 .. b - 1 exist and each is read to its end without error. */
  ghost predicate AllOk(files: map<string, BatchFile>, dir: string, vert: nat, b: nat)
  {
    && Loaded(files, dir, vert, b)
    && forall j :: 0 <= j < b ==> Clean(files[TouchQName(dir, vert, j)])
  }

  /**
    The stream a generator yields from batch b on: batch b's records, then
    (when batch b was read without error) those of batch b + 1 and on, up to
    the first missing batch file.
   */
  ghost function StreamFrom(files: map<string, BatchFile>, dir: string, vert: nat, b: nat): (w: Stream)
    requires Loaded(files, dir, vert, b)
    // a missing batch file: StopIteration before anything is yielded
    ensures TouchQName(dir, vert, b) !in files ==> w == Stream([], true)
    // an existing one: its records come first, and they are all when it fails
    ensures TouchQName(dir, vert, b) in files ==>
              var s := BatchStream(files[TouchQName(dir, vert, b)]);
              && |s.items| <= |w.items|
              && (forall k :: 0 <= k < |s.items| ==> w.items[k] == s.items[k])
              && (!s.ok ==> w == s)
    decreases |files| - b
  {
    var fn := TouchQName(dir, vert, b);
    if fn !in files then Stream([], true)
    else
      var s := BatchStream(files[fn]);
      if !s.ok then s
      else
        TouchQRunBound(files, dir, vert, b + 1);
        var rest := StreamFrom(files, dir, vert, b + 1);
        Stream(s.items + rest.items, rest.ok)
  }

  /** The records of batches 0 .. b - 1, concatenated. */
  ghost function Prefix(files: map<string, BatchFile>, dir: string, vert: nat, b: nat): seq<Record>
    requires Loaded(files, dir, vert, b)
  {
    if b == 0 then []
    else Prefix(files, dir, vert, b - 1) + BatchStream(files[TouchQName(dir, vert, b - 1)]).items
  }

  /** The whole stream is the records of the first b batches followed by the stream from batch b. */
  lemma {:induction false} StreamSplit(files: map<string, BatchFile>, dir: string, vert: nat, b: nat)
    requires AllOk(files, dir, vert, b)
    ensures StreamFrom(files, dir, vert, 0).items
            == Prefix(files, dir, vert, b) + StreamFrom(files, dir, vert, b).items
    ensures StreamFrom(files, dir, vert, 0).ok == StreamFrom(files, dir, vert, b).ok
  {
    if b > 0 {
      StreamSplit(files, dir, vert, b - 1);
      var p := Prefix(files, dir, vert, b - 1);
      var s := BatchStream(files[TouchQName(dir, vert, b - 1)]).items;
      var rest := StreamFrom(files, dir, vert, b).items;
      assert StreamFrom(files, dir, vert, b - 1).items == s + rest;
      assert p + (s + rest) == (p + s) + rest;
    }
  }

  /**
    A touch-query generator at row k of batch b, holding that batch's touch
    rows, flags and row count, having yielded the records of batches
    0 .. b - 1 and the first k records of batch b.
   */
  ghost predicate AtRow(files: map<string, BatchFile>, dir: string, vert: nat, b: nat, k: nat,
                        rows: seq<Config>, flags: seq<bool>, size: nat, yielded: seq<Record>)
  {
    && AllOk(files, dir, vert, b)
    && TouchQName(dir, vert, b) in files
    && var d := files[TouchQName(dir, vert, b)];
    && rows == d.touchV && flags == d.isInf && size == |rows|
    && k <= size && k <= |flags|
    && yielded == Prefix(files, dir, vert, b) + BatchStream(d).items[..k]
  }

  /**
    The state of a touch-query generator that has yielded `yielded`: batches
    0 .. b - 1 were read out without error, and either it sits between batches
    (tq = None) or it is inside batch b.
   */
  ghost predicate CursorOk(files: map<string, BatchFile>, dir: string, vert: nat, b: nat, k: nat,
                           tq: Option<seq<Config>>, inf: seq<bool>, size: nat, yielded: seq<Record>)
  {
    && AllOk(files, dir, vert, b)
    && (tq.None? ==> k == 0 && yielded == Prefix(files, dir, vert, b))
    && (tq.Some? ==> 0 < k < size && AtRow(files, dir, vert, b, k, tq.value, inf, size, yielded))
  }

  /** Loading an existing batch file puts the generator at row 0 of it. */
  lemma LoadBatch(files: map<string, BatchFile>, dir: string, vert: nat, b: nat, yielded: seq<Record>)
    requires AllOk(files, dir, vert, b) && TouchQName(dir, vert, b) in files
    requires yielded == Prefix(files, dir, vert, b)
    ensures var d := files[TouchQName(dir, vert, b)];
            AtRow(files, dir, vert, b, 0, d.touchV, d.isInf, |d.touchV|, yielded)
  {
    var d := files[TouchQName(dir, vert, b)];
    assert BatchStream(d).items[..0] == [];
    assert yielded + [] == yielded;
  }

  /** Row k of the current batch is the next record of the whole stream. */
  lemma RecordInWhole(files: map<string, BatchFile>, dir: string, vert: nat, b: nat, k: nat,
                      rows: seq<Config>, flags: seq<bool>, size: nat, yielded: seq<Record>)
    requires AtRow(files, dir, vert, b, k, rows, flags, size, yielded)
    requires k < |rows| && k < |flags|
    ensures |yielded| < |StreamFrom(files, dir, vert, 0).items|
    ensures StreamFrom(files, dir, vert, 0).items[|yielded|] == (rows[k], flags[k])
  {
    StreamSplit(files, dir, vert, b);
    var s := BatchStream(files[TouchQName(dir, vert, b)]).items;
    var w := StreamFrom(files, dir, vert, b).items;
    assert w[k] == s[k];
  }

  /** A read past the end of the current batch's arrays is where the whole stream ends, with an error. */
  lemma FailInWhole(files: map<string, BatchFile>, dir: string, vert: nat, b: nat, k: nat,
                    rows: seq<Config>, flags: seq<bool>, size: nat, yielded: seq<Record>)
    requires AtRow(files, dir, vert, b, k, rows, flags, size, yielded)
    requires k == 0 || k < size
    requires k >= |rows| || k >= |flags|
    ensures |StreamFrom(files, dir, vert, 0).items| == |yielded|
    ensures !StreamFrom(files, dir, vert, 0).ok
  {
    StreamSplit(files, dir, vert, b);
  }

  /** A missing batch file ends the whole stream cleanly after the records of the batches before it. */
  lemma EndOfWhole(files: map<string, BatchFile>, dir: string, vert: nat, b: nat)
    requires AllOk(files, dir, vert, b) && TouchQName(dir, vert, b) !in files
    ensures StreamFrom(files, dir, vert, 0).items == Prefix(files, dir, vert, b)
    ensures StreamFrom(files, dir, vert, 0).ok
  {
    StreamSplit(files, dir, vert, b);
    assert StreamFrom(files, dir, vert, b) == Stream([], true);
    assert Prefix(files, dir, vert, b) + [] == Prefix(files, dir, vert, b);
  }

  /** After a batch read without error, the generator can move on to the next. */
  lemma NextBatch(files: map<string, BatchFile>, dir: string, vert: nat, b: nat)
    requires AllOk(files, dir, vert, b) && TouchQName(dir, vert, b) in files
    requires BatchStream(files[TouchQName(dir, vert, b)]).ok
    ensures AllOk(files, dir, vert, b + 1)
    ensures Prefix(files, dir, vert, b + 1)
            == Prefix(files, dir, vert, b) + BatchStream(files[TouchQName(dir, vert, b)]).items
  {
  }

  /** Reading row k and moving to the next row, or to the next batch after the last row, keeps the cursor state. */
  lemma CursorStep(files: map<string, BatchFile>, dir: string, vert: nat, b: nat, k: nat,
                   rows: seq<Config>, flags: seq<bool>, size: nat, yielded: seq<Record>)
    requires AtRow(files, dir, vert, b, k, rows, flags, size, yielded)
    requires k < |rows| && k < |flags|
    ensures var y := yielded + [(rows[k], flags[k])];
            if k + 1 >= size then CursorOk(files, dir, vert, b + 1, 0, None, flags, size, y)
            else CursorOk(files, dir, vert, b, k + 1, Some(rows), flags, size, y)
  {
    var d := files[TouchQName(dir, vert, b)];
    var s := BatchStream(d).items;
    assert s[k] == (rows[k], flags[k]);
    assert s[..k] + [s[k]] == s[..k + 1];
    assert yielded + [s[k]] == Prefix(files, dir, vert, b) + s[..k + 1];
    if k + 1 >= size {
      assert s[..k + 1] == s;
      NextBatch(files, dir, vert, b);
    }
  }

  /** Outcome of one call of a stream generator's next. */
  datatype Step = Item(record: Record) | Stop | Fail(error: Error)

  /** Generator over the touch-query batch files of one tunnel vertex. */
  class TouchQGenerator {
    const inDir: string
    const vertId: nat
    /** The batch files on disk, by name. */
    const files: map<string, BatchFile>

    var tqBatchId: nat
    var tqLocalId: nat
    /** The touch rows of the batch being read; None between batches. */
    var tq: Option<seq<Config>>
    var inf: seq<bool>
    var tqSize: nat

    /** Everything returned so far. */
    ghost var yielded: seq<Record>

    /** The stream this generator yields over its whole life. */
    ghost function Whole(): Stream
    {
      StreamFrom(files, inDir, vertId, 0)
    }

    ghost predicate Valid()
      reads this
    {
      CursorOk(files, inDir, vertId, tqBatchId, tqLocalId, tq, inf, tqSize, yielded)
    }

    constructor(inDir: string, vertId: nat, files: map<string, BatchFile>)
      ensures this.inDir == inDir && this.vertId == vertId && this.files == files
      ensures tqBatchId == 0 && tqLocalId == 0 && tq.None?
      ensures yielded == []
      ensures Valid()
    {
      this.inDir := inDir;
      this.vertId := vertId;
      this.files := files;
      tqBatchId := 0;
      tqLocalId := 0;
      tq := None;
      // the source object has no inf / tq_size until its first load
      inf := [];
      tqSize := 0;
      yielded := [];
    }

    /** What has been yielded is a prefix of the whole stream. */
    lemma YieldedIsPrefix()
      requires Valid()
      ensures |yielded| <= |Whole().items| && yielded == Whole().items[..|yielded|]
    {
      StreamSplit(files, inDir, vertId, tqBatchId);
    }

    /**
      The second half of __next__: return row tqLocalId of the loaded batch
      and move to the next row, or past the batch after its last touch row.
      A read past the end of an array fails.
     */
    method ReadRow() returns (r: Step)
      requires tq.Some? && (tqLocalId == 0 || tqLocalId < tqSize)
      requires AtRow(files, inDir, vertId, tqBatchId, tqLocalId, tq.value, inf, tqSize, yielded)
      modifies this
      ensures !r.Stop?
      ensures old(|yielded|) < |Whole().items| ==> r == Item(Whole().items[old(|yielded|)])
      ensures old(|yielded|) >= |Whole().items| ==> r == Fail(IndexOutOfRange) && !Whole().ok
      ensures r.Fail? ==> unchanged(this)
      ensures r.Item? ==>
                && Valid() && yielded == old(yielded) + [r.record]
                && old(tqLocalId) < |old(tq).value| && old(tqLocalId) < |old(inf)|
                && r.record == (old(tq).value[old(tqLocalId)], old(inf)[old(tqLocalId)])
                && if old(tqLocalId) + 1 >= old(tqSize) then tqBatchId == old(tqBatchId) + 1 && tq.None?
                   else tqBatchId == old(tqBatchId) && tqLocalId == old(tqLocalId) + 1
    {
      if tqLocalId >= |tq.value| || tqLocalId >= |inf| {
        FailInWhole(files, inDir, vertId, tqBatchId, tqLocalId, tq.value, inf, tqSize, yielded);
        return Fail(IndexOutOfRange);
      }
      RecordInWhole(files, inDir, vertId, tqBatchId, tqLocalId, tq.value, inf, tqSize, yielded);
      CursorStep(files, inDir, vertId, tqBatchId, tqLocalId, tq.value, inf, tqSize, yielded);
      var ret := (tq.value[tqLocalId], inf[tqLocalId]);
      yielded := yielded + [ret];
      tqLocalId := tqLocalId + 1;
      if tqLocalId >= tqSize {
        tqBatchId := tqBatchId + 1;
        tqLocalId := 0;
        tq := None;
      }
      r := Item(ret);
    }

    /**
      __next__. Between batches it first loads the next batch file; a missing
      file ends the walk and leaves the generator as it was. It then reads the
      current row (ReadRow).
     */
    method Next() returns (r: Step)
      requires Valid()
      modifies this
      // in terms of the whole stream
      ensures old(|yielded|) < |Whole().items| ==> r == Item(Whole().items[old(|yielded|)])
      ensures old(|yielded|) >= |Whole().items| ==>
                r == (if Whole().ok then Stop else Fail(IndexOutOfRange))
      ensures r.Item? ==> Valid() && yielded == old(yielded) + [r.record]
      ensures !r.Item? ==> yielded == old(yielded)
      // in terms of the cursor
      ensures r.Stop? <==> old(tq).None? && TouchQName(inDir, vertId, old(tqBatchId)) !in files
      ensures r.Stop? ==> unchanged(this)
      ensures r.Item? && old(tq).None? ==>
                var d := files[TouchQName(inDir, vertId, old(tqBatchId))];
                0 < |d.touchV| && 0 < |d.isInf| && r.record == (d.touchV[0], d.isInf[0])
      ensures r.Item? && old(tq).Some? ==>
                && old(tqLocalId) < |old(tq).value| && old(tqLocalId) < |old(inf)|
                && r.record == (old(tq).value[old(tqLocalId)], old(inf)[old(tqLocalId)])
      ensures r.Item? ==>
                if tq.None? then tqBatchId == old(tqBatchId) + 1
                else tqBatchId == old(tqBatchId) && tqLocalId == (if old(tq).None? then 1 else old(tqLocalId) + 1)
    {
      if tq.None? {
        var fn := TouchQName(inDir, vertId, tqBatchId);
        if fn !in files {
          EndOfWhole(files, inDir, vertId, tqBatchId);
          return Stop;
        }
        var d := files[fn];
        LoadBatch(files, inDir, vertId, tqBatchId, yielded);
        tq, tqSize, inf, tqLocalId := Some(d.touchV), |d.touchV|, d.isInf, 0;
      }
      r := ReadRow();
    }
  }

  // ---------------------------------------------------------------------
  // Mesh generators
  // ---------------------------------------------------------------------

  /**
    The intersection meshes an ObjGenerator yields from number c on: files c,
    c + 1, ... up to the first missing one.
   */
  ghost function ObjRun(files: map<string, Mesh>, dir: string, vert: nat, c: nat): seq<Mesh>
    requires forall j :: 0 <= j < c ==> IsectGeoName(dir, vert, j) in files
    decreases |files| - c
  {
    var fn := IsectGeoName(dir, vert, c);
    if fn !in files then []
    else
      IsectRunBound(files, dir, vert, c + 1);
      [files[fn]] + ObjRun(files, dir, vert, c + 1)
  }

  /** Generator over the intersection meshes of one vertex. */
  class ObjGenerator {
    const inDir: string
    const vertId: nat
    const files: map<string, Mesh>
    var perVertexConfId: nat
    ghost var yielded: seq<Mesh>

    ghost predicate Valid()
      reads this
    {
      && |yielded| == perVertexConfId
      && forall c :: 0 <= c < perVertexConfId ==>
           IsectGeoName(inDir, vertId, c) in files && yielded[c] == files[IsectGeoName(inDir, vertId, c)]
    }

    /** Everything this generator yields over its life. */
    ghost function Whole(): seq<Mesh>
    {
      ObjRun(files, inDir, vertId, 0)
    }

    constructor(inDir: string, vertId: nat, files: map<string, Mesh>)
      ensures this.inDir == inDir && this.vertId == vertId && this.files == files
      ensures perVertexConfId == 0 && yielded == []
      ensures Valid()
    {
      this.inDir := inDir;
      this.vertId := vertId;
      this.files := files;
      perVertexConfId := 0;
      yielded := [];
    }

    /**
      __next__: a missing mesh file ends the walk and leaves the counter where
      it is; otherwise the mesh is returned and the counter advances.
     */
    method Next() returns (r: Option<Mesh>)
      requires Valid()
      modifies this
      ensures Valid()
      ensures r.None? <==> IsectGeoName(inDir, vertId, old(perVertexConfId)) !in files
      ensures r.None? ==> unchanged(this)
      ensures r.Some? ==> && perVertexConfId == old(perVertexConfId) + 1
                          && r.value == files[IsectGeoName(inDir, vertId, old(perVertexConfId))]
                          && yielded == old(yielded) + [r.value]
    {
      var fn := IsectGeoName(inDir, vertId, perVertexConfId);
      if fn !in files {
        return None;
      }
      perVertexConfId := perVertexConfId + 1;
      yielded := yielded + [files[fn]];
      r := Some(files[fn]);
    }

    /** What has been yielded is a prefix of the whole run; the walk has ended exactly when it is all of it. */
    lemma YieldedIsPrefix()
      requires Valid()
      ensures |yielded| <= |Whole()| && yielded == Whole()[..|yielded|]
      ensures IsectGeoName(inDir, vertId, perVertexConfId) !in files <==> yielded == Whole()
    {
      var n := perVertexConfId;
      RunFrom(files, inDir, vertId, 0, n);
      var w := Whole();
      assert yielded == w[..n];
      assert w[n..] == ObjRun(files, inDir, vertId, n);
      assert |w[n..]| == 0 <==> IsectGeoName(inDir, vertId, n) !in files;
      assert |w| == n ==> w == w[..n];
    }
  }

  lemma {:induction false} RunFrom(files: map<string, Mesh>, dir: string, vert: nat, c: nat, n: nat)
    requires c <= n
    requires forall j :: 0 <= j < n ==> IsectGeoName(dir, vert, j) in files
    ensures |ObjRun(files, dir, vert, c)| >= n - c
    ensures forall k :: 0 <= k < n - c ==> ObjRun(files, dir, vert, c)[k] == files[IsectGeoName(dir, vert, c + k)]
    ensures ObjRun(files, dir, vert, c)[n - c..] == ObjRun(files, dir, vert, n)
    decreases n - c
  {
    if c < n {
      RunFrom(files, dir, vert, c + 1, n);
      var head := [files[IsectGeoName(dir, vert, c)]];
      var rest := ObjRun(files, dir, vert, c + 1);
      assert ObjRun(files, dir, vert, c) == head + rest;
      assert forall k :: 1 <= k < |head + rest| ==> (head + rest)[k] == rest[k - 1];
      assert (head + rest)[n - c..] == rest[n - (c + 1)..];
    }
  }

  /** The UV mesh of configuration c, when its file exists. */
  function UvAt(files: map<string, Mesh>, dir: string, geo: GeoType, vert: nat, c: nat): Option<Mesh>
  {
    var fn := UvGeoName(dir, geo, vert, c);
    if fn in files then Some(files[fn]) else None
  }

  /**
    Generator over the UV meshes of one vertex. It never stops: a missing
    file yields None, and every call moves to the next configuration.
   */
  class UVObjGenerator {
    const inDir: string
    const geo: GeoType
    const vertId: nat
    const files: map<string, Mesh>
    var confId: nat
    ghost var yielded: seq<Option<Mesh>>

    ghost predicate Valid()
      reads this
    {
      && |yielded| == confId
      && forall c :: 0 <= c < confId ==> yielded[c] == UvAt(files, inDir, geo, vertId, c)
    }

    constructor(inDir: string, geo: GeoType, vertId: nat, files: map<string, Mesh>)
      ensures this.inDir == inDir && this.geo == geo && this.vertId == vertId && this.files == files
      ensures confId == 0 && yielded == []
      ensures Valid()
    {
      this.inDir := inDir;
      this.geo := geo;
      this.vertId := vertId;
      this.files := files;
      confId := 0;
      yielded := [];
    }

    /** __next__: the mesh of the current configuration, if its file exists; the counter always advances. */
    method Next() returns (r: Option<Mesh>)
      requires Valid()
      modifies this
      ensures Valid()
      ensures confId == old(confId) + 1
      ensures r == UvAt(files, inDir, geo, vertId, old(confId))
      ensures yielded == old(yielded) + [r]
    {
      var fn := UvGeoName(inDir, geo, vertId, confId);
      confId := confId + 1;
      if fn !in files {
        r := None;
      } else {
        r := Some(files[fn]);
      }
      yielded := yielded + [r];
    }
  }
}
