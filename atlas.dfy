/**
  The `uvrender` command: walk the touch stream of one tunnel vertex, render
  the UV mesh of every finite touch sample into an atlas-sized image, and
  accumulate the images, each weighted by the inverse distance between the
  touch configuration and the vertex, into one atlas (and an unweighted one).

  The UV meshes are fetched through a UVObjGenerator that, as written, is
  advanced only for finite samples, so once an infinite sample has been
  skipped the mesh fetched for a sample is that of an earlier configuration.
  Pairings models both that pairing and the aligned one (advance on every
  sample).
 */
module Atlas {
  import opened Types
  import opened Naming
  import opened Generators

  // ---------------------------------------------------------------------
  // Images
  // ---------------------------------------------------------------------

  /** Lower clip of the distance in the weight (np.clip(d, 1e-4, None)). */
  const MIN_DISTANCE: real := 0.0001

  /** Inverse-distance weight of a touch configuration. */
  function Weight(d: real): (w: real)
    ensures w > 0.0
    ensures d >= MIN_DISTANCE ==> w * d == 1.0
    ensures d < MIN_DISTANCE ==> w == 1.0 / MIN_DISTANCE
  {
    1.0 / (if d < MIN_DISTANCE then MIN_DISTANCE else d)
  }

  function Scale(img: Image, k: real): Image
  {
    seq(PIXELS, p requires 0 <= p < PIXELS => img[p] * k)
  }

  function Add(a: Image, b: Image): Image
  {
    seq(PIXELS, p requires 0 <= p < PIXELS => a[p] + b[p])
  }

  /**
    Running sum of images as the render loop keeps it: nothing before the
    first image, the first image itself, then the sum.
   */
  function Sum(imgs: seq<Image>): (r: Option<Image>)
    ensures r.Some? <==> |imgs| > 0
  {
    if |imgs| == 0 then None
    else
      var last := imgs[|imgs| - 1];
      match Sum(imgs[..|imgs| - 1])
      case None => Some(last)
      case Some(t) => Some(Add(t, last))
  }

  /** Reference definition: pixel p of the sum of some images. */
  function SumAt(imgs: seq<Image>, p: nat): real
    requires p < PIXELS
  {
    if |imgs| == 0 then 0.0 else SumAt(imgs[..|imgs| - 1], p) + imgs[|imgs| - 1][p]
  }

  /** The running sum is the pixelwise sum of all images. */
  lemma {:induction false} SumIsPixelwise(imgs: seq<Image>)
    requires |imgs| > 0
    ensures forall p :: 0 <= p < PIXELS ==> Sum(imgs).value[p] == SumAt(imgs, p)
  {
    var pre := imgs[..|imgs| - 1];
    if |pre| > 0 {
      SumIsPixelwise(pre);
    } else {
      forall p | 0 <= p < PIXELS
        ensures SumAt(pre, p) == 0.0
      {
      }
    }
  }

  /** Appending an image: the first initialises the sum, later ones are added to it. */
  lemma SumStep(imgs: seq<Image>, x: Image)
    ensures Sum(imgs + [x]) == if |imgs| == 0 then Some(x) else Some(Add(Sum(imgs).value, x))
  {
    assert (imgs + [x])[..|imgs|] == imgs;
  }

  // ---------------------------------------------------------------------
  // Which mesh is rendered for which sample
  // ---------------------------------------------------------------------

  /** Number of finite samples in a stream prefix. */
  function FiniteCount(items: seq<Record>): (n: nat)
    ensures n <= |items|
  {
    if |items| == 0 then 0
    else FiniteCount(items[..|items| - 1]) + (if items[|items| - 1].1 then 0 else 1)
  }

  /**
    Position of the UV generator after a stream prefix: as written it has
    been advanced once per finite sample; aligned, once per sample.
   */
  function UvCursor(items: seq<Record>, aligned: bool): nat
  {
    if aligned then |items| else FiniteCount(items)
  }

  /**
    The (touch configuration, UV mesh) pairs rendered for a stream prefix, in
    order: an infinite sample is skipped, and a finite one whose UV mesh is
    missing is skipped as well.
   */
  function Pairings(uv: map<string, Mesh>, dir: string, geo: GeoType, vert: nat,
                    items: seq<Record>, aligned: bool): (ps: seq<(Config, Mesh)>)
    ensures |ps| <= |items|
  {
    if |items| == 0 then []
    else
      var pre := items[..|items| - 1];
      var last := items[|items| - 1];
      var ps := Pairings(uv, dir, geo, vert, pre, aligned);
      if last.1 then ps
      else match UvAt(uv, dir, geo, vert, UvCursor(pre, aligned))
        case None => ps
        case Some(m) => ps + [(last.0, m)]
  }

  /** One more sample of the stream: how the UV cursor and the pairings move. */
  lemma PairingsStep(uv: map<string, Mesh>, dir: string, geo: GeoType, vert: nat,
                     items: seq<Record>, rec: Record, aligned: bool)
    ensures FiniteCount(items + [rec]) == FiniteCount(items) + (if rec.1 then 0 else 1)
    ensures UvCursor(items + [rec], aligned) == UvCursor(items, aligned) + (if rec.1 && !aligned then 0 else 1)
    ensures Pairings(uv, dir, geo, vert, items + [rec], aligned)
            == if rec.1 then Pairings(uv, dir, geo, vert, items, aligned)
               else match UvAt(uv, dir, geo, vert, UvCursor(items, aligned))
                 case None => Pairings(uv, dir, geo, vert, items, aligned)
                 case Some(m) => Pairings(uv, dir, geo, vert, items, aligned) + [(rec.0, m)]
  {
    assert (items + [rec])[..|items|] == items;
  }

  /** As written, the UV cursor equals the sample's position exactly when no infinite sample came before it. */
  lemma {:induction false} CursorAlignedIff(items: seq<Record>)
    ensures FiniteCount(items) == |items| <==> forall j :: 0 <= j < |items| ==> !items[j].1
  {
    if |items| > 0 {
      var pre := items[..|items| - 1];
      CursorAlignedIff(pre);
      assert forall j :: 0 <= j < |pre| ==> pre[j] == items[j];
    }
  }

  /** Without infinite samples the two pairings agree. */
  lemma {:induction false} NoInfAgree(uv: map<string, Mesh>, dir: string, geo: GeoType, vert: nat,
                                      items: seq<Record>)
    requires forall j :: 0 <= j < |items| ==> !items[j].1
    ensures Pairings(uv, dir, geo, vert, items, false) == Pairings(uv, dir, geo, vert, items, true)
  {
    if |items| > 0 {
      var pre := items[..|items| - 1];
      assert forall j :: 0 <= j < |pre| ==> pre[j] == items[j];
      NoInfAgree(uv, dir, geo, vert, pre);
      CursorAlignedIff(pre);
    }
  }

  /**
    Aligned, rendered pair k is some finite sample j of the stream together
    with the UV mesh of configuration j; j is returned.
   */
  lemma {:induction false} AlignedPairAt(uv: map<string, Mesh>, dir: string, geo: GeoType, vert: nat,
                                         items: seq<Record>, k: nat) returns (j: nat)
    requires k < |Pairings(uv, dir, geo, vert, items, true)|
    ensures j < |items| && !items[j].1 && UvGeoName(dir, geo, vert, j) in uv
    ensures Pairings(uv, dir, geo, vert, items, true)[k] == (items[j].0, uv[UvGeoName(dir, geo, vert, j)])
  {
    var pre := items[..|items| - 1];
    var before := Pairings(uv, dir, geo, vert, pre, true);
    if k < |before| {
      j := AlignedPairAt(uv, dir, geo, vert, pre, k);
      assert pre[j] == items[j];
    } else {
      j := |pre|;
    }
  }

  /** Aligned, conversely, every finite sample j whose UV mesh exists is rendered with that mesh; k is its position. */
  lemma {:induction false} AlignedSampleRendered(uv: map<string, Mesh>, dir: string, geo: GeoType, vert: nat,
                                                 items: seq<Record>, j: nat) returns (k: nat)
    requires j < |items| && !items[j].1 && UvGeoName(dir, geo, vert, j) in uv
    ensures k < |Pairings(uv, dir, geo, vert, items, true)|
    ensures Pairings(uv, dir, geo, vert, items, true)[k] == (items[j].0, uv[UvGeoName(dir, geo, vert, j)])
  {
    var pre := items[..|items| - 1];
    var before := Pairings(uv, dir, geo, vert, pre, true);
    var ps := Pairings(uv, dir, geo, vert, items, true);
    assert |ps| >= |before| && ps[..|before|] == before;
    if j < |pre| {
      assert pre[j] == items[j];
      k := AlignedSampleRendered(uv, dir, geo, vert, pre, j);
      assert ps[k] == before[k];
    } else {
      k := |before|;
    }
  }

  /** Stream (q0, infinite), (q1, finite), (q2, finite) over UV files for configurations 1 and 2 only, as written. */
  lemma ShiftedAsWritten(uv: map<string, Mesh>, dir: string, geo: GeoType, vert: nat,
                         q0: Config, q1: Config, q2: Config, m1: Mesh)
    requires UvAt(uv, dir, geo, vert, 0) == None && UvAt(uv, dir, geo, vert, 1) == Some(m1)
    ensures Pairings(uv, dir, geo, vert, [(q0, true), (q1, false), (q2, false)], false) == [(q2, m1)]
  {
    var e: seq<Record> := [];
    var s0 := e + [(q0, true)];
    var s1 := s0 + [(q1, false)];
    assert s1 + [(q2, false)] == [(q0, true), (q1, false), (q2, false)];
    // the cursor stays at 0 for the infinite sample 0
    PairingsStep(uv, dir, geo, vert, e, (q0, true), false);
    PairingsStep(uv, dir, geo, vert, s0, (q1, false), false);
    PairingsStep(uv, dir, geo, vert, s1, (q2, false), false);
  }

  /** The same stream and UV files, aligned. */
  lemma ShiftedAligned(uv: map<string, Mesh>, dir: string, geo: GeoType, vert: nat,
                       q0: Config, q1: Config, q2: Config, m1: Mesh, m2: Mesh)
    requires UvAt(uv, dir, geo, vert, 1) == Some(m1) && UvAt(uv, dir, geo, vert, 2) == Some(m2)
    ensures Pairings(uv, dir, geo, vert, [(q0, true), (q1, false), (q2, false)], true) == [(q1, m1), (q2, m2)]
  {
    var e: seq<Record> := [];
    var s0 := e + [(q0, true)];
    var s1 := s0 + [(q1, false)];
    assert s1 + [(q2, false)] == [(q0, true), (q1, false), (q2, false)];
    // the cursor is the sample's position
    PairingsStep(uv, dir, geo, vert, e, (q0, true), true);
    PairingsStep(uv, dir, geo, vert, s0, (q1, false), true);
    PairingsStep(uv, dir, geo, vert, s1, (q2, false), true);
  }

  /**
    As written, an infinite first sample shifts the pairing. The UV meshes
    are those uvproj writes for this stream: m1 and m2 for the finite samples
    1 and 2, none for the infinite sample 0. The finite sample 1 is then
    looked up under configuration 0, which has no UV mesh, and is dropped;
    sample 2 is rendered with m1; m2 is never rendered. Aligned, sample 1 is
    rendered with m1 and sample 2 with m2.
   */
  lemma MisalignedExample(dir: string, geo: GeoType, vert: nat,
                          q0: Config, q1: Config, q2: Config, m1: Mesh, m2: Mesh)
    ensures var uv := map[UvGeoName(dir, geo, vert, 1) := m1, UvGeoName(dir, geo, vert, 2) := m2];
            var items := [(q0, true), (q1, false), (q2, false)];
            && Pairings(uv, dir, geo, vert, items, false) == [(q2, m1)]
            && Pairings(uv, dir, geo, vert, items, true) == [(q1, m1), (q2, m2)]
  {
    var uv := map[UvGeoName(dir, geo, vert, 1) := m1, UvGeoName(dir, geo, vert, 2) := m2];
    UvGeoNameInjective(dir, geo, vert, 0, geo, vert, 1);
    UvGeoNameInjective(dir, geo, vert, 0, geo, vert, 2);
    UvGeoNameInjective(dir, geo, vert, 1, geo, vert, 2);
    ShiftedAsWritten(uv, dir, geo, vert, q0, q1, q2, m1);
    ShiftedAligned(uv, dir, geo, vert, q0, q1, q2, m1, m2);
  }

  // ---------------------------------------------------------------------
  // Rendering and output
  // ---------------------------------------------------------------------

  /** The unweighted atlas of one UV mesh. */
  function Unweighted(e: Engine, geo: GeoType, m: Mesh): Image
  {
    e.renderBarycentric(geo, m)
  }

  /** The unweighted atlases of the pairs, in order. */
  function NwImages(e: Engine, geo: GeoType, ps: seq<(Config, Mesh)>): (r: seq<Image>)
    ensures |r| == |ps|
    ensures forall k :: 0 <= k < |ps| ==> r[k] == Unweighted(e, geo, ps[k].1)
  {
    if |ps| == 0 then [] else NwImages(e, geo, ps[..|ps| - 1]) + [Unweighted(e, geo, ps[|ps| - 1].1)]
  }

  /** The weighted atlases of the pairs: each scaled by the weight of its touch configuration's distance to iq. */
  function WImages(e: Engine, geo: GeoType, iq: Config, ps: seq<(Config, Mesh)>): (r: seq<Image>)
    ensures |r| == |ps|
    ensures forall k :: 0 <= k < |ps| ==>
              r[k] == Scale(Unweighted(e, geo, ps[k].1), Weight(e.distance(ps[k].0, iq)))
  {
    if |ps| == 0 then []
    else
      var (q, m) := ps[|ps| - 1];
      WImages(e, geo, iq, ps[..|ps| - 1]) + [Scale(Unweighted(e, geo, m), Weight(e.distance(q, iq)))]
  }

  lemma ImagesStep(e: Engine, geo: GeoType, iq: Config, ps: seq<(Config, Mesh)>, q: Config, m: Mesh)
    ensures NwImages(e, geo, ps + [(q, m)]) == NwImages(e, geo, ps) + [Unweighted(e, geo, m)]
    ensures WImages(e, geo, iq, ps + [(q, m)])
            == WImages(e, geo, iq, ps) + [Scale(Unweighted(e, geo, m), Weight(e.distance(q, iq)))]
  {
    assert (ps + [(q, m)])[..|ps|] == ps;
  }

  /** One colour pixel of a saved texture. */
  datatype Rgb = Rgb(red: real, green: real, blue: real)

  /** A texture whose green channel is the image and whose other channels are zero. */
  function Green(img: Image): seq<Rgb>
  {
    seq(PIXELS, p requires 0 <= p < PIXELS => Rgb(0.0, img[p], 0.0))
  }

  /** A file the command writes. */
  datatype Write = SavePng(name: string, pixels: seq<Rgb>) | SaveNpz(name: string, data: Image)

  /**
    The four files of the final atlas: texture and array of the weighted sum,
    then the "-nw" texture and array of the unweighted sum. As written
    (corrected false) the "-nw" array holds the weighted sum again.
   */
  function Outputs(dir: string, geo: GeoType, vert: nat, afb: Image, afbNw: Image, corrected: bool): (ws: seq<Write>)
    ensures |ws| == 4 && ws[0].SavePng? && ws[1].SaveNpz? && ws[2].SavePng? && ws[3].SaveNpz?
  {
    [SavePng(AtlasTexName(dir, geo, vert, None, false), Green(afb)),
     SaveNpz(AtlasName(dir, geo, vert, None, false), afb),
     SavePng(AtlasTexName(dir, geo, vert, None, true), Green(afbNw)),
     SaveNpz(AtlasName(dir, geo, vert, None, true), if corrected then afbNw else afb)]
  }

  /** A texture name ends in "g" (".png") and an array name in "z" (".npz"). */
  lemma AtlasNameEnds(dir: string, geo: GeoType, vert: nat, index: Option<nat>, nw: bool)
    ensures var t := AtlasTexName(dir, geo, vert, index, nw); |t| > 0 && t[|t| - 1] == 'g'
    ensures var a := AtlasName(dir, geo, vert, index, nw); |a| > 0 && a[|a| - 1] == 'z'
  {
    AtlasStyleNameLast(dir, "tex-", geo, vert, index, nw, ".png");
    AtlasStyleNameLast(dir, "atlas-", geo, vert, index, nw, ".npz");
  }

  /** The four output files have four different names, so none overwrites another. */
  lemma OutputNamesDistinct(dir: string, geo: GeoType, vert: nat, afb: Image, afbNw: Image, corrected: bool)
    ensures var ws := Outputs(dir, geo, vert, afb, afbNw, corrected);
            forall i, j :: 0 <= i < j < 4 ==> ws[i].name != ws[j].name
  {
    AtlasTexNameInjective(dir, geo, vert, None, false, geo, vert, None, true);
    AtlasNameInjective(dir, geo, vert, None, false, geo, vert, None, true);
    AtlasNameEnds(dir, geo, vert, None, false);
    AtlasNameEnds(dir, geo, vert, None, true);
  }

  /** Different images give different textures. */
  lemma GreenInjective(a: Image, b: Image)
    requires a != b
    ensures Green(a) != Green(b)
  {
    var p :| 0 <= p < PIXELS && a[p] != b[p];
    assert Green(a)[p].green != Green(b)[p].green;
  }

  /**
    Corrected, each texture pictures the array saved under the same name
    stem, and the "-nw" pair holds the unweighted sum.
   */
  lemma OutputsPairUp(dir: string, geo: GeoType, vert: nat, afb: Image, afbNw: Image)
    ensures var ws := Outputs(dir, geo, vert, afb, afbNw, true);
            && ws[0].pixels == Green(ws[1].data) && ws[1].data == afb
            && ws[2].pixels == Green(ws[3].data) && ws[3].data == afbNw
  {
  }

  /**
    As written, whenever the two sums differ the "-nw" array is not the
    image its texture shows: it holds the weighted sum.
   */
  lemma NwArrayAsWritten(dir: string, geo: GeoType, vert: nat, afb: Image, afbNw: Image)
    requires afb != afbNw
    ensures var ws := Outputs(dir, geo, vert, afb, afbNw, false);
            ws[3].data == ws[1].data && ws[2].pixels != Green(ws[3].data)
  {
    GreenInjective(afbNw, afb);
  }

  /**
    What rendering the whole touch stream of vertex vert produces: an error
    when the stream ends in an out-of-range read or when no sample was
    rendered, otherwise the four output files of the two sums.
   */
  ghost function RenderOutcome(e: Engine, geo: GeoType, iq: Config, dir: string, vert: nat,
                               tqFiles: map<string, BatchFile>, uv: map<string, Mesh>,
                               corrected: bool): Result<seq<Write>>
  {
    match Accumulated(e, geo, iq, dir, vert, tqFiles, uv, corrected)
    case Err(err) => Err(err)
    case Ok((afb, afbNw)) =>
      if afb.None? || afbNw.None? then Err(NothingAccumulated)
      else Ok(Outputs(dir, geo, vert, afb.value, afbNw.value, corrected))
  }

  /**
    On a stream that ends cleanly the command fails exactly when no sample
    contributed an atlas.
   */
  lemma NothingRenderedFails(e: Engine, geo: GeoType, iq: Config, dir: string, vert: nat,
                             tqFiles: map<string, BatchFile>, uv: map<string, Mesh>, corrected: bool)
    requires StreamFrom(tqFiles, dir, vert, 0).ok
    ensures RenderOutcome(e, geo, iq, dir, vert, tqFiles, uv, corrected) == Err(NothingAccumulated)
            <==> |Pairings(uv, dir, geo, vert, StreamFrom(tqFiles, dir, vert, 0).items, corrected)| == 0
  {
  }

  /** Otherwise it writes the outputs of the weighted and the unweighted sum of the pairs' atlases. */
  lemma RenderedWrites(e: Engine, geo: GeoType, iq: Config, dir: string, vert: nat,
                       tqFiles: map<string, BatchFile>, uv: map<string, Mesh>, corrected: bool)
    requires StreamFrom(tqFiles, dir, vert, 0).ok
    requires |Pairings(uv, dir, geo, vert, StreamFrom(tqFiles, dir, vert, 0).items, corrected)| > 0
    ensures var ps := Pairings(uv, dir, geo, vert, StreamFrom(tqFiles, dir, vert, 0).items, corrected);
            RenderOutcome(e, geo, iq, dir, vert, tqFiles, uv, corrected)
            == Ok(Outputs(dir, geo, vert, Sum(WImages(e, geo, iq, ps)).value, Sum(NwImages(e, geo, ps)).value, corrected))
  {
  }

  /**
    The body of the accumulation loop for one sample of the touch stream:
    skip it when infinite (with `aligned`, only after advancing the UV
    generator), fetch the next UV mesh, skip when it is missing, and add its
    weighted and unweighted renderings to the sums, the first rendering
    initialising them.
   */
  method AddSample(e: Engine, geo: GeoType, iq: Config, objGen: UVObjGenerator, rec: Record, aligned: bool,
                   ghost items: seq<Record>, ghost ps: seq<(Config, Mesh)>,
                   afb: Option<Image>, afbNw: Option<Image>)
    returns (afb2: Option<Image>, afbNw2: Option<Image>, ghost ps2: seq<(Config, Mesh)>)
    requires objGen.Valid() && objGen.geo == geo
    requires objGen.confId == UvCursor(items, aligned)
    requires ps == Pairings(objGen.files, objGen.inDir, geo, objGen.vertId, items, aligned)
    requires afb == Sum(WImages(e, geo, iq, ps)) && afbNw == Sum(NwImages(e, geo, ps))
    modifies objGen
    ensures objGen.Valid()
    ensures objGen.confId == UvCursor(items + [rec], aligned)
    ensures ps2 == Pairings(objGen.files, objGen.inDir, geo, objGen.vertId, items + [rec], aligned)
    ensures afb2 == Sum(WImages(e, geo, iq, ps2)) && afbNw2 == Sum(NwImages(e, geo, ps2))
  {
    PairingsStep(objGen.files, objGen.inDir, geo, objGen.vertId, items, rec, aligned);
    afb2, afbNw2, ps2 := afb, afbNw, ps;
    var (tq, isInf) := rec;
    if aligned || !isInf {
      var uv := objGen.Next();
      if !isInf && uv.Some? {
        var nw := e.renderBarycentric(geo, uv.value);
        var w := Scale(nw, Weight(e.distance(tq, iq)));
        ImagesStep(e, geo, iq, ps, tq, uv.value);
        SumStep(WImages(e, geo, iq, ps), w);
        SumStep(NwImages(e, geo, ps), nw);
        if afb.None? {
          afb2, afbNw2 := Some(w), Some(nw);
        } else {
          afb2, afbNw2 := Some(Add(afb.value, w)), Some(Add(afbNw.value, nw));
        }
        ps2 := ps + [(tq, uv.value)];
      }
    }
  }

  /** tqGen.Next() in terms of the whole stream only: the next record, its clean end, or its read error. */
  method NextRecord(tqGen: TouchQGenerator) returns (step: Step)
    requires tqGen.Valid()
    requires |tqGen.yielded| <= |tqGen.Whole().items| && tqGen.yielded == tqGen.Whole().items[..|tqGen.yielded|]
    modifies tqGen
    ensures step.Stop? ==> unchanged(tqGen) && tqGen.yielded == tqGen.Whole().items && tqGen.Whole().ok
    ensures step.Fail? ==> step.error == IndexOutOfRange && !tqGen.Whole().ok
    ensures step.Item? ==>
              && tqGen.Valid()
              && |old(tqGen.yielded)| < |tqGen.Whole().items|
              && tqGen.yielded == old(tqGen.yielded) + [step.record]
              && tqGen.yielded == tqGen.Whole().items[..|tqGen.yielded|]
  {
    ghost var y := tqGen.yielded;
    ghost var whole := tqGen.Whole().items;
    step := tqGen.Next();
    if step.Stop? {
      assert |y| == |whole|;
      PrefixAll(whole);
    } else if step.Item? {
      PrefixExtend(whole, |y|);
    }
  }

  /**
    One turn of the accumulation loop: the next record of the touch stream,
    then AddSample for it. At the end of the stream nothing changes; an
    out-of-range read is the read error of the whole stream.
   */
  method AccumulateStep(e: Engine, geo: GeoType, iq: Config, tqGen: TouchQGenerator, objGen: UVObjGenerator,
                        aligned: bool, ghost ps: seq<(Config, Mesh)>, afb: Option<Image>, afbNw: Option<Image>)
    returns (step: Step, afb2: Option<Image>, afbNw2: Option<Image>, ghost ps2: seq<(Config, Mesh)>)
    requires tqGen.Valid() && objGen.Valid() && objGen.geo == geo
    requires |tqGen.yielded| <= |tqGen.Whole().items| && tqGen.yielded == tqGen.Whole().items[..|tqGen.yielded|]
    requires objGen.confId == UvCursor(tqGen.yielded, aligned)
    requires ps == Pairings(objGen.files, objGen.inDir, geo, objGen.vertId, tqGen.yielded, aligned)
    requires afb == Sum(WImages(e, geo, iq, ps)) && afbNw == Sum(NwImages(e, geo, ps))
    modifies tqGen, objGen
    ensures step.Stop? ==> unchanged(tqGen) && tqGen.yielded == tqGen.Whole().items && tqGen.Whole().ok
    ensures step.Fail? ==> step.error == IndexOutOfRange && !tqGen.Whole().ok
    ensures !step.Item? ==> unchanged(objGen) && afb2 == afb && afbNw2 == afbNw && ps2 == ps
    ensures step.Item? ==>
              && tqGen.Valid() && objGen.Valid()
              && tqGen.yielded == old(tqGen.yielded) + [step.record]
              && |tqGen.yielded| <= |tqGen.Whole().items| && tqGen.yielded == tqGen.Whole().items[..|tqGen.yielded|]
              && objGen.confId == UvCursor(tqGen.yielded, aligned)
              && ps2 == Pairings(objGen.files, objGen.inDir, geo, objGen.vertId, tqGen.yielded, aligned)
              && afb2 == Sum(WImages(e, geo, iq, ps2)) && afbNw2 == Sum(NwImages(e, geo, ps2))
  {
    ghost var y := tqGen.yielded;
    afb2, afbNw2, ps2 := afb, afbNw, ps;
    step := NextRecord(tqGen);
    if step.Item? {
      afb2, afbNw2, ps2 := AddSample(e, geo, iq, objGen, step.record, aligned, y, ps, afb, afbNw);
    }
  }

  /**
    The accumulation loop of `uvrender`: AddSample for every sample of the
    touch stream, up to its end. Returns the two sums.
   */
  method Accumulate(e: Engine, geo: GeoType, iq: Config, ioDir: string, vertId: nat,
                    tqFiles: map<string, BatchFile>, uvFiles: map<string, Mesh>, aligned: bool)
    returns (r: Result<(Option<Image>, Option<Image>)>)
    ensures r == Accumulated(e, geo, iq, ioDir, vertId, tqFiles, uvFiles, aligned)
  {
    var afb: Option<Image> := None;
    var afbNw: Option<Image> := None;
    var tqGen := new TouchQGenerator(ioDir, vertId, tqFiles);
    var objGen := new UVObjGenerator(ioDir, geo, vertId, uvFiles);
    ghost var whole := tqGen.Whole();
    ghost var ps: seq<(Config, Mesh)> := [];
    while true
      invariant fresh(tqGen) && fresh(objGen)
      invariant tqGen.Valid() && objGen.Valid()
      invariant |tqGen.yielded| <= |whole.items| && tqGen.yielded == whole.items[..|tqGen.yielded|]
      invariant objGen.confId == UvCursor(tqGen.yielded, aligned)
      invariant ps == Pairings(uvFiles, ioDir, geo, vertId, tqGen.yielded, aligned)
      invariant afb == Sum(WImages(e, geo, iq, ps)) && afbNw == Sum(NwImages(e, geo, ps))
      decreases |whole.items| - |tqGen.yielded|
    {
      var step;
      step, afb, afbNw, ps := AccumulateStep(e, geo, iq, tqGen, objGen, aligned, ps, afb, afbNw);
      if step.Stop? {
        break;
      }
      if step.Fail? {
        AccumulatedFails(e, geo, iq, ioDir, vertId, tqFiles, uvFiles, aligned);
        return Err(step.error);
      }
    }
    AccumulatedSums(e, geo, iq, ioDir, vertId, tqFiles, uvFiles, aligned, tqGen.yielded, ps, afb, afbNw);
    r := Ok((afb, afbNw));
  }

  /**
    What the accumulation loop of `uvrender` ends with: an out-of-range read of
    the touch-query stream fails it; otherwise the weighted and unweighted sums
    of the atlases of every pair, None when there is none.
   */
  ghost function Accumulated(e: Engine, geo: GeoType, iq: Config, dir: string, vert: nat,
                             tqFiles: map<string, BatchFile>, uv: map<string, Mesh>,
                             aligned: bool): Result<(Option<Image>, Option<Image>)>
  {
    var w := StreamFrom(tqFiles, dir, vert, 0);
    if !w.ok then Err(IndexOutOfRange)
    else
      var ps := Pairings(uv, dir, geo, vert, w.items, aligned);
      Ok((Sum(WImages(e, geo, iq, ps)), Sum(NwImages(e, geo, ps))))
  }

  lemma AccumulatedFails(e: Engine, geo: GeoType, iq: Config, dir: string, vert: nat,
                         tqFiles: map<string, BatchFile>, uv: map<string, Mesh>, aligned: bool)
    requires !StreamFrom(tqFiles, dir, vert, 0).ok
    ensures Accumulated(e, geo, iq, dir, vert, tqFiles, uv, aligned) == Err(IndexOutOfRange)
  {
  }

  lemma AccumulatedSums(e: Engine, geo: GeoType, iq: Config, dir: string, vert: nat,
                        tqFiles: map<string, BatchFile>, uv: map<string, Mesh>, aligned: bool,
                        items: seq<Record>, ps: seq<(Config, Mesh)>,
                        afb: Option<Image>, afbNw: Option<Image>)
    requires StreamFrom(tqFiles, dir, vert, 0).ok
    requires items == StreamFrom(tqFiles, dir, vert, 0).items
    requires ps == Pairings(uv, dir, geo, vert, items, aligned)
    requires afb == Sum(WImages(e, geo, iq, ps)) && afbNw == Sum(NwImages(e, geo, ps))
    ensures Accumulated(e, geo, iq, dir, vert, tqFiles, uv, aligned) == Ok((afb, afbNw))
  {
  }

  lemma PrefixAll<T>(s: seq<T>)
    ensures s[..|s|] == s
  {
  }

  lemma PrefixExtend<T>(s: seq<T>, n: nat)
    requires n < |s|
    ensures s[..n] + [s[n]] == s[..n + 1]
  {
  }

  /**
    The `uvrender` command as written: check the geometry type, look up the
    tunnel vertex (index out of range fails), accumulate, fail when nothing
    was rendered, and write the four atlas files.
   */
  method UvRender(e: Engine, tunnelV: seq<Config>, geoArg: string, vertId: nat, ioDir: string,
                  tqFiles: map<string, BatchFile>, uvFiles: map<string, Mesh>)
    returns (r: Result<seq<Write>>)
    ensures ParseGeoType(geoArg).Err? ==> r == Err(UnknownGeoType(geoArg))
    ensures ParseGeoType(geoArg).Ok? && vertId >= |tunnelV| ==> r == Err(IndexOutOfRange)
    ensures ParseGeoType(geoArg).Ok? && vertId < |tunnelV| ==>
              r == RenderOutcome(e, ParseGeoType(geoArg).value, e.toUnitState(tunnelV[vertId]),
                                 ioDir, vertId, tqFiles, uvFiles, false)
  {
    r := Render(e, tunnelV, geoArg, vertId, ioDir, tqFiles, uvFiles, false);
  }

  /**
    `uvrender` as evidently intended: the UV generator is advanced on every
    sample, so that sample j is rendered with UV mesh j (AlignedPairAt), and
    the "-nw" array holds the unweighted sum (OutputsPairUp).
   */
  method UvRenderCorrected(e: Engine, tunnelV: seq<Config>, geoArg: string, vertId: nat, ioDir: string,
                         tqFiles: map<string, BatchFile>, uvFiles: map<string, Mesh>)
    returns (r: Result<seq<Write>>)
    ensures ParseGeoType(geoArg).Err? ==> r == Err(UnknownGeoType(geoArg))
    ensures ParseGeoType(geoArg).Ok? && vertId >= |tunnelV| ==> r == Err(IndexOutOfRange)
    ensures ParseGeoType(geoArg).Ok? && vertId < |tunnelV| ==>
              r == RenderOutcome(e, ParseGeoType(geoArg).value, e.toUnitState(tunnelV[vertId]),
                                 ioDir, vertId, tqFiles, uvFiles, true)
  {
    r := Render(e, tunnelV, geoArg, vertId, ioDir, tqFiles, uvFiles, true);
  }

  /** The body of `uvrender`; `corrected` selects the as-written or the intended pairing and outputs. */
  method Render(e: Engine, tunnelV: seq<Config>, geoArg: string, vertId: nat, ioDir: string,
                tqFiles: map<string, BatchFile>, uvFiles: map<string, Mesh>, corrected: bool)
    returns (r: Result<seq<Write>>)
    ensures ParseGeoType(geoArg).Err? ==> r == Err(UnknownGeoType(geoArg))
    ensures ParseGeoType(geoArg).Ok? && vertId >= |tunnelV| ==> r == Err(IndexOutOfRange)
    ensures ParseGeoType(geoArg).Ok? && vertId < |tunnelV| ==>
              r == RenderOutcome(e, ParseGeoType(geoArg).value, e.toUnitState(tunnelV[vertId]),
                                 ioDir, vertId, tqFiles, uvFiles, corrected)
  {
    var g := ParseGeoType(geoArg);
    if g.Err? {
      return Err(g.error);
    }
    var geo := g.value;
    if vertId >= |tunnelV| {
      return Err(IndexOutOfRange);
    }
    var iq := e.toUnitState(tunnelV[vertId]);
    var sums := Accumulate(e, geo, iq, ioDir, vertId, tqFiles, uvFiles, corrected);
    if sums.Err? {
      return Err(sums.error);
    }
    var (afb, afbNw) := sums.value;
    if afb.None? || afbNw.None? {
      return Err(NothingAccumulated);
    }
    r := Ok(Outputs(ioDir, geo, vertId, afb.value, afbNw.value, corrected));
  }
}
