/**
  Deterministic file names of the job. Every file is located by a key tuple
  rendered into a path; the lemmas below prove that distinct keys give
  distinct names, which is what lets independent tasks share one directory.
 */
module Naming {
  import opened Types

  predicate IsDigit(c: char)
  {
    '0' <= c <= '9'
  }

  predicate AllDigits(s: string)
  {
    forall i :: 0 <= i < |s| ==> IsDigit(s[i])
  }

  function DigitChar(d: nat): (c: char)
    requires d < 10
    ensures IsDigit(c)
  {
    (d + '0' as int) as char
  }

  function DigitValue(c: char): (d: nat)
    requires IsDigit(c)
    ensures d < 10
  {
    c as int - '0' as int
  }

  /** Python's "{}".format(n) for a non-negative integer: decimal, no leading zero. */
  function Decimal(n: nat): (s: string)
    ensures |s| > 0 && AllDigits(s)
    ensures s[0] == '0' <==> n == 0
  {
    if n < 10 then [DigitChar(n)] else Decimal(n / 10) + [DigitChar(n % 10)]
  }

  /** Reads a string of digits back as a number. */
  function DecimalValue(s: string): nat
    requires AllDigits(s)
  {
    if |s| == 0 then 0 else DecimalValue(s[..|s| - 1]) * 10 + DigitValue(s[|s| - 1])
  }

  lemma {:induction false} DecimalRoundTrip(n: nat)
    ensures DecimalValue(Decimal(n)) == n
  {
    if n >= 10 {
      var s := Decimal(n);
      assert s[..|s| - 1] == Decimal(n / 10);
      DecimalRoundTrip(n / 10);
    }
  }

  lemma DecimalInjective(m: nat, n: nat)
    ensures Decimal(m) == Decimal(n) <==> m == n
  {
    DecimalRoundTrip(m);
    DecimalRoundTrip(n);
  }

  function GeoName(g: GeoType): (s: string)
    ensures |s| == 3
  {
    match g
    case Rob => "rob"
    case Env => "env"
  }

  /** The `assert geo_type in ['rob', 'env']` of the uvproj and uvrender commands. */
  function ParseGeoType(s: string): (r: Result<GeoType>)
    ensures r.Ok? <==> s == "rob" || s == "env"
    ensures r.Ok? ==> GeoName(r.value) == s
    ensures r.Err? ==> r.error == UnknownGeoType(s)
  {
    if s == "rob" then Ok(Rob) else if s == "env" then Ok(Env) else Err(UnknownGeoType(s))
  }

  lemma GeoTypeRoundTrip(g: GeoType)
    ensures ParseGeoType(GeoName(g)) == Ok(g)
  {
  }

  // ---- the name builders -------------------------------------------------

  /** No path separator in s. */
  predicate NoSlash(s: string)
  {
    forall i :: 0 <= i < |s| ==> s[i] != '/'
  }

  /**
    name is a file directly inside dir: it is dir followed by stem (which
    begins with the separator), it ends in ext, and no separator follows
    the one after dir.
   */
  predicate InDir(name: string, dir: string, stem: string, ext: string)
  {
    && |dir| + |stem| + |ext| <= |name|
    && forall i :: 0 <= i < |name| ==>
         && (i < |dir| ==> name[i] == dir[i])
         && (|dir| <= i < |dir| + |stem| ==> name[i] == stem[i - |dir|])
         && (|name| - |ext| <= i ==> name[i] == ext[i - (|name| - |ext|)])
         && (|dir| < i ==> name[i] != '/')
  }

  lemma DecimalNoSlash(n: nat)
    ensures NoSlash(Decimal(n))
  {
  }

  lemma NoSlashConcat(a: string, b: string)
    requires NoSlash(a) && NoSlash(b)
    ensures NoSlash(a + b)
  {
    assert forall i :: |a| <= i < |a + b| ==> (a + b)[i] == b[i - |a|];
  }

  /** dir + stem + mid + ext lies directly in dir when only stem's first character is a separator. */
  lemma InDirBy(dir: string, stem: string, mid: string, ext: string)
    requires |stem| > 0 && stem[0] == '/' && NoSlash(stem[1..]) && NoSlash(mid) && NoSlash(ext)
    ensures InDir(dir + stem + mid + ext, dir, stem, ext)
  {
    var name := dir + stem + mid + ext;
    NoSlashConcat(stem[1..], mid);
    NoSlashConcat(stem[1..] + mid, ext);
    assert name[|dir| + 1..] == stem[1..] + mid + ext;
    assert name[..|dir|] == dir;
    assert name[|dir|..|dir| + |stem|] == stem;
    SuffixOf(dir + stem + mid, ext);
  }

  /** "{io_dir}/touchq-{vert}-{batch}.npz" */
  function TouchQName(dir: string, vert: nat, batch: nat): (r: string)
    ensures InDir(r, dir, "/touchq-", ".npz")
  {
    var mid := Decimal(vert) + "-" + Decimal(batch);
    DecimalNoSlash(vert);
    DecimalNoSlash(batch);
    NoSlashConcat(Decimal(vert), "-");
    NoSlashConcat(Decimal(vert) + "-", Decimal(batch));
    InDirBy(dir, "/touchq-", mid, ".npz");
    dir + "/touchq-" + Decimal(vert) + "-" + Decimal(batch) + ".npz"
  }

  /** "{io_dir}/isectgeo-from-vert-{vert}-{conf}.obj" */
  function IsectGeoName(dir: string, vert: nat, conf: nat): (r: string)
    ensures InDir(r, dir, "/isectgeo-from-vert-", ".obj")
  {
    var mid := Decimal(vert) + "-" + Decimal(conf);
    DecimalNoSlash(vert);
    DecimalNoSlash(conf);
    NoSlashConcat(Decimal(vert), "-");
    NoSlashConcat(Decimal(vert) + "-", Decimal(conf));
    InDirBy(dir, "/isectgeo-from-vert-", mid, ".obj");
    dir + "/isectgeo-from-vert-" + Decimal(vert) + "-" + Decimal(conf) + ".obj"
  }

  /** "{io_dir}/{geo}-uv-from-vert-{vert}-{conf}.obj" */
  function UvGeoName(dir: string, geo: GeoType, vert: nat, conf: nat): (r: string)
    ensures InDir(r, dir, "/" + GeoName(geo) + "-uv-from-vert-", ".obj")
  {
    var stem := "/" + GeoName(geo) + "-uv-from-vert-";
    var mid := Decimal(vert) + "-" + Decimal(conf);
    DecimalNoSlash(vert);
    DecimalNoSlash(conf);
    NoSlashConcat(Decimal(vert), "-");
    NoSlashConcat(Decimal(vert) + "-", Decimal(conf));
    assert stem[1..] == GeoName(geo) + "-uv-from-vert-";
    NoSlashConcat(GeoName(geo), "-uv-from-vert-");
    InDirBy(dir, stem, mid, ".obj");
    dir + "/" + GeoName(geo) + "-uv-from-vert-" + Decimal(vert) + "-" + Decimal(conf) + ".obj"
  }

  /** The optional "-{index}" part of an atlas name. */
  function IndexPart(index: Option<nat>): string
  {
    match index
    case None => ""
    case Some(i) => "-" + Decimal(i)
  }

  /** The optional "-nw" (not weighted) part of an atlas name. */
  function NwPart(nw: bool): string
  {
    if nw then "-nw" else ""
  }

  /** The part of an atlas name that follows the vertex id. */
  function AtlasTail(index: Option<nat>, nw: bool, ext: string): string
  {
    IndexPart(index) + NwPart(nw) + ext
  }

  /** Shape shared by the two atlas name builders, which differ in stem and extension. */
  function AtlasStyleName(dir: string, stem: string, geo: GeoType, vert: nat,
                          index: Option<nat>, nw: bool, ext: string): string
  {
    dir + "/" + stem + GeoName(geo) + "-from-vert-" + Decimal(vert) + AtlasTail(index, nw, ext)
  }

  /** Re-bracketing of an atlas-style name around the part between the vertex id and the extension. */
  lemma AtlasStyleNameSplit(dir: string, stem: string, geo: GeoType, vert: nat,
                            index: Option<nat>, nw: bool, ext: string)
    ensures AtlasStyleName(dir, stem, geo, vert, index, nw, ext)
            == dir + ("/" + stem + GeoName(geo) + "-from-vert-") + (Decimal(vert) + IndexPart(index) + NwPart(nw)) + ext
  {
    var x := dir + "/" + stem + GeoName(geo) + "-from-vert-";
    assert x == dir + ("/" + stem + GeoName(geo) + "-from-vert-");
    var d, i, n := Decimal(vert), IndexPart(index), NwPart(nw);
    calc {
      AtlasStyleName(dir, stem, geo, vert, index, nw, ext);
      x + d + (i + n + ext);
      { Nest3(x + d, i + n, ext); }
      x + d + (i + n) + ext;
      { Nest3(x, d, i + n); Nest3(d, i, n); }
      x + (d + i + n) + ext;
    }
  }

  /** An atlas-style name lies directly in dir, after "/" + stem + geo + "-from-vert-", and ends in ext. */
  lemma AtlasStyleInDir(dir: string, stem: string, geo: GeoType, vert: nat,
                        index: Option<nat>, nw: bool, ext: string)
    requires NoSlash(stem) && NoSlash(ext)
    ensures InDir(AtlasStyleName(dir, stem, geo, vert, index, nw, ext), dir,
                  "/" + stem + GeoName(geo) + "-from-vert-", ext)
  {
    var pre := "/" + stem + GeoName(geo) + "-from-vert-";
    var mid := Decimal(vert) + IndexPart(index) + NwPart(nw);
    assert NoSlash(mid) by {
      DecimalNoSlash(vert);
      assert NoSlash(IndexPart(index)) by {
        if index.Some? {
          DecimalNoSlash(index.value);
          NoSlashConcat("-", Decimal(index.value));
        }
      }
      NoSlashConcat(Decimal(vert), IndexPart(index));
      NoSlashConcat(Decimal(vert) + IndexPart(index), NwPart(nw));
    }
    assert NoSlash(pre[1..]) by {
      assert pre[1..] == stem + GeoName(geo) + "-from-vert-";
      NoSlashConcat(stem, GeoName(geo));
      NoSlashConcat(stem + GeoName(geo), "-from-vert-");
    }
    AtlasStyleNameSplit(dir, stem, geo, vert, index, nw, ext);
    InDirBy(dir, pre, mid, ext);
  }

  /** _fn_atlastex: "{io_dir}/tex-{geo}-from-vert-{vert}[-{index}][-nw].png" */
  function AtlasTexName(dir: string, geo: GeoType, vert: nat, index: Option<nat>, nw: bool): (r: string)
    ensures InDir(r, dir, "/tex-" + GeoName(geo) + "-from-vert-", ".png")
  {
    AtlasStyleInDir(dir, "tex-", geo, vert, index, nw, ".png");
    assert "/" + "tex-" == "/tex-";
    AtlasStyleName(dir, "tex-", geo, vert, index, nw, ".png")
  }

  /** _fn_atlas: "{io_dir}/atlas-{geo}-from-vert-{vert}[-{index}][-nw].npz" */
  function AtlasName(dir: string, geo: GeoType, vert: nat, index: Option<nat>, nw: bool): (r: string)
    ensures InDir(r, dir, "/atlas-" + GeoName(geo) + "-from-vert-", ".npz")
  {
    AtlasStyleInDir(dir, "atlas-", geo, vert, index, nw, ".npz");
    assert "/" + "atlas-" == "/atlas-";
    AtlasStyleName(dir, "atlas-", geo, vert, index, nw, ".npz")
  }

  /** "{io_dir}/atlas2prim-{geo}.npz" */
  function Atlas2PrimName(dir: string, geo: GeoType): (r: string)
    ensures InDir(r, dir, "/atlas2prim-", ".npz")
  {
    InDirBy(dir, "/atlas2prim-", GeoName(geo), ".npz");
    dir + "/atlas2prim-" + GeoName(geo) + ".npz"
  }

  // ---- parsing facts -----------------------------------------------------

  /** Re-bracketing of concatenations, so that a common prefix can be stripped. */
  lemma Nest3(a: string, b: string, c: string)
    ensures a + b + c == a + (b + c)
  {
  }

  lemma Nest5(a: string, b: string, c: string, d: string, e: string)
    ensures a + b + c + d + e == a + (b + (c + (d + e)))
  {
  }

  lemma Nest7(a: string, b: string, c: string, d: string, e: string, f: string, g: string)
    ensures a + b + c + d + e + f + g == a + (b + (c + (d + (e + (f + g)))))
  {
  }

  lemma StripPrefix(p: string, s1: string, s2: string)
    requires p + s1 == p + s2
    ensures s1 == s2
  {
    assert s1 == (p + s1)[|p|..];
    assert s2 == (p + s2)[|p|..];
  }

  /** Two strings of equal length followed by anything: the heads agree. */
  lemma SplitAtLength(a1: string, r1: string, a2: string, r2: string)
    requires |a1| == |a2| && a1 + r1 == a2 + r2
    ensures a1 == a2 && r1 == r2
  {
    assert a1 == (a1 + r1)[..|a1|];
    assert a2 == (a2 + r2)[..|a2|];
    assert r1 == (a1 + r1)[|a1|..];
    assert r2 == (a2 + r2)[|a2|..];
  }

  /** Within a run of digits followed by a non-digit, position k holds a digit iff k is inside the run. */
  lemma DigitRunEnd(a: string, r: string, k: nat)
    requires AllDigits(a) && |r| > 0 && !IsDigit(r[0]) && k <= |a|
    ensures IsDigit((a + r)[k]) <==> k < |a|
  {
  }

  /** A run of digits ends where the first non-digit begins. */
  lemma SplitAtNonDigit(a1: string, r1: string, a2: string, r2: string)
    requires AllDigits(a1) && AllDigits(a2)
    requires |r1| > 0 && !IsDigit(r1[0]) && |r2| > 0 && !IsDigit(r2[0])
    requires a1 + r1 == a2 + r2
    ensures a1 == a2 && r1 == r2
  {
    // compare the character at the shorter length: a digit on one side, a non-digit on the other
    var k := if |a1| < |a2| then |a1| else |a2|;
    DigitRunEnd(a1, r1, k);
    DigitRunEnd(a2, r2, k);
    SplitAtLength(a1, r1, a2, r2);
  }

  /** Decimal(m) + r1 == Decimal(n) + r2 with non-digit tails determines m. */
  lemma SplitDecimal(m: nat, r1: string, n: nat, r2: string)
    requires |r1| > 0 && !IsDigit(r1[0]) && |r2| > 0 && !IsDigit(r2[0])
    requires Decimal(m) + r1 == Decimal(n) + r2
    ensures m == n && r1 == r2
  {
    SplitAtNonDigit(Decimal(m), r1, Decimal(n), r2);
    DecimalInjective(m, n);
  }

  /** "{a}-{b}{ext}", with ext starting with a non-digit, determines (a, b). */
  lemma PairInjective(a1: nat, b1: nat, a2: nat, b2: nat, ext: string)
    requires |ext| > 0 && !IsDigit(ext[0])
    requires Decimal(a1) + ("-" + (Decimal(b1) + ext)) == Decimal(a2) + ("-" + (Decimal(b2) + ext))
    ensures a1 == a2 && b1 == b2
  {
    SplitDecimal(a1, "-" + (Decimal(b1) + ext), a2, "-" + (Decimal(b2) + ext));
    StripPrefix("-", Decimal(b1) + ext, Decimal(b2) + ext);
    SplitDecimal(b1, ext, b2, ext);
  }

  // ---- uniqueness of names -------------------------------------------------

  lemma TouchQNameInjective(dir: string, v1: nat, b1: nat, v2: nat, b2: nat)
    ensures TouchQName(dir, v1, b1) == TouchQName(dir, v2, b2) <==> v1 == v2 && b1 == b2
  {
    if TouchQName(dir, v1, b1) == TouchQName(dir, v2, b2) {
      var p := dir + "/touchq-";
      Nest5(p, Decimal(v1), "-", Decimal(b1), ".npz");
      Nest5(p, Decimal(v2), "-", Decimal(b2), ".npz");
      StripPrefix(p, Decimal(v1) + ("-" + (Decimal(b1) + ".npz")), Decimal(v2) + ("-" + (Decimal(b2) + ".npz")));
      PairInjective(v1, b1, v2, b2, ".npz");
    }
  }

  lemma IsectGeoNameInjective(dir: string, v1: nat, c1: nat, v2: nat, c2: nat)
    ensures IsectGeoName(dir, v1, c1) == IsectGeoName(dir, v2, c2) <==> v1 == v2 && c1 == c2
  {
    if IsectGeoName(dir, v1, c1) == IsectGeoName(dir, v2, c2) {
      var p := dir + "/isectgeo-from-vert-";
      Nest5(p, Decimal(v1), "-", Decimal(c1), ".obj");
      Nest5(p, Decimal(v2), "-", Decimal(c2), ".obj");
      StripPrefix(p, Decimal(v1) + ("-" + (Decimal(c1) + ".obj")), Decimal(v2) + ("-" + (Decimal(c2) + ".obj")));
      PairInjective(v1, c1, v2, c2, ".obj");
    }
  }

  lemma UvGeoNameInjective(dir: string, g1: GeoType, v1: nat, c1: nat, g2: GeoType, v2: nat, c2: nat)
    ensures UvGeoName(dir, g1, v1, c1) == UvGeoName(dir, g2, v2, c2) <==> g1 == g2 && v1 == v2 && c1 == c2
  {
    if UvGeoName(dir, g1, v1, c1) == UvGeoName(dir, g2, v2, c2) {
      var p, q := dir + "/", "-uv-from-vert-";
      var t1 := Decimal(v1) + ("-" + (Decimal(c1) + ".obj"));
      var t2 := Decimal(v2) + ("-" + (Decimal(c2) + ".obj"));
      Nest7(p, GeoName(g1), q, Decimal(v1), "-", Decimal(c1), ".obj");
      Nest7(p, GeoName(g2), q, Decimal(v2), "-", Decimal(c2), ".obj");
      StripPrefix(p, GeoName(g1) + (q + t1), GeoName(g2) + (q + t2));
      SplitAtLength(GeoName(g1), q + t1, GeoName(g2), q + t2);
      assert g1 == g2;
      StripPrefix(q, t1, t2);
      PairInjective(v1, c1, v2, c2, ".obj");
    }
  }

  /** The three shapes of the part of an atlas name after the vertex id. */
  lemma AtlasTailShape(index: Option<nat>, nw: bool, ext: string)
    ensures index.None? && !nw ==> AtlasTail(index, nw, ext) == ext
    ensures index.None? && nw ==> AtlasTail(index, nw, ext) == "-" + ("nw" + ext)
    ensures index.Some? ==> AtlasTail(index, nw, ext) == "-" + (Decimal(index.value) + (NwPart(nw) + ext))
  {
    if index.Some? {
      Nest3("-" + Decimal(index.value), NwPart(nw), ext);
      Nest3("-", Decimal(index.value), NwPart(nw) + ext);
    }
  }

  /** What follows the "-" of an atlas tail: "nw" or a digit, as index is absent or given. */
  function AfterDash(index: Option<nat>, nw: bool, ext: string): string
  {
    match index
    case None => "nw" + ext
    case Some(i) => Decimal(i) + (NwPart(nw) + ext)
  }

  /** The tail after the vertex id determines the index and the weighting flag. */
  lemma AtlasTailInjective(i1: Option<nat>, nw1: bool, i2: Option<nat>, nw2: bool, ext: string)
    requires |ext| > 0 && ext[0] == '.'
    requires AtlasTail(i1, nw1, ext) == AtlasTail(i2, nw2, ext)
    ensures i1 == i2 && nw1 == nw2
  {
    AtlasTailShape(i1, nw1, ext);
    AtlasTailShape(i2, nw2, ext);
    var plain1, plain2 := i1.None? && !nw1, i2.None? && !nw2;
    // the first character is '.' exactly for the plain tail
    assert AtlasTail(i1, nw1, ext)[0] == (if plain1 then '.' else '-');
    assert AtlasTail(i2, nw2, ext)[0] == (if plain2 then '.' else '-');
    if !plain1 {
      var u1, u2 := AfterDash(i1, nw1, ext), AfterDash(i2, nw2, ext);
      assert AtlasTail(i1, nw1, ext) == "-" + u1;
      assert AtlasTail(i2, nw2, ext) == "-" + u2;
      StripPrefix("-", u1, u2);
      // 'n' is not a digit
      assert u1[0] == (if i1.None? then 'n' else Decimal(i1.value)[0]);
      assert u2[0] == (if i2.None? then 'n' else Decimal(i2.value)[0]);
      if i1.Some? {
        SplitDecimal(i1.value, NwPart(nw1) + ext, i2.value, NwPart(nw2) + ext);
        assert (NwPart(nw1) + ext)[0] == (if nw1 then '-' else '.');
        assert (NwPart(nw2) + ext)[0] == (if nw2 then '-' else '.');
      }
    }
  }

  lemma AtlasStyleNameInjective(dir: string, stem: string, ext: string,
                                g1: GeoType, v1: nat, i1: Option<nat>, nw1: bool,
                                g2: GeoType, v2: nat, i2: Option<nat>, nw2: bool)
    requires |ext| > 0 && ext[0] == '.'
    ensures AtlasStyleName(dir, stem, g1, v1, i1, nw1, ext) == AtlasStyleName(dir, stem, g2, v2, i2, nw2, ext)
            <==> g1 == g2 && v1 == v2 && i1 == i2 && nw1 == nw2
  {
    if AtlasStyleName(dir, stem, g1, v1, i1, nw1, ext) == AtlasStyleName(dir, stem, g2, v2, i2, nw2, ext) {
      var p, q := dir + "/" + stem, "-from-vert-";
      var t1, t2 := AtlasTail(i1, nw1, ext), AtlasTail(i2, nw2, ext);
      Nest5(p, GeoName(g1), q, Decimal(v1), t1);
      Nest5(p, GeoName(g2), q, Decimal(v2), t2);
      StripPrefix(p, GeoName(g1) + (q + (Decimal(v1) + t1)), GeoName(g2) + (q + (Decimal(v2) + t2)));
      SplitAtLength(GeoName(g1), q + (Decimal(v1) + t1), GeoName(g2), q + (Decimal(v2) + t2));
      assert g1 == g2;
      StripPrefix(q, Decimal(v1) + t1, Decimal(v2) + t2);
      assert !IsDigit(t1[0]) && !IsDigit(t2[0]);
      SplitDecimal(v1, t1, v2, t2);
      AtlasTailInjective(i1, nw1, i2, nw2, ext);
    }
  }

  lemma AtlasTexNameInjective(dir: string, g1: GeoType, v1: nat, i1: Option<nat>, nw1: bool,
                              g2: GeoType, v2: nat, i2: Option<nat>, nw2: bool)
    ensures AtlasTexName(dir, g1, v1, i1, nw1) == AtlasTexName(dir, g2, v2, i2, nw2)
            <==> g1 == g2 && v1 == v2 && i1 == i2 && nw1 == nw2
  {
    AtlasStyleNameInjective(dir, "tex-", ".png", g1, v1, i1, nw1, g2, v2, i2, nw2);
  }

  lemma AtlasNameInjective(dir: string, g1: GeoType, v1: nat, i1: Option<nat>, nw1: bool,
                           g2: GeoType, v2: nat, i2: Option<nat>, nw2: bool)
    ensures AtlasName(dir, g1, v1, i1, nw1) == AtlasName(dir, g2, v2, i2, nw2)
            <==> g1 == g2 && v1 == v2 && i1 == i2 && nw1 == nw2
  {
    AtlasStyleNameInjective(dir, "atlas-", ".npz", g1, v1, i1, nw1, g2, v2, i2, nw2);
  }

  /** An atlas-style name ends in the last character of its extension. */
  lemma AtlasStyleNameLast(dir: string, stem: string, geo: GeoType, vert: nat,
                           index: Option<nat>, nw: bool, ext: string)
    requires |ext| > 0
    ensures var s := AtlasStyleName(dir, stem, geo, vert, index, nw, ext);
            |s| > 0 && s[|s| - 1] == ext[|ext| - 1]
  {
    var t := AtlasTail(index, nw, ext);
    var x := dir + "/" + stem + GeoName(geo) + "-from-vert-" + Decimal(vert);
    assert t[|t| - 1] == ext[|ext| - 1];
    assert AtlasStyleName(dir, stem, geo, vert, index, nw, ext) == x + t;
  }

  lemma Atlas2PrimNameInjective(dir: string, g1: GeoType, g2: GeoType)
    ensures Atlas2PrimName(dir, g1) == Atlas2PrimName(dir, g2) <==> g1 == g2
  {
    if Atlas2PrimName(dir, g1) == Atlas2PrimName(dir, g2) {
      var p := dir + "/atlas2prim-";
      Nest3(p, GeoName(g1), ".npz");
      Nest3(p, GeoName(g2), ".npz");
      StripPrefix(p, GeoName(g1) + ".npz", GeoName(g2) + ".npz");
      SplitAtLength(GeoName(g1), ".npz", GeoName(g2), ".npz");
    }
  }

  /** A name ending in a decimal ends in a digit. */
  lemma LastDigit(x: string, n: nat)
    ensures |x + Decimal(n)| > 0 && IsDigit((x + Decimal(n))[|x + Decimal(n)| - 1])
  {
    var s := Decimal(n);
    assert (x + s)[|x + s| - 1] == s[|s| - 1];
  }

  lemma SuffixOf(h: string, s: string)
    ensures (h + s)[|h + s| - |s|..] == s
  {
  }

  /** After a digit, the "-nw" part is the only way to end in "-nw" + ext. */
  lemma NwSuffixAfterDigit(h: string, nw: bool, ext: string)
    requires |h| > 0 && IsDigit(h[|h| - 1])
    ensures var name := h + (NwPart(nw) + ext);
            nw <==> |name| >= |ext| + 3 && name[|name| - |ext| - 3..] == "-nw" + ext
  {
    var name := h + (NwPart(nw) + ext);
    if nw {
      SuffixOf(h, "-nw" + ext);
    } else {
      assert NwPart(nw) + ext == ext;
      assert name[|h|..] == ext;
      if |name| >= |ext| + 3 {
        var tail := name[|name| - |ext| - 3..];
        assert tail[2] == h[|h| - 1];
        assert ("-nw" + ext)[2] == 'w';
      }
    }
  }

  /** The "-nw" suffix of x + vertex id + tail is present exactly when nw is set. */
  lemma TailNwSuffix(x: string, vert: nat, index: Option<nat>, nw: bool, ext: string)
    ensures var name := x + Decimal(vert) + AtlasTail(index, nw, ext);
            nw <==> |name| >= |ext| + 3 && name[|name| - |ext| - 3..] == "-nw" + ext
  {
    var a := x + Decimal(vert);
    var ip, np := IndexPart(index), NwPart(nw);
    var h := a + ip;
    LastDigit(x, vert);
    match index {
      case None =>
        assert h == a;
      case Some(i) =>
        Nest3(a, "-", Decimal(i));
        LastDigit(a + "-", i);
    }
    Nest3(a, ip, np + ext);
    Nest3(ip, np, ext);
    NwSuffixAfterDigit(h, nw, ext);
  }

  /** The "-nw" suffix is present exactly for the unweighted atlas. */
  lemma AtlasNwSuffix(dir: string, stem: string, geo: GeoType, vert: nat,
                      index: Option<nat>, nw: bool, ext: string)
    ensures var name := AtlasStyleName(dir, stem, geo, vert, index, nw, ext);
            nw <==> |name| >= |ext| + 3 && name[|name| - |ext| - 3..] == "-nw" + ext
  {
    TailNwSuffix(dir + "/" + stem + GeoName(geo) + "-from-vert-", vert, index, nw, ext);
  }

  lemma CharsAfter(a: string, t: string)
    requires |t| > 0
    ensures (a + t)[|a|] == t[0] && (|t| > 1 ==> (a + t)[|a| + 1] == t[1])
  {
  }

  /** Right after a, the tail starts with "-" and a digit exactly when an index is given. */
  lemma TailIndexPart(a: string, index: Option<nat>, nw: bool, ext: string)
    requires |ext| > 0 && ext[0] == '.'
    ensures var name := a + AtlasTail(index, nw, ext);
            index.Some? <==> |a| + 1 < |name| && name[|a|] == '-' && IsDigit(name[|a| + 1])
  {
    var t := AtlasTail(index, nw, ext);
    CharsAfter(a, t);
    match index {
      case None =>
        if nw {
          assert t[0] == '-' && t[1] == 'n';
        } else {
          assert t[0] == '.';
        }
      case Some(i) =>
        var ds := Decimal(i);
        assert t[0] == '-' && t[1] == ds[0];
    }
  }

  /** The "-{index}" part is present exactly when an index is given. */
  lemma AtlasIndexPart(dir: string, stem: string, geo: GeoType, vert: nat,
                       index: Option<nat>, nw: bool, ext: string)
    requires |ext| > 0 && ext[0] == '.'
    ensures var name := AtlasStyleName(dir, stem, geo, vert, index, nw, ext);
            var k := |dir + "/" + stem + GeoName(geo) + "-from-vert-" + Decimal(vert)|;
            index.Some? <==> k + 1 < |name| && name[k] == '-' && IsDigit(name[k + 1])
  {
    TailIndexPart(dir + "/" + stem + GeoName(geo) + "-from-vert-" + Decimal(vert), index, nw, ext);
  }
}
