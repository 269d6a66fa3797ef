/**
 * The deterministic core of the tile-API benchmark script: the set of tile
 * requests it plans (a random start, then z slices outermost, rows, then
 * columns in steps of the tile size), the latency percentile it reports,
 * and how it splits fetch results into successes and errors.
 */
module BenchmarkTiles {
  import opened Common
  import opened Text
  import opened Sorting

  /** Shape and default tile size as the tile-grid endpoint reports them, already int()-converted. */
  datatype GridInfo = GridInfo(tileSize: int, zDim: int, yDim: int, xDim: int)

  /** The RuntimeError and ValueError paths of build_request_urls. */
  datatype BuildError =
    | AreaTooSmall(usedH: int, usedW: int, tileSize: int)
    | NoSlices
    | ZeroStep

  /**
   * What the seeded random generator yields, one draw per randint call
   * (for y, then x, then z); a draw is only used when its range is non-trivial.
   */
  datatype Draws = Draws(y: nat, x: nat, z: nat)

  datatype Origin = Origin(z: int, y: int, x: int)

  /** Where the requests start and how much of the volume they cover. */
  datatype Layout = Layout(usedH: nat, usedW: nat, slices: nat, z0: int, y0: int, x0: int)

  function Max(a: int, b: int): int { if a >= b then a else b }

  function Min(a: int, b: int): int { if a <= b then a else b }

  /** rng.randint(lo, hi) given the generator's draw: some value of [lo, hi]. */
  function RandInt(lo: int, hi: int, draw: nat): (r: int)
    requires lo <= hi
    ensures lo <= r <= hi
  {
    lo + draw % (hi - lo + 1)
  }

  /** randint(0, max(0, m)) if m > 0 else 0. */
  function Start(m: int, draw: nat): (r: int)
    ensures 0 <= r && (m > 0 ==> r <= m) && (m <= 0 ==> r == 0)
  {
    if m > 0 then RandInt(0, Max(0, m), draw) else 0
  }

  /** The used extent of one side: max(0, min(area_size, dim)). */
  function UsedSide(area: int, dim: int): nat {
    Max(0, Min(area, dim))
  }

  /**
   * The layout build_request_urls settles on before it loops, or the error
   * it raises: the area check first, then the slice check, then the zero
   * step of range().
   */
  function LayoutOf(grid: GridInfo, tileSize: int, areaSize: int, zSlices: int, draws: Draws): (r: Result<Layout, BuildError>)
    ensures var usedH, usedW := UsedSide(areaSize, grid.yDim), UsedSide(areaSize, grid.xDim);
      var slices := if grid.zDim > 0 then Min(zSlices, grid.zDim) else 0;
      && (r == Err(AreaTooSmall(usedH, usedW, tileSize)) <==> usedH < tileSize || usedW < tileSize)
      && (r == Err(NoSlices) <==> tileSize <= usedH && tileSize <= usedW && slices <= 0)
      && (r == Err(ZeroStep) <==> tileSize == 0 && slices > 0)
      && (r.Ok? ==> tileSize != 0 && tileSize <= usedH && tileSize <= usedW && slices > 0)
  {
    var usedH, usedW := UsedSide(areaSize, grid.yDim), UsedSide(areaSize, grid.xDim);
    if usedH < tileSize || usedW < tileSize then Err(AreaTooSmall(usedH, usedW, tileSize))
    else
      var y0 := Start(grid.yDim - usedH, draws.y);
      var x0 := Start(grid.xDim - usedW, draws.x);
      var slices := if grid.zDim > 0 then Min(zSlices, grid.zDim) else 0;
      if slices <= 0 then Err(NoSlices)
      else
        var z0 := Start(grid.zDim - slices, draws.z);
        if tileSize == 0 then Err(ZeroStep)
        else Ok(Layout(usedH, usedW, slices, z0, y0, x0))
  }

  /** The chosen layout fits the volume: the used area and the z range start inside it and end at its far edge at most. */
  lemma LayoutBounds(grid: GridInfo, tileSize: int, areaSize: int, zSlices: int, draws: Draws)
    requires LayoutOf(grid, tileSize, areaSize, zSlices, draws).Ok?
    ensures var l := LayoutOf(grid, tileSize, areaSize, zSlices, draws).value;
      && l.usedH == Max(0, Min(areaSize, grid.yDim)) && l.usedW == Max(0, Min(areaSize, grid.xDim))
      && l.slices == Min(zSlices, grid.zDim) && l.slices >= 1
      && 0 <= l.y0 <= Max(0, grid.yDim - l.usedH)
      && 0 <= l.x0 <= Max(0, grid.xDim - l.usedW)
      && 0 <= l.z0 <= grid.zDim - l.slices
      && (tileSize > 0 ==> l.usedH <= grid.yDim && l.usedW <= grid.xDim)
  {
  }

  /** list(range(0, used - ts + 1, ts)) for ts != 0: used // ts multiples of ts when ts > 0, nothing when ts < 0. */
  function Offsets(used: nat, ts: int): (r: seq<int>)
    requires ts != 0
    ensures ts < 0 ==> r == []
    ensures ts > 0 ==> |r| == used / ts
  {
    if ts < 0 then [] else seq(used / ts, k requires 0 <= k < used / ts => k * ts)
  }

  /** Every offset leaves room for a whole tile inside the used side, and the offsets strictly increase. */
  lemma OffsetsFit(used: nat, ts: int)
    requires ts > 0
    ensures forall k :: 0 <= k < |Offsets(used, ts)| ==> 0 <= Offsets(used, ts)[k] && Offsets(used, ts)[k] + ts <= used
    ensures forall i, j :: 0 <= i < j < |Offsets(used, ts)| ==> Offsets(used, ts)[i] < Offsets(used, ts)[j]
  {
    var r := Offsets(used, ts);
    assert forall k :: 0 <= k < |r| ==> r[k] == k * ts;
    forall k | 0 <= k < |r| ensures 0 <= r[k] && r[k] + ts <= used {
      MulLe(k + 1, used / ts, ts);
      MulLe(0, k, ts);
    }
    forall i, j | 0 <= i < j < |r| ensures r[i] < r[j] {
      MulLt(i, j, ts);
    }
  }

  /** The origins of one row of tiles: one per x offset, in order. */
  function RowOrigins(z: int, y: int, x0: int, xs: seq<int>): (r: seq<Origin>)
    ensures |r| == |xs|
    decreases |xs|
  {
    if xs == [] then []
    else RowOrigins(z, y, x0, xs[..|xs| - 1]) + [Origin(z, y, x0 + xs[|xs| - 1])]
  }

  lemma {:induction false} RowOriginsAt(z: int, y: int, x0: int, xs: seq<int>)
    ensures forall j :: 0 <= j < |xs| ==> RowOrigins(z, y, x0, xs)[j] == Origin(z, y, x0 + xs[j])
    decreases |xs|
  {
    if xs != [] {
      RowOriginsAt(z, y, x0, xs[..|xs| - 1]);
    }
  }

  /** The origins of one z slice: row after row, one row per y offset. */
  function PlaneOrigins(z: int, y0: int, ys: seq<int>, x0: int, xs: seq<int>): seq<Origin>
    decreases |ys|
  {
    if ys == [] then []
    else PlaneOrigins(z, y0, ys[..|ys| - 1], x0, xs) + RowOrigins(z, y0 + ys[|ys| - 1], x0, xs)
  }

  /** The origins of the slices zs, slice after slice. */
  function VolumeOrigins(zs: seq<int>, y0: int, ys: seq<int>, x0: int, xs: seq<int>): seq<Origin>
    decreases |zs|
  {
    if zs == [] then []
    else VolumeOrigins(zs[..|zs| - 1], y0, ys, x0, xs) + PlaneOrigins(zs[|zs| - 1], y0, ys, x0, xs)
  }

  /** range(z0, z0 + n): the slices the outer loop visits. */
  function Slices(z0: int, n: nat): (r: seq<int>)
    ensures |r| == n
  {
    seq(n, k requires 0 <= k < n => z0 + k)
  }

  /** The outer loop visits exactly the slices z0 <= z < z0 + n. */
  lemma SlicesSpan(z0: int, n: nat, z: int)
    ensures z in Slices(z0, n) <==> z0 <= z < z0 + n
  {
    if z0 <= z < z0 + n {
      assert Slices(z0, n)[z - z0] == z;
    }
  }

  /** ... in increasing order. */
  lemma SlicesIncreasing(z0: int, n: nat)
    ensures Increasing(Slices(z0, n))
  {
  }

  /** The origins the triple loop visits for a layout. */
  function Origins(l: Layout, ts: int): seq<Origin>
    requires ts != 0
  {
    VolumeOrigins(Slices(l.z0, l.slices), l.y0, Offsets(l.usedH, ts), l.x0, Offsets(l.usedW, ts))
  }

  lemma {:induction false} PlaneOriginsLength(z: int, y0: int, ys: seq<int>, x0: int, xs: seq<int>)
    ensures |PlaneOrigins(z, y0, ys, x0, xs)| == |ys| * |xs|
    decreases |ys|
  {
    if ys != [] {
      PlaneOriginsLength(z, y0, ys[..|ys| - 1], x0, xs);
      assert (|ys| - 1) * |xs| + |xs| == |ys| * |xs|;
    }
  }

  lemma RowOriginsMembers(z: int, y: int, x0: int, xs: seq<int>, o: Origin)
    ensures o in RowOrigins(z, y, x0, xs) <==> o.z == z && o.y == y && o.x - x0 in xs
  {
    var row := RowOrigins(z, y, x0, xs);
    RowOriginsAt(z, y, x0, xs);
    if o in row {
      var j :| 0 <= j < |row| && row[j] == o;
      assert o.x - x0 == xs[j];
    }
    if o.z == z && o.y == y && o.x - x0 in xs {
      var j :| 0 <= j < |xs| && xs[j] == o.x - x0;
      assert row[j] == o;
    }
  }

  lemma {:induction false} PlaneOriginsMembers(z: int, y0: int, ys: seq<int>, x0: int, xs: seq<int>, o: Origin)
    ensures o in PlaneOrigins(z, y0, ys, x0, xs) <==> o.z == z && o.y - y0 in ys && o.x - x0 in xs
    decreases |ys|
  {
    if ys != [] {
      var init := ys[..|ys| - 1];
      var y := y0 + ys[|ys| - 1];
      PlaneOriginsMembers(z, y0, init, x0, xs, o);
      assert ys == init + [ys[|ys| - 1]];
      RowOriginsMembers(z, y, x0, xs, o);
    }
  }

  lemma {:induction false} VolumeOriginsLength(zs: seq<int>, y0: int, ys: seq<int>, x0: int, xs: seq<int>)
    ensures |VolumeOrigins(zs, y0, ys, x0, xs)| == |zs| * (|ys| * |xs|)
    decreases |zs|
  {
    if zs != [] {
      var init := zs[..|zs| - 1];
      VolumeOriginsLength(init, y0, ys, x0, xs);
      PlaneOriginsLength(zs[|zs| - 1], y0, ys, x0, xs);
      var m := |ys| * |xs|;
      assert (|zs| - 1) * m + m == |zs| * m;
    }
  }

  lemma {:induction false} VolumeOriginsMembers(zs: seq<int>, y0: int, ys: seq<int>, x0: int, xs: seq<int>, o: Origin)
    ensures o in VolumeOrigins(zs, y0, ys, x0, xs) <==> o.z in zs && o.y - y0 in ys && o.x - x0 in xs
    decreases |zs|
  {
    if zs != [] {
      var init, z := zs[..|zs| - 1], zs[|zs| - 1];
      assert zs == init + [z];
      VolumeOriginsMembers(init, y0, ys, x0, xs, o);
      PlaneOriginsMembers(z, y0, ys, x0, xs, o);
    }
  }

  /** The planned request count is slices · ⌊used_h/ts⌋ · ⌊used_w/ts⌋. */
  lemma OriginsCount(l: Layout, ts: int)
    requires ts > 0
    ensures |Origins(l, ts)| == l.slices * ((l.usedH / ts) * (l.usedW / ts))
  {
    VolumeOriginsLength(Slices(l.z0, l.slices), l.y0, Offsets(l.usedH, ts), l.x0, Offsets(l.usedW, ts));
  }

  /** The requested tiles are exactly the grid points of the layout: a slice in range, a row and a column offset. */
  lemma OriginsMembers(l: Layout, ts: int, o: Origin)
    requires ts != 0
    ensures o in Origins(l, ts) <==>
      l.z0 <= o.z < l.z0 + l.slices && o.y - l.y0 in Offsets(l.usedH, ts) && o.x - l.x0 in Offsets(l.usedW, ts)
  {
    VolumeOriginsMembers(Slices(l.z0, l.slices), l.y0, Offsets(l.usedH, ts), l.x0, Offsets(l.usedW, ts), o);
    SlicesSpan(l.z0, l.slices, o.z);
  }

  /** Every planned tile lies wholly inside the volume: z < Z, y + ts <= Y, x + ts <= X. */
  lemma OriginsInsideVolume(grid: GridInfo, tileSize: int, areaSize: int, zSlices: int, draws: Draws, o: Origin)
    requires LayoutOf(grid, tileSize, areaSize, zSlices, draws).Ok?
    requires o in Origins(LayoutOf(grid, tileSize, areaSize, zSlices, draws).value, tileSize)
    ensures tileSize > 0
    ensures 0 <= o.z < grid.zDim
    ensures 0 <= o.y && o.y + tileSize <= grid.yDim
    ensures 0 <= o.x && o.x + tileSize <= grid.xDim
  {
    var l := LayoutOf(grid, tileSize, areaSize, zSlices, draws).value;
    LayoutBounds(grid, tileSize, areaSize, zSlices, draws);
    if tileSize < 0 {
      OriginsMembers(l, tileSize, o);
      assert false;
    }
    OriginsMembers(l, tileSize, o);
    OffsetsFit(l.usedH, tileSize);
    OffsetsFit(l.usedW, tileSize);
  }

  /** (z, y, x) comes strictly before (z', y', x') with z outermost, then y, then x. */
  predicate Before(a: Origin, b: Origin) {
    a.z < b.z || (a.z == b.z && (a.y < b.y || (a.y == b.y && a.x < b.x)))
  }

  predicate Increasing(s: seq<int>) {
    forall i, j :: 0 <= i < j < |s| ==> s[i] < s[j]
  }

  predicate InOrder(os: seq<Origin>) {
    forall i, j :: 0 <= i < j < |os| ==> Before(os[i], os[j])
  }

  /** Two lists in order, every element of the first before every element of the second, are in order together. */
  lemma ConcatInOrder(a: seq<Origin>, b: seq<Origin>)
    requires InOrder(a) && InOrder(b)
    requires forall i, j :: 0 <= i < |a| && 0 <= j < |b| ==> Before(a[i], b[j])
    ensures InOrder(a + b)
  {
    var all := a + b;
    forall i, j | 0 <= i < j < |all| ensures Before(all[i], all[j]) {
      if j < |a| {
        assert all[i] == a[i] && all[j] == a[j];
      } else if i < |a| {
        assert all[i] == a[i] && all[j] == b[j - |a|];
      } else {
        assert all[i] == b[i - |a|] && all[j] == b[j - |a|];
      }
    }
  }

  /** A member of a list of increasing values is below the last one, unless it is the last one. */
  lemma BelowLast(s: seq<int>, v: int)
    requires Increasing(s) && s != [] && v in s[..|s| - 1]
    ensures v < s[|s| - 1]
  {
    var m :| 0 <= m < |s| - 1 && s[..|s| - 1][m] == v;
    assert s[m] == v;
  }

  lemma {:induction false} PlaneOriginsInOrder(z: int, y0: int, ys: seq<int>, x0: int, xs: seq<int>)
    requires Increasing(ys) && Increasing(xs)
    ensures InOrder(PlaneOrigins(z, y0, ys, x0, xs))
    decreases |ys|
  {
    if ys != [] {
      var init, y := ys[..|ys| - 1], y0 + ys[|ys| - 1];
      var front, row := PlaneOrigins(z, y0, init, x0, xs), RowOrigins(z, y, x0, xs);
      PlaneOriginsInOrder(z, y0, init, x0, xs);
      RowOriginsAt(z, y, x0, xs);
      forall i, j | 0 <= i < |front| && 0 <= j < |row| ensures Before(front[i], row[j]) {
        PlaneOriginsMembers(z, y0, init, x0, xs, front[i]);
        BelowLast(ys, front[i].y - y0);
      }
      ConcatInOrder(front, row);
    }
  }

  lemma {:induction false} VolumeOriginsInOrder(zs: seq<int>, y0: int, ys: seq<int>, x0: int, xs: seq<int>)
    requires Increasing(zs) && Increasing(ys) && Increasing(xs)
    ensures InOrder(VolumeOrigins(zs, y0, ys, x0, xs))
    decreases |zs|
  {
    if zs != [] {
      var init, z := zs[..|zs| - 1], zs[|zs| - 1];
      var front, plane := VolumeOrigins(init, y0, ys, x0, xs), PlaneOrigins(z, y0, ys, x0, xs);
      VolumeOriginsInOrder(init, y0, ys, x0, xs);
      PlaneOriginsInOrder(z, y0, ys, x0, xs);
      forall i, j | 0 <= i < |front| && 0 <= j < |plane| ensures Before(front[i], plane[j]) {
        VolumeOriginsMembers(init, y0, ys, x0, xs, front[i]);
        PlaneOriginsMembers(z, y0, ys, x0, xs, plane[j]);
        BelowLast(zs, front[i].z);
      }
      ConcatInOrder(front, plane);
    }
  }

  /** The requests come z slice by z slice, each slice row by row, each row left to right; hence no tile is requested twice. */
  lemma OriginsInOrder(l: Layout, ts: int)
    requires ts != 0
    ensures InOrder(Origins(l, ts))
    ensures forall i, j :: 0 <= i < j < |Origins(l, ts)| ==> Origins(l, ts)[i] != Origins(l, ts)[j]
  {
    if ts > 0 {
      OffsetsFit(l.usedH, ts);
      OffsetsFit(l.usedW, ts);
    }
    SlicesIncreasing(l.z0, l.slices);
    VolumeOriginsInOrder(Slices(l.z0, l.slices), l.y0, Offsets(l.usedH, ts), l.x0, Offsets(l.usedW, ts));
  }

  // ---------------------------------------------------------------------------
  // URLs

  /** s.rstrip('/') */
  function StripSlashes(s: string): (r: string)
    ensures r <= s && (r == [] || r[|r| - 1] != '/')
    ensures forall i :: |r| <= i < |s| ==> s[i] == '/'
    decreases |s|
  {
    if s != [] && s[|s| - 1] == '/' then StripSlashes(s[..|s| - 1]) else s
  }

  /** f"{api_base.rstrip('/')}/specimens/{specimen}/image/{view}/{level}" */
  function BaseUrl(apiBase: string, specimen: string, view: string, level: int): string {
    StripSlashes(apiBase) + "/specimens/" + specimen + "/image/" + view + "/" + IntToStr(level)
  }

  /** urlencode({"channel": channel, "tile_size": tile_size}) */
  function Query(channel: int, tileSize: int): string {
    "channel=" + IntToStr(channel) + "&tile_size=" + IntToStr(tileSize)
  }

  /** f"{base}/{z}/{y}/{x}?{qs}" */
  function Url(base: string, o: Origin, query: string): string {
    base + "/" + IntToStr(o.z) + "/" + IntToStr(o.y) + "/" + IntToStr(o.x) + "?" + query
  }

  function Urls(base: string, os: seq<Origin>, query: string): (r: seq<string>)
    ensures |r| == |os|
    decreases |os|
  {
    if os == [] then [] else Urls(base, os[..|os| - 1], query) + [Url(base, os[|os| - 1], query)]
  }

  /** The k-th URL is the URL of the k-th origin. */
  lemma {:induction false} UrlsAt(base: string, os: seq<Origin>, query: string, k: nat)
    requires k < |os|
    ensures Urls(base, os, query)[k] == Url(base, os[k], query)
    decreases |os|
  {
    var init, last := os[..|os| - 1], os[|os| - 1];
    var us, front, u := Urls(base, os, query), Urls(base, init, query), Url(base, last, query);
    assert us == front + [u];
    if k < |init| {
      UrlsAt(base, init, query, k);
      assert os[k] == init[k];
      assert us[k] == front[k];
    } else {
      assert os[k] == last;
      assert us[k] == u;
    }
  }

  lemma NoSlashInIntToStr(i: int)
    ensures '/' !in IntToStr(i)
  {
    var s := IntToStr(i);
    if i < 0 {
      NatToStrDigits(-i);
      assert forall k :: 1 <= k < |s| ==> s[k] == NatToStr(-i)[k - 1];
    } else {
      NatToStrDigits(i);
    }
  }

  lemma JoinThree(p: string, q: string, r: string, sep: char)
    ensures Join([p, q, r], sep) == p + [sep] + q + [sep] + r
  {
    assert [p, q, r][1..] == [q, r];
    assert [q, r][1..] == [r];
    assert Join([r], sep) == r;
    assert Join([q, r], sep) == q + [sep] + r;
    assert Join([p, q, r], sep) == p + [sep] + Join([q, r], sep);
  }

  /** The z/y/x part of a URL. */
  function PathOf(o: Origin): string {
    IntToStr(o.z) + "/" + IntToStr(o.y) + "/" + IntToStr(o.x)
  }

  lemma UrlShape(base: string, o: Origin, query: string)
    ensures Url(base, o, query) == (base + "/") + PathOf(o) + ("?" + query)
  {
  }

  lemma StripAffixes(pre: string, m1: string, m2: string, suf: string)
    requires pre + m1 + suf == pre + m2 + suf
    ensures m1 == m2
  {
    var u := pre + m1 + suf;
    assert |m1| == |m2|;
    assert m1 == u[|pre|..|pre| + |m1|];
  }

  /** Splitting the z/y/x path at '/' gives back the three numerals. */
  lemma PathParts(o: Origin)
    ensures Split(PathOf(o), '/') == [IntToStr(o.z), IntToStr(o.y), IntToStr(o.x)]
  {
    NoSlashInIntToStr(o.z);
    NoSlashInIntToStr(o.y);
    NoSlashInIntToStr(o.x);
    JoinThree(IntToStr(o.z), IntToStr(o.y), IntToStr(o.x), '/');
    SplitJoin([IntToStr(o.z), IntToStr(o.y), IntToStr(o.x)], '/');
  }

  /** The coordinates read back from the z/y/x path. */
  lemma PathOfInjective(a: Origin, b: Origin)
    requires PathOf(a) == PathOf(b)
    ensures a == b
  {
    PathParts(a);
    PathParts(b);
    var pa, pb := [IntToStr(a.z), IntToStr(a.y), IntToStr(a.x)], [IntToStr(b.z), IntToStr(b.y), IntToStr(b.x)];
    assert pa == pb;
    assert pa[0] == pb[0] && pa[1] == pb[1] && pa[2] == pb[2];
    IntToStrInjective(a.z, b.z);
    IntToStrInjective(a.y, b.y);
    IntToStrInjective(a.x, b.x);
  }

  /** The coordinates can be read back from a URL: distinct origins give distinct URLs. */
  lemma UrlInjective(base: string, a: Origin, b: Origin, query: string)
    requires Url(base, a, query) == Url(base, b, query)
    ensures a == b
  {
    UrlShape(base, a, query);
    UrlShape(base, b, query);
    StripAffixes(base + "/", PathOf(a), PathOf(b), "?" + query);
    PathOfInjective(a, b);
  }

  /** No URL is planned twice. */
  lemma UrlsDistinct(grid: GridInfo, tileSize: int, areaSize: int, zSlices: int, draws: Draws, base: string, query: string)
    requires LayoutOf(grid, tileSize, areaSize, zSlices, draws).Ok?
    ensures var us := Urls(base, Origins(LayoutOf(grid, tileSize, areaSize, zSlices, draws).value, tileSize), query);
      forall i, j :: 0 <= i < j < |us| ==> us[i] != us[j]
  {
    var os := Origins(LayoutOf(grid, tileSize, areaSize, zSlices, draws).value, tileSize);
    OriginsInOrder(LayoutOf(grid, tileSize, areaSize, zSlices, draws).value, tileSize);
    var us := Urls(base, os, query);
    forall i, j | 0 <= i < j < |us| ensures us[i] != us[j] {
      UrlsAt(base, os, query, i);
      UrlsAt(base, os, query, j);
      if us[i] == us[j] {
        UrlInjective(base, os[i], os[j], query);
      }
    }
  }

  lemma UrlsSnoc(base: string, os: seq<Origin>, o: Origin, query: string)
    ensures Urls(base, os + [o], query) == Urls(base, os, query) + [Url(base, o, query)]
  {
    assert (os + [o])[..|os|] == os;
  }

  lemma RowOriginsSnoc(z: int, y: int, x0: int, xs: seq<int>, ix: nat)
    requires ix < |xs|
    ensures RowOrigins(z, y, x0, xs[..ix + 1]) == RowOrigins(z, y, x0, xs[..ix]) + [Origin(z, y, x0 + xs[ix])]
  {
    assert xs[..ix + 1][..ix] == xs[..ix];
  }

  lemma PlaneOriginsSnoc(z: int, y0: int, ys: seq<int>, x0: int, xs: seq<int>, iy: nat, y: int)
    requires iy < |ys| && y == y0 + ys[iy]
    ensures PlaneOrigins(z, y0, ys[..iy + 1], x0, xs) == PlaneOrigins(z, y0, ys[..iy], x0, xs) + RowOrigins(z, y, x0, xs)
  {
    assert ys[..iy + 1][..iy] == ys[..iy];
  }

  lemma VolumeOriginsSnoc(zs: seq<int>, y0: int, ys: seq<int>, x0: int, xs: seq<int>, iz: nat, z: int)
    requires iz < |zs| && z == zs[iz]
    ensures VolumeOrigins(zs[..iz + 1], y0, ys, x0, xs) == VolumeOrigins(zs[..iz], y0, ys, x0, xs) + PlaneOrigins(z, y0, ys, x0, xs)
  {
    assert zs[..iz + 1][..iz] == zs[..iz];
  }

  lemma ConcatAssoc<T>(a: seq<T>, b: seq<T>, c: seq<T>)
    ensures (a + b) + c == a + (b + c)
  {
  }

  lemma {:induction false} UrlsAppend(base: string, a: seq<Origin>, b: seq<Origin>, query: string)
    ensures Urls(base, a + b, query) == Urls(base, a, query) + Urls(base, b, query)
    decreases |b|
  {
    if b == [] {
      assert a + b == a;
    } else {
      var init, last := b[..|b| - 1], b[|b| - 1];
      assert b == init + [last];
      ConcatAssoc(a, init, [last]);
      UrlsAppend(base, a, init, query);
      UrlsSnoc(base, a + init, last, query);
      UrlsSnoc(base, init, last, query);
      ConcatAssoc(Urls(base, a, query), Urls(base, init, query), [Url(base, last, query)]);
    }
  }

  /** build_request_urls: the triple loop over slices, row offsets and column offsets. */
  method BuildRequestUrls(apiBase: string, specimen: string, view: string, level: int, channel: int,
                          tileSize: int, grid: GridInfo, areaSize: int, zSlices: int, draws: Draws)
    returns (r: Result<seq<string>, BuildError>)
    ensures var layout := LayoutOf(grid, tileSize, areaSize, zSlices, draws);
      && (layout.Err? ==> r == Err(layout.error))
      && (layout.Ok? ==> r == Ok(Urls(BaseUrl(apiBase, specimen, view, level), Origins(layout.value, tileSize), Query(channel, tileSize))))
  {
    var usedH := Max(0, Min(areaSize, grid.yDim));
    var usedW := Max(0, Min(areaSize, grid.xDim));
    if usedH < tileSize || usedW < tileSize {
      return Err(AreaTooSmall(usedH, usedW, tileSize));
    }
    var maxY0 := grid.yDim - usedH;
    var maxX0 := grid.xDim - usedW;
    var y0 := if maxY0 > 0 then RandInt(0, Max(0, maxY0), draws.y) else 0;
    var x0 := if maxX0 > 0 then RandInt(0, Max(0, maxX0), draws.x) else 0;
    var slices := if grid.zDim > 0 then Min(zSlices, grid.zDim) else 0;
    if slices <= 0 {
      return Err(NoSlices);
    }
    var maxZ0 := grid.zDim - slices;
    var z0 := if maxZ0 > 0 then RandInt(0, Max(0, maxZ0), draws.z) else 0;
    if tileSize == 0 {
      return Err(ZeroStep);
    }
    assert LayoutOf(grid, tileSize, areaSize, zSlices, draws) == Ok(Layout(usedH, usedW, slices, z0, y0, x0));
    var yOffsets := Offsets(usedH, tileSize);
    var xOffsets := Offsets(usedW, tileSize);

    var urls := AppendTiles(BaseUrl(apiBase, specimen, view, level), channel, tileSize, z0, slices, y0, yOffsets, x0, xOffsets);
    return Ok(urls);
  }

  /**
   * The innermost loop of build_request_urls: one URL per column offset,
   * appended in order to the URLs so far.
   */
  method AppendRow(urls: seq<string>, base: string, channel: int, tileSize: int,
                   z: int, y: int, x0: int, xOffsets: seq<int>)
    returns (out: seq<string>)
    ensures out == urls + Urls(base, RowOrigins(z, y, x0, xOffsets), Query(channel, tileSize))
  {
    ghost var query := Query(channel, tileSize);
    out := urls;
    for ix := 0 to |xOffsets|
      invariant out == urls + Urls(base, RowOrigins(z, y, x0, xOffsets[..ix]), query)
    {
      var x := x0 + xOffsets[ix];
      var url := Url(base, Origin(z, y, x), Query(channel, tileSize));
      ghost var done := RowOrigins(z, y, x0, xOffsets[..ix]);
      RowOriginsSnoc(z, y, x0, xOffsets, ix);
      UrlsSnoc(base, done, Origin(z, y, x), query);
      ConcatAssoc(urls, Urls(base, done, query), [url]);
      out := out + [url];
    }
    assert xOffsets[..|xOffsets|] == xOffsets;
  }

  /** The middle loop: one row of URLs per row offset of slice z. */
  method AppendPlane(urls: seq<string>, base: string, channel: int, tileSize: int,
                     z: int, y0: int, yOffsets: seq<int>, x0: int, xOffsets: seq<int>)
    returns (out: seq<string>)
    ensures out == urls + Urls(base, PlaneOrigins(z, y0, yOffsets, x0, xOffsets), Query(channel, tileSize))
  {
    ghost var query := Query(channel, tileSize);
    out := urls;
    assert yOffsets[..0] == [] && urls + [] == urls;
    for iy := 0 to |yOffsets|
      invariant out == urls + Urls(base, PlaneOrigins(z, y0, yOffsets[..iy], x0, xOffsets), query)
    {
      var y := y0 + yOffsets[iy];
      ghost var done, row := PlaneOrigins(z, y0, yOffsets[..iy], x0, xOffsets), RowOrigins(z, y, x0, xOffsets);
      PlaneOriginsSnoc(z, y0, yOffsets, x0, xOffsets, iy, y);
      UrlsAppend(base, done, row, query);
      ConcatAssoc(urls, Urls(base, done, query), Urls(base, row, query));
      out := AppendRow(out, base, channel, tileSize, z, y, x0, xOffsets);
    }
    assert yOffsets[..|yOffsets|] == yOffsets;
  }

  /** The outer loop: the URLs of slices z0, z0+1, ..., z0+slices-1. */
  method AppendTiles(base: string, channel: int, tileSize: int, z0: int, slices: nat,
                     y0: int, yOffsets: seq<int>, x0: int, xOffsets: seq<int>)
    returns (urls: seq<string>)
    ensures urls == Urls(base, VolumeOrigins(Slices(z0, slices), y0, yOffsets, x0, xOffsets), Query(channel, tileSize))
  {
    ghost var query, zs := Query(channel, tileSize), Slices(z0, slices);
    urls := [];
    for dz := 0 to slices
      invariant urls == Urls(base, VolumeOrigins(zs[..dz], y0, yOffsets, x0, xOffsets), query)
    {
      var z := z0 + dz;
      ghost var done, plane := VolumeOrigins(zs[..dz], y0, yOffsets, x0, xOffsets), PlaneOrigins(z, y0, yOffsets, x0, xOffsets);
      VolumeOriginsSnoc(zs, y0, yOffsets, x0, xOffsets, dz, z);
      UrlsAppend(base, done, plane, query);
      ConcatAssoc([], Urls(base, done, query), Urls(base, plane, query));
      urls := AppendPlane(urls, base, channel, tileSize, z, y0, yOffsets, x0, xOffsets);
    }
    assert zs[..slices] == zs;
  }

  // ---------------------------------------------------------------------------
  // Percentiles

  datatype IndexError = IndexError(index: int, length: nat)

  /** Python's s[i] on a list: negative indices count from the end; beyond either end is an IndexError. */
  function PyIndex(s: seq<real>, i: int): (r: Result<real, IndexError>)
    ensures r.Ok? <==> -|s| <= i < |s|
    ensures 0 <= i < |s| ==> r == Ok(s[i])
  {
    if 0 <= i < |s| then Ok(s[i])
    else if -|s| <= i < 0 then Ok(s[i + |s|])
    else Err(IndexError(i, |s|))
  }

  /** math.ceil */
  function Ceil(k: real): (c: int)
    ensures k <= c as real < k + 1.0
  {
    if k == k.Floor as real then k.Floor else k.Floor + 1
  }

  /** int() on a float: truncation toward zero. */
  function Trunc(k: real): (t: int)
    ensures k >= 0.0 ==> t == k.Floor
  {
    if k >= 0.0 then k.Floor else -((-k).Floor)
  }

  /** The interpolation step of percentile at rank k over an already sorted list. */
  function Interpolate(sorted: seq<real>, k: real): Result<real, IndexError> {
    var f, c := k.Floor, Ceil(k);
    if f == c then PyIndex(sorted, Trunc(k))
    else
      var lo :- PyIndex(sorted, f);
      var hi :- PyIndex(sorted, c);
      Ok(lo * (c as real - k) + hi * (k - f as real))
  }

  /**
   * percentile(values, p): 0.0 for no values, otherwise linear interpolation
   * at rank (n-1)·p/100 over the sorted values, with Python's list indexing.
   */
  function Percentile(values: seq<real>, p: real): (r: Result<real, IndexError>)
    ensures values == [] ==> r == Ok(0.0)
  {
    if values == [] then Ok(0.0)
    else Interpolate(SortReals(values), Rank(|values|, p))
  }

  /** (len - 1) * (p / 100.0) */
  function Rank(n: nat, p: real): real {
    (n - 1) as real * (p / 100.0)
  }

  predicate Ascending(s: seq<real>) {
    forall i, j :: 0 <= i < j < |s| ==> s[i] <= s[j]
  }

  /** The point a fraction t of the way from lo to hi. */
  function Lerp(lo: real, hi: real, t: real): real {
    lo + t * (hi - lo)
  }

  /** percentile's two weighted terms d0 + d1, with weights w = c - k and t = k - f summing to 1, are a step from lo towards hi. */
  lemma LerpForm(lo: real, hi: real, w: real, t: real)
    requires w == 1.0 - t
    ensures lo * w + hi * t == Lerp(lo, hi, t)
  {
    calc {
      lo * w + hi * t;
      lo * (1.0 - t) + hi * t;
      lo - t * lo + t * hi;
      lo + t * (hi - lo);
    }
  }

  /** A step of a fraction t in [0, 1] from lo towards hi stays between them. */
  lemma Between(lo: real, hi: real, t: real)
    requires lo <= hi && 0.0 <= t <= 1.0
    ensures lo <= Lerp(lo, hi, t) <= hi
  {
    LerpMonotone(lo, hi, 0.0, t);
    LerpMonotone(lo, hi, t, 1.0);
  }

  /** The rank (n-1)·p/100 of a percentile in [0, 100] falls inside the list. */
  lemma RankInRange(n: nat, p: real)
    requires n >= 1 && 0.0 <= p <= 100.0
    ensures 0.0 <= Rank(n, p) <= (n - 1) as real
    ensures 0 <= Rank(n, p).Floor <= Ceil(Rank(n, p)) <= n - 1
  {
    var m := (n - 1) as real;
    var t := p / 100.0;
    assert 0.0 <= t <= 1.0;
    assert m * t <= m * 1.0;
  }

  /**
   * Within the list, interpolation at rank k is defined and lies between the
   * neighbouring sorted values s[floor k] and s[ceil k]; at a fraction t past
   * floor k it is s[floor k] + t · (s[ceil k] - s[floor k]).
   */
  lemma InterpolateBetween(s: seq<real>, k: real)
    requires Ascending(s) && 0 <= k.Floor <= Ceil(k) < |s|
    ensures Interpolate(s, k).Ok?
    ensures s[k.Floor] <= Interpolate(s, k).value <= s[Ceil(k)]
    ensures Interpolate(s, k).value == Lerp(s[k.Floor], s[Ceil(k)], k - k.Floor as real)
  {
    var f, c := k.Floor, Ceil(k);
    if f != c {
      assert c == f + 1;
      LerpForm(s[f], s[c], c as real - k, k - f as real);
      Between(s[f], s[c], k - f as real);
    } else {
      assert k - f as real == 0.0;
    }
  }

  /** Interpolation is monotone in the rank. */
  lemma InterpolateMonotone(s: seq<real>, k1: real, k2: real)
    requires Ascending(s) && 0 <= k1.Floor && Ceil(k2) < |s| && k1 <= k2
    ensures 0 <= k2.Floor && Ceil(k1) < |s|
    ensures Interpolate(s, k1).Ok? && Interpolate(s, k2).Ok?
    ensures Interpolate(s, k1).value <= Interpolate(s, k2).value
  {
    InterpolateBetween(s, k1);
    InterpolateBetween(s, k2);
    var f1, c1, f2, c2 := k1.Floor, Ceil(k1), k2.Floor, Ceil(k2);
    if f1 == f2 && c1 == c2 {
      assert s[f1] <= s[c1] by {
        if f1 < c1 { assert s[f1] <= s[c1]; }
      }
      LerpMonotone(s[f1], s[c1], k1 - f1 as real, k2 - f1 as real);
    } else if f1 == f2 {
      assert c1 == f1;
    } else {
      assert c1 <= f2;
    }
  }

  lemma SortedValues(values: seq<real>)
    ensures Ascending(SortReals(values))
  {
    SortRealsAscending(values);
  }

  /** The percentile lies between the smallest and the largest value. */
  lemma PercentileBounded(values: seq<real>, p: real)
    requires values != [] && 0.0 <= p <= 100.0
    ensures Percentile(values, p).Ok?
    ensures exists lo, hi :: lo in values && hi in values && lo <= Percentile(values, p).value <= hi
  {
    var sorted, k := SortReals(values), Rank(|values|, p);
    RankInRange(|values|, p);
    SortedValues(values);
    InterpolateBetween(sorted, k);
    var lo, hi := sorted[k.Floor], sorted[Ceil(k)];
    assert lo in multiset(values) && hi in multiset(values);
    assert Percentile(values, p) == Interpolate(sorted, k);
    assert lo in values && hi in values && lo <= Percentile(values, p).value <= hi;
  }

  /** p = 0 gives the smallest value. */
  lemma PercentileZeroIsMin(values: seq<real>)
    requires values != []
    ensures Percentile(values, 0.0).Ok?
    ensures Percentile(values, 0.0).value in values
    ensures forall v :: v in values ==> Percentile(values, 0.0).value <= v
  {
    var sorted := SortReals(values);
    SortedValues(values);
    assert Rank(|values|, 0.0) == 0.0;
    assert sorted[0] in multiset(values);
    forall v | v in values ensures sorted[0] <= v {
      assert v in multiset(sorted);
      var m :| 0 <= m < |sorted| && sorted[m] == v;
    }
  }

  /** p = 100 gives the largest value. */
  lemma PercentileHundredIsMax(values: seq<real>)
    requires values != []
    ensures Percentile(values, 100.0).Ok?
    ensures Percentile(values, 100.0).value in values
    ensures forall v :: v in values ==> v <= Percentile(values, 100.0).value
  {
    var sorted := SortReals(values);
    var n := |values|;
    SortedValues(values);
    assert Rank(n, 100.0) == (n - 1) as real;
    assert ((n - 1) as real).Floor == n - 1;
    assert sorted[n - 1] in multiset(values);
    forall v | v in values ensures v <= sorted[n - 1] {
      assert v in multiset(sorted);
      var m :| 0 <= m < |sorted| && sorted[m] == v;
    }
  }

  /** A larger percentile is never smaller: the report's p50 <= p90 <= p99. */
  lemma PercentileMonotone(values: seq<real>, p: real, q: real)
    requires values != [] && 0.0 <= p <= q <= 100.0
    ensures Percentile(values, p).Ok? && Percentile(values, q).Ok?
    ensures Percentile(values, p).value <= Percentile(values, q).value
  {
    var n := |values|;
    RankInRange(n, p);
    RankInRange(n, q);
    RankMonotone(n, p, q);
    SortedValues(values);
    InterpolateMonotone(SortReals(values), Rank(n, p), Rank(n, q));
  }

  lemma RankMonotone(n: nat, p: real, q: real)
    requires n >= 1 && p <= q
    ensures Rank(n, p) <= Rank(n, q)
  {
    assert p / 100.0 <= q / 100.0;
    MulLeReal((n - 1) as real, p / 100.0, q / 100.0);
  }

  lemma LerpMonotone(lo: real, hi: real, t1: real, t2: real)
    requires lo <= hi && t1 <= t2
    ensures Lerp(lo, hi, t1) <= Lerp(lo, hi, t2)
  {
    var d := hi - lo;
    assert t2 * d - t1 * d == (t2 - t1) * d;
  }

  lemma MulLeReal(m: real, a: real, b: real)
    requires m >= 0.0 && a <= b
    ensures m * a <= m * b
  {
    assert m * b - m * a == m * (b - a);
  }

  // ---------------------------------------------------------------------------
  // Results

  /** One tile fetch: success flag, bytes read, latency in seconds, HTTP status and error text. */
  datatype FetchResult = FetchResult(ok: bool, bytesRead: int, latency: real, status: Option<int>, error: Option<string>)

  /** [r for r in results if r.ok] */
  function OkResults(results: seq<FetchResult>): (r: seq<FetchResult>)
    decreases |results|
  {
    if results == [] then []
    else
      var last := results[|results| - 1];
      OkResults(results[..|results| - 1]) + (if last.ok then [last] else [])
  }

  /** [r for r in results if not r.ok] */
  function ErrResults(results: seq<FetchResult>): (r: seq<FetchResult>)
    decreases |results|
  {
    if results == [] then []
    else
      var last := results[|results| - 1];
      ErrResults(results[..|results| - 1]) + (if last.ok then [] else [last])
  }

  /** The successes are the ok results and the errors the others. */
  lemma {:induction false} ResultsSplitByOk(results: seq<FetchResult>)
    ensures forall r :: r in OkResults(results) ==> r.ok
    ensures forall r :: r in ErrResults(results) ==> !r.ok
    decreases |results|
  {
    if results != [] {
      ResultsSplitByOk(results[..|results| - 1]);
    }
  }

  /** Successes and errors partition the results: every result lands in exactly one list, with its multiplicity. */
  lemma {:induction false} ResultsPartition(results: seq<FetchResult>)
    ensures multiset(OkResults(results)) + multiset(ErrResults(results)) == multiset(results)
    ensures |OkResults(results)| + |ErrResults(results)| == |results|
    decreases |results|
  {
    if results != [] {
      var init, last := results[..|results| - 1], results[|results| - 1];
      ResultsPartition(init);
      assert results == init + [last];
    }
  }

  /** sum(r.bytes_read for r in ok_results) */
  function BytesTotal(results: seq<FetchResult>): int
    decreases |results|
  {
    if results == [] then 0 else BytesTotal(results[..|results| - 1]) + results[|results| - 1].bytesRead
  }

  /** The reported latencies, in milliseconds, of the successful fetches. */
  function LatenciesMs(results: seq<FetchResult>): (r: seq<real>)
    ensures |r| == |OkResults(results)|
  {
    var ok := OkResults(results);
    seq(|ok|, i requires 0 <= i < |ok| => ok[i].latency * 1000.0)
  }

  /** The figures of the benchmark summary that do not depend on the clock. */
  datatype Summary = Summary(successes: nat, errors: nat, bytesTotal: int, p50: real, p90: real, p99: real)

  function Summarise(results: seq<FetchResult>): Result<Summary, IndexError> {
    var ok, err := OkResults(results), ErrResults(results);
    var latencies := LatenciesMs(results);
    var p50 :- Percentile(latencies, 50.0);
    var p90 :- Percentile(latencies, 90.0);
    var p99 :- Percentile(latencies, 99.0);
    Ok(Summary(|ok|, |err|, BytesTotal(ok), p50, p90, p99))
  }

  /** The summary never fails; its counts add up to the measured tiles and its percentiles are ordered. */
  lemma SummaryConsistent(results: seq<FetchResult>)
    ensures Summarise(results).Ok?
    ensures var s := Summarise(results).value;
      && s.successes + s.errors == |results|
      && s.p50 <= s.p90 <= s.p99
  {
    ResultsPartition(results);
    var latencies := LatenciesMs(results);
    if latencies != [] {
      PercentileMonotone(latencies, 50.0, 90.0);
      PercentileMonotone(latencies, 90.0, 99.0);
    }
  }

  /**
   * The warm-up and measured request lists: the first max(0, min(warmup, n))
   * URLs warm up, the rest are measured, cut to max_requests when that is positive.
   */
  function PlanRequests(urls: seq<string>, warmup: int, maxRequests: int): (r: (seq<string>, seq<string>))
    ensures |r.0| == Max(0, Min(warmup, |urls|))
    ensures r.0 + urls[|r.0|..] == urls
    ensures r.1 <= urls[|r.0|..]
    ensures maxRequests > 0 ==> |r.1| == Min(maxRequests, |urls| - |r.0|)
    ensures maxRequests <= 0 ==> r.1 == urls[|r.0|..]
  {
    var w := Max(0, Min(warmup, |urls|));
    var rest := urls[w..];
    (urls[..w], if maxRequests > 0 then rest[..Min(maxRequests, |rest|)] else rest)
  }

  /** tile_size = args.tile_size if it is positive, else the server's default. */
  function ChooseTileSize(argTileSize: int, grid: GridInfo): (ts: int)
    ensures argTileSize > 0 ==> ts == argTileSize
    ensures argTileSize <= 0 ==> ts == grid.tileSize
  {
    if argTileSize > 0 then argTileSize else grid.tileSize
  }
}
