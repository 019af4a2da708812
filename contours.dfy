/** The contour stage of the motion detector: which foreground contours are
    kept, how kept contours are grouped by proximity, and what each group
    contributes to the frame's motion total. The OpenCV measurements of a
    contour (area, bounding box, hull area, centroid, the perimeter and
    circularity tests) arrive as the fields of a record. */
module Contours {

  /** `motion_threshold`, the minimum area of a kept contour. */
  const MotionThreshold: real := 7000.0
  /** A group survives only if its summed area exceeds this. */
  const GroupMinArea: real := MotionThreshold * 0.5
  /** `max_distance` of `group_nearby_contours`, squared. */
  const MaxDistanceSq: int := 150 * 150

  /** One external contour: `cx`, `cy` its centroid `int(m10/m00)`,
      `int(m01/m00)`; `m00` its zeroth moment; `area` its `contourArea`;
      `w`, `h` its bounding box; `hullArea` the area of its convex hull;
      `perimeterOk` whether its closed arc length is positive and
      `circularityOk` whether 4*pi*area/perimeter^2 exceeds 0.3. */
  datatype Contour = Contour(
    cx: int, cy: int, m00: real, area: real,
    w: int, h: int, hullArea: real,
    perimeterOk: bool, circularityOk: bool)

  function AspectRatio(c: Contour): real {
    if c.h > 0 then c.w as real / c.h as real else 0.0
  }

  function Solidity(c: Contour): real {
    if c.hullArea > 0.0 then c.area / c.hullArea else 0.0
  }

  /** The validity tests of the contour filter, in the source's order. */
  predicate IsValid(c: Contour) {
    && c.area > MotionThreshold
    && 0.3 < AspectRatio(c) < 3.0
    && Solidity(c) > 0.5
    && c.perimeterOk
    && c.circularityOk
  }

  /** `M["m00"] != 0`: the contour has a centroid. */
  predicate HasCentroid(c: Contour) {
    c.m00 != 0.0
  }

  /** The elements of `s` that satisfy `keep`, in their order in `s`. */
  function Filter<T(!new)>(s: seq<T>, keep: T -> bool): (r: seq<T>)
    ensures |r| <= |s|
    ensures forall x :: x in r <==> x in s && keep(x)
  {
    if s == [] then []
    else Filter(s[..|s| - 1], keep) + (if keep(s[|s| - 1]) then [s[|s| - 1]] else [])
  }

  /** Filtering commutes with concatenation: kept elements keep their order. */
  lemma {:induction false} FilterAppend<T(!new)>(s: seq<T>, t: seq<T>, keep: T -> bool)
    ensures Filter(s + t, keep) == Filter(s, keep) + Filter(t, keep)
    decreases |t|
  {
    if t == [] {
      assert s + t == s;
    } else {
      var t' := t[..|t| - 1];
      assert (s + t)[..|s + t| - 1] == s + t';
      FilterAppend(s, t', keep);
    }
  }

  /** The validity test written without division: what the filter keeps. */
  lemma ValidMeans(c: Contour)
    ensures IsValid(c) <==>
      && c.area > 7000.0
      && c.h > 0 && 3 * c.h < 10 * c.w && c.w < 3 * c.h
      && c.hullArea > 0.0 && 2.0 * c.area > c.hullArea
      && c.perimeterOk && c.circularityOk
  {
    if c.h > 0 {
      QuotientAbove(c.w as real, c.h as real, 0.3);
      QuotientBelow(c.w as real, c.h as real, 3.0);
    }
    if c.hullArea > 0.0 {
      QuotientAbove(c.area, c.hullArea, 0.5);
    }
  }

  lemma MulPositive(a: real, b: real)
    requires a > 0.0 && b > 0.0
    ensures a * b > 0.0
  {
  }

  lemma QuotientAbove(x: real, y: real, k: real)
    requires y > 0.0
    ensures x / y > k <==> x > k * y
  {
    var q := x / y;
    assert q * y == x;
    assert x - k * y == (q - k) * y;
    if q > k { MulPositive(q - k, y); }
  }

  lemma QuotientBelow(x: real, y: real, k: real)
    requires y > 0.0
    ensures x / y < k <==> x < k * y
  {
    var q := x / y;
    assert q * y == x;
    assert k * y - x == (k - q) * y;
    if q < k { MulPositive(k - q, y); }
  }

  /** The filter loop: appends each contour that passes `keep` to `kept`. */
  method Select<T(!new)>(s: seq<T>, keep: T -> bool) returns (kept: seq<T>)
    ensures kept == Filter(s, keep)
  {
    kept := [];
    var i := 0;
    while i < |s|
      invariant 0 <= i <= |s|
      invariant kept == Filter(s[..i], keep)
    {
      assert s[..i + 1][..i] == s[..i];
      if keep(s[i]) {
        kept := kept + [s[i]];
      }
      i := i + 1;
    }
    assert s[..|s|] == s;
  }

  /** The contour filter of the main loop. */
  method FilterValid(contours: seq<Contour>) returns (valid: seq<Contour>)
    ensures forall c :: c in valid <==> c in contours && IsValid(c)
    ensures valid == Filter(contours, IsValid)
  {
    valid := Select(contours, IsValid);
  }

  // ---------------------------------------------------------------------
  // Greedy proximity grouping (`group_nearby_contours`)

  function DistanceSq(a: Contour, b: Contour): int {
    (a.cx - b.cx) * (a.cx - b.cx) + (a.cy - b.cy) * (a.cy - b.cy)
  }

  /** `sqrt(dx^2 + dy^2) <= 150`, compared on squares. */
  predicate Near(a: Contour, b: Contour) {
    DistanceSq(a, b) <= MaxDistanceSq
  }

  /** Summed `contourArea` of a group. */
  function Area(g: seq<Contour>): real {
    if g == [] then 0.0 else Area(g[..|g| - 1]) + g[|g| - 1].area
  }

  /** The contours an index group stands for. */
  function Resolve(cs: seq<Contour>, g: seq<nat>): (r: seq<Contour>)
    requires forall m :: 0 <= m < |g| ==> g[m] < |cs|
    ensures |r| == |g| && forall m :: 0 <= m < |g| ==> r[m] == cs[g[m]]
  {
    seq(|g|, m requires 0 <= m < |g| => cs[g[m]])
  }

  predicate Increasing(g: seq<nat>) {
    forall m, m' :: 0 <= m < m' < |g| ==> g[m] < g[m']
  }

  /** The indices j with seed < j < k that no earlier group has claimed and
      that lie within reach of the seed: the inner loop's additions after
      it has looked at the indices below k. */
  function Members(cs: seq<Contour>, seed: nat, used: set<nat>, k: nat): seq<nat>
    requires seed < k <= |cs|
    decreases k
  {
    if k == seed + 1 then []
    else
      var r := Members(cs, seed, used, k - 1);
      if k - 1 !in used && Near(cs[seed], cs[k - 1]) then r + [k - 1] else r
  }

  /** The members are increasing, lie strictly between the seed and k, and
      are exactly the unclaimed indices there within reach of the seed. */
  lemma {:induction false} MembersSpec(cs: seq<Contour>, seed: nat, used: set<nat>, k: nat)
    requires seed < k <= |cs|
    ensures Increasing(Members(cs, seed, used, k))
    ensures forall m :: 0 <= m < |Members(cs, seed, used, k)| ==> seed < Members(cs, seed, used, k)[m] < k
    ensures forall j :: seed < j < k ==> (j in Members(cs, seed, used, k) <==> j !in used && Near(cs[seed], cs[j]))
    decreases k
  {
    if k > seed + 1 {
      MembersSpec(cs, seed, used, k - 1);
    }
  }

  function Elems(s: seq<nat>): set<nat> {
    set x | x in s
  }

  /** The outer loop's state: groups kept so far and indices claimed. */
  datatype Progress = Progress(groups: seq<seq<nat>>, used: set<nat>)

  /** The outer loop after it has looked at seeds 0 .. n-1. */
  function Scan(cs: seq<Contour>, n: nat): Progress
    requires n <= |cs|
  {
    if n == 0 then Progress([], {})
    else
      var p := Scan(cs, n - 1);
      var i := n - 1;
      if i in p.used then p
      else
        MembersSpec(cs, i, p.used, |cs|);
        var g := [i] + Members(cs, i, p.used, |cs|);
        Progress(if Area(Resolve(cs, g)) > GroupMinArea then p.groups + [g] else p.groups,
                 p.used + Elems(g))
  }

  /** The index groups `group_nearby_contours` returns for centred contours `cs`. */
  function GroupIndices(cs: seq<Contour>): seq<seq<nat>> {
    Scan(cs, |cs|).groups
  }

  /** What every returned group satisfies: non-empty, indices increasing
      (so its first index is its seed and lowest member), every member within
      reach of the seed, summed area above half the motion threshold. */
  predicate Retained(cs: seq<Contour>, g: seq<nat>) {
    && |g| > 0
    && (forall m :: 0 <= m < |g| ==> g[m] < |cs|)
    && Increasing(g)
    && (forall m :: 0 <= m < |g| ==> Near(cs[g[0]], cs[g[m]]))
    && Area(Resolve(cs, g)) > GroupMinArea
  }

  /** No index lies in two groups. */
  predicate Disjoint(gs: seq<seq<nat>>) {
    forall a, b, x, y :: 0 <= a < b < |gs| && 0 <= x < |gs[a]| && 0 <= y < |gs[b]| ==>
      gs[a][x] != gs[b][y]
  }

  predicate ScanInvariant(cs: seq<Contour>, p: Progress) {
    && (forall a :: 0 <= a < |p.groups| ==> Retained(cs, p.groups[a]))
    && (forall a, x :: 0 <= a < |p.groups| && 0 <= x < |p.groups[a]| ==> p.groups[a][x] in p.used)
    && Disjoint(p.groups)
  }

  /** The group a fresh seed forms holds only unclaimed indices, starts at
      the seed and increases, and stays within reach of the seed. */
  lemma NewGroupShape(cs: seq<Contour>, i: nat, used: set<nat>)
    requires i < |cs| && i !in used
    ensures var g := [i] + Members(cs, i, used, |cs|);
      && (forall m :: 0 <= m < |g| ==> g[m] < |cs| && g[m] !in used)
      && Increasing(g)
      && (forall m :: 0 <= m < |g| ==> Near(cs[g[0]], cs[g[m]]))
  {
    var ms := Members(cs, i, used, |cs|);
    MembersSpec(cs, i, used, |cs|);
    var g := [i] + ms;
    assert DistanceSq(cs[i], cs[i]) == 0;
    forall m | 0 < m < |g| ensures g[m] !in used && Near(cs[i], cs[g[m]]) {
      assert g[m] == ms[m - 1];
      assert g[m] in ms;
    }
  }

  /** Claiming more indices keeps the invariant. */
  lemma ClaimKeepsInvariant(cs: seq<Contour>, p: Progress, extra: set<nat>)
    requires ScanInvariant(cs, p)
    ensures ScanInvariant(cs, Progress(p.groups, p.used + extra))
  {
  }

  /** Appending a retained group of unclaimed indices, and claiming them,
      keeps the invariant. */
  lemma AppendKeepsInvariant(cs: seq<Contour>, p: Progress, g: seq<nat>)
    requires ScanInvariant(cs, p)
    requires Retained(cs, g)
    requires forall m :: 0 <= m < |g| ==> g[m] !in p.used
    ensures ScanInvariant(cs, Progress(p.groups + [g], p.used + Elems(g)))
  {
    var gs := p.groups + [g];
    var used := p.used + Elems(g);
    forall a | 0 <= a < |gs| ensures Retained(cs, gs[a]) {
      if a < |p.groups| { assert gs[a] == p.groups[a]; }
    }
    forall a, x | 0 <= a < |gs| && 0 <= x < |gs[a]| ensures gs[a][x] in used {
      if a < |p.groups| { assert gs[a] == p.groups[a]; } else { assert gs[a][x] in g; }
    }
    forall a, b, x, y | 0 <= a < b < |gs| && 0 <= x < |gs[a]| && 0 <= y < |gs[b]|
      ensures gs[a][x] != gs[b][y]
    {
      assert gs[a] == p.groups[a];
      if b == |p.groups| {
        assert gs[a][x] in p.used;
      } else {
        assert gs[b] == p.groups[b];
      }
    }
  }

  lemma {:induction false} ScanKeepsInvariant(cs: seq<Contour>, n: nat)
    requires n <= |cs|
    ensures ScanInvariant(cs, Scan(cs, n))
  {
    if n > 0 {
      ScanKeepsInvariant(cs, n - 1);
      var p := Scan(cs, n - 1);
      var i := n - 1;
      if i !in p.used {
        var g := [i] + Members(cs, i, p.used, |cs|);
        NewGroupShape(cs, i, p.used);
        if Area(Resolve(cs, g)) > GroupMinArea {
          assert Scan(cs, n) == Progress(p.groups + [g], p.used + Elems(g));
          AppendKeepsInvariant(cs, p, g);
        } else {
          assert Scan(cs, n) == Progress(p.groups, p.used + Elems(g));
          ClaimKeepsInvariant(cs, p, Elems(g));
        }
      }
    }
  }

  /** `group_nearby_contours`: every returned group is retained (within
      reach of its seed, area above half the threshold, seed lowest) and no
      contour lies in two groups; no contours, no groups. */
  lemma GroupingProperties(cs: seq<Contour>)
    ensures forall a :: 0 <= a < |GroupIndices(cs)| ==> Retained(cs, GroupIndices(cs)[a])
    ensures Disjoint(GroupIndices(cs))
    ensures cs == [] ==> GroupIndices(cs) == []
  {
    ScanKeepsInvariant(cs, |cs|);
  }

  /** The seed's group takes exactly the unclaimed indices after it that lie
      within reach: the greedy choice. */
  lemma SeedTakesAllUnclaimedNeighbours(cs: seq<Contour>, i: nat, j: nat)
    requires i < j < |cs|
    requires i !in Scan(cs, i).used
    ensures var p := Scan(cs, i);
      var p' := Scan(cs, i + 1);
      (j !in p.used && Near(cs[i], cs[j])) ==> j in p'.used
  {
    var p := Scan(cs, i);
    var ms := Members(cs, i, p.used, |cs|);
    MembersSpec(cs, i, p.used, |cs|);
    if j !in p.used && Near(cs[i], cs[j]) {
      assert j in ms;
      assert j in Elems([i] + ms);
    }
  }

  /** The groups of contours `group_nearby_contours` returns. */
  function ResolveAll(cs: seq<Contour>, gs: seq<seq<nat>>): (r: seq<seq<Contour>>)
    requires forall a, m :: 0 <= a < |gs| && 0 <= m < |gs[a]| ==> gs[a][m] < |cs|
    ensures |r| == |gs| && forall a :: 0 <= a < |gs| ==> r[a] == Resolve(cs, gs[a])
  {
    seq(|gs|, a requires 0 <= a < |gs| => Resolve(cs, gs[a]))
  }

  /** What a stored contour group satisfies: non-empty, every member within
      reach of the first, summed area above half the motion threshold. */
  predicate GroupOk(g: seq<Contour>) {
    && |g| > 0
    && (forall k :: 0 <= k < |g| ==> Near(g[0], g[k]))
    && Area(g) > GroupMinArea
  }

  predicate GroupsOk(gs: seq<seq<Contour>>) {
    forall a :: 0 <= a < |gs| ==> GroupOk(gs[a])
  }

  /** The contour groups `group_nearby_contours` returns for the centred
      contours `cs`. */
  function ContourGroups(cs: seq<Contour>): (r: seq<seq<Contour>>)
    ensures GroupsOk(r)
  {
    GroupingProperties(cs);
    var gs := GroupIndices(cs);
    var r := ResolveAll(cs, gs);
    assert GroupsOk(r) by {
      forall a | 0 <= a < |gs| ensures GroupOk(r[a]) {
        assert Retained(cs, gs[a]);
      }
    }
    r
  }

  /** The inner loop of the grouping: seed `i` claims every later unclaimed
      index within reach. */
  method ClaimNeighbours(centers: seq<Contour>, i: nat, used0: set<nat>) returns (group: seq<nat>, used: set<nat>)
    requires i < |centers| && i !in used0
    ensures group == [i] + Members(centers, i, used0, |centers|)
    ensures used == used0 + Elems(group)
    ensures forall m :: 0 <= m < |group| ==> group[m] < |centers|
  {
    group := [i];
    used := used0 + {i};
    var j := i + 1;
    while j < |centers|
      invariant i + 1 <= j <= |centers|
      invariant group == [i] + Members(centers, i, used0, j)
      invariant used == used0 + {i} + Elems(Members(centers, i, used0, j))
    {
      ghost var ms := Members(centers, i, used0, j);
      MembersSpec(centers, i, used0, j);
      assert j !in Elems(ms);
      if j !in used && Near(centers[i], centers[j]) {
        group := group + [j];
        used := used + {j};
        assert Elems(ms + [j]) == Elems(ms) + {j};
      }
      j := j + 1;
    }
    assert Elems(group) == {i} + Elems(Members(centers, i, used0, |centers|));
    MembersSpec(centers, i, used0, |centers|);
  }

  /** `group_nearby_contours`: the centred contours and the index groups
      kept over them. */
  method GroupNearby(contours: seq<Contour>) returns (centers: seq<Contour>, groups: seq<seq<nat>>)
    ensures centers == Filter(contours, HasCentroid)
    ensures groups == GroupIndices(centers)
  {
    if |contours| == 0 {
      return [], [];
    }
    centers := Select(contours, HasCentroid);
    groups := [];
    var used: set<nat> := {};
    var i := 0;
    while i < |centers|
      invariant 0 <= i <= |centers|
      invariant Progress(groups, used) == Scan(centers, i)
    {
      if i !in used {
        var group;
        group, used := ClaimNeighbours(centers, i, used);
        if Area(Resolve(centers, group)) > GroupMinArea {
          groups := groups + [group];
        }
      }
      i := i + 1;
    }
  }

  // ---------------------------------------------------------------------
  // Group aggregation

  /** One entry of `all_motion_points`: area-weighted centroid and area. */
  datatype MotionPoint = MotionPoint(x: int, y: int, area: real)

  function WeightedX(g: seq<Contour>): real {
    if g == [] then 0.0 else WeightedX(g[..|g| - 1]) + g[|g| - 1].cx as real * g[|g| - 1].area
  }

  function WeightedY(g: seq<Contour>): real {
    if g == [] then 0.0 else WeightedY(g[..|g| - 1]) + g[|g| - 1].cy as real * g[|g| - 1].area
  }

  /** Python's `int()` of a float: truncation toward zero. */
  function Trunc(r: real): (i: int)
    ensures r >= 0.0 ==> i as real <= r < i as real + 1.0
    ensures r < 0.0 ==> i as real - 1.0 < r <= i as real
  {
    if r >= 0.0 then r.Floor else -((-r).Floor)
  }

  /** `int(weighted / area)`. */
  function Mean(weighted: real, area: real): int
    requires area > 0.0
  {
    Trunc(weighted / area)
  }

  function Centroid(g: seq<Contour>): MotionPoint
    requires Area(g) > 0.0
  {
    MotionPoint(Mean(WeightedX(g), Area(g)), Mean(WeightedY(g), Area(g)), Area(g))
  }

  function TotalArea(gs: seq<seq<Contour>>): real {
    if gs == [] then 0.0 else TotalArea(gs[..|gs| - 1]) + Area(gs[|gs| - 1])
  }

  /** The aggregation loop: one motion point per group, the total area, and
      whether any group was seen. */
  method Aggregate(gs: seq<seq<Contour>>) returns (points: seq<MotionPoint>, totalArea: real, motionDetected: bool)
    requires forall k :: 0 <= k < |gs| ==> Area(gs[k]) > 0.0
    ensures motionDetected <==> |gs| > 0
    ensures totalArea == TotalArea(gs)
    ensures |points| == |gs| && forall k :: 0 <= k < |gs| ==> points[k] == Centroid(gs[k])
  {
    points, totalArea, motionDetected := [], 0.0, false;
    var k := 0;
    while k < |gs|
      invariant 0 <= k <= |gs|
      invariant motionDetected <==> k > 0
      invariant totalArea == TotalArea(gs[..k])
      invariant |points| == k && forall m :: 0 <= m < k ==> points[m] == Centroid(gs[m])
    {
      assert gs[..k + 1][..k] == gs[..k];
      var groupArea := Area(gs[k]);
      var wx := WeightedX(gs[k]) / groupArea;
      var wy := WeightedY(gs[k]) / groupArea;
      points := points + [MotionPoint(Trunc(wx), Trunc(wy), groupArea)];
      totalArea := totalArea + groupArea;
      motionDetected := true;
      k := k + 1;
    }
    assert gs[..|gs|] == gs;
  }

  /** Every retained group contributes more than half the motion threshold,
      so the total of k groups exceeds k times that. */
  lemma {:induction false} TotalAreaBound(gs: seq<seq<Contour>>)
    requires forall k :: 0 <= k < |gs| ==> Area(gs[k]) > GroupMinArea
    ensures TotalArea(gs) >= GroupMinArea * |gs| as real
    ensures gs != [] ==> TotalArea(gs) > GroupMinArea
  {
    if gs != [] {
      TotalAreaBound(gs[..|gs| - 1]);
    }
  }
}
