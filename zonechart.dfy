/**
 * The floor-area donut chart of the product page: each zone with a positive
 * ratio gets a slice of `ratio / totalRatio * 360` degrees, laid out from a
 * running start angle. A slice of 360 degrees or more is drawn as a full
 * circle instead of an arc. Only the angle bookkeeping is modelled; the
 * arc end points (cos/sin) and the SVG path text are not.
 */
module ZoneChart {

  /** One named sub-space of a unit: its area as displayed and its share used for the chart. */
  datatype Zone = Zone(name: string, area: string, ratio: real)

  /** How a slice is drawn: a full circle (two half arcs) or a sector with its large-arc flag. */
  datatype Arc = FullCircle | Sector(largeArc: int)

  /** A slice as the chart produces it; `index` is the zone's position, used for hovering. */
  datatype Slice = Slice(index: nat, data: Zone, color: string, startAngle: real, sliceAngle: real, arc: Arc)

  /** The cyclic colour palette of the chart. */
  const Palette: seq<string> := ["#19a1e6", "#3b82f6", "#6366f1", "#8b5cf6", "#a855f7", "#d946ef"]

  function ColorOf(i: nat): string {
    Palette[i % |Palette|]
  }

  /** `zones.reduce((acc, zone) => acc + zone.ratio, 0)`: the ratios added from left to right. */
  function TotalRatio(zones: seq<Zone>): real
    decreases |zones|
  {
    if zones == [] then 0.0 else TotalRatio(zones[..|zones| - 1]) + zones[|zones| - 1].ratio
  }

  /** The ratios of `zones[i..]`, added from the right; equal to the left fold over reals. */
  function SumFrom(zones: seq<Zone>, i: nat): real
    requires i <= |zones|
    decreases |zones| - i
  {
    if i == |zones| then 0.0 else zones[i].ratio + SumFrom(zones, i + 1)
  }

  /**
   * A zone's slice is a full circle when its angle reaches 360. With a zero
   * total the quotient is +Infinity in JavaScript, which also reaches 360.
   */
  predicate IsFull(ratio: real, total: real) {
    total == 0.0 || ratio / total * 360.0 >= 360.0
  }

  function SliceAngle(ratio: real, total: real): real
    requires total != 0.0
  {
    ratio / total * 360.0
  }

  function LargeArcFlag(angle: real): int {
    if angle > 180.0 then 1 else 0
  }

  /** The slice of zone `i` when the running start angle is `angle`. */
  function SliceAt(zones: seq<Zone>, total: real, i: nat, angle: real): Slice
    requires i < |zones|
  {
    if IsFull(zones[i].ratio, total) then
      Slice(i, zones[i], ColorOf(i), 0.0, 360.0, FullCircle)
    else
      var a := SliceAngle(zones[i].ratio, total);
      Slice(i, zones[i], ColorOf(i), angle, a, Sector(LargeArcFlag(a)))
  }

  /** How far a slice moves the running angle: full circles return early and do not move it. */
  function Advance(s: Slice): real {
    if s.arc.Sector? then s.sliceAngle else 0.0
  }

  /** The slices of `zones[i..]` starting at running angle `angle`; zones with ratio <= 0 are dropped. */
  function LayoutFrom(zones: seq<Zone>, total: real, i: nat, angle: real): seq<Slice>
    requires i <= |zones|
    decreases |zones| - i
  {
    if i == |zones| then []
    else if zones[i].ratio <= 0.0 then LayoutFrom(zones, total, i + 1, angle)
    else
      var s := SliceAt(zones, total, i, angle);
      [s] + LayoutFrom(zones, total, i + 1, angle + Advance(s))
  }

  /** The chart's slices, as the component's `slices` memo defines them. */
  function Layout(zones: seq<Zone>): seq<Slice> {
    LayoutFrom(zones, TotalRatio(zones), 0, 0.0)
  }

  /** The `slices` computation: one pass over the zones with a running angle. */
  method ComputeSlices(zones: seq<Zone>) returns (slices: seq<Slice>)
    ensures slices == Layout(zones)
  {
    var total := TotalRatio(zones);
    var currentAngle := 0.0;
    slices := [];
    var i := 0;
    while i < |zones|
      invariant 0 <= i <= |zones|
      invariant slices + LayoutFrom(zones, total, i, currentAngle) == Layout(zones)
    {
      var zone := zones[i];
      if zone.ratio > 0.0 {
        ghost var angle0 := currentAngle;
        var slice;
        // A zero total makes the quotient +Infinity, which is >= 360.
        if total == 0.0 || (zone.ratio / total) * 360.0 >= 360.0 {
          slice := Slice(i, zone, Palette[i % |Palette|], 0.0, 360.0, FullCircle);
        } else {
          var sliceAngle := (zone.ratio / total) * 360.0;
          var largeArc := if sliceAngle > 180.0 then 1 else 0;
          slice := Slice(i, zone, Palette[i % |Palette|], currentAngle, sliceAngle, Sector(largeArc));
          currentAngle := currentAngle + sliceAngle;
        }
        assert slice == SliceAt(zones, total, i, angle0);
        assert LayoutFrom(zones, total, i, angle0) == [slice] + LayoutFrom(zones, total, i + 1, currentAngle);
        assert (slices + [slice]) + LayoutFrom(zones, total, i + 1, currentAngle)
            == slices + ([slice] + LayoutFrom(zones, total, i + 1, currentAngle));
        slices := slices + [slice];
      }
      i := i + 1;
    }
  }

  /** The zones that get a slice, by position, in input order. */
  function KeptIndices(zones: seq<Zone>, i: nat): (r: seq<nat>)
    requires i <= |zones|
    ensures forall k :: 0 <= k < |r| ==> i <= r[k] < |zones| && zones[r[k]].ratio > 0.0
    ensures forall k, l :: 0 <= k < l < |r| ==> r[k] < r[l]
    ensures forall j :: i <= j < |zones| && zones[j].ratio > 0.0 ==> j in r
    decreases |zones| - i
  {
    if i == |zones| then []
    else if zones[i].ratio > 0.0 then [i] + KeptIndices(zones, i + 1)
    else KeptIndices(zones, i + 1)
  }

  /**
   * What a slice says about its zone: it points back to a zone with a
   * positive ratio, carries that zone and the palette colour of its
   * position, and is either the full circle (start 0, 360 degrees) or a
   * sector of `ratio / total * 360` degrees whose large-arc flag is set
   * when that exceeds 180.
   */
  predicate SliceOfZone(zones: seq<Zone>, total: real, s: Slice) {
    && s.index < |zones|
    && zones[s.index].ratio > 0.0
    && s.data == zones[s.index]
    && s.color == ColorOf(s.index)
    && if IsFull(s.data.ratio, total) then
         s.arc == FullCircle && s.startAngle == 0.0 && s.sliceAngle == 360.0
       else
         total != 0.0 && s.sliceAngle == SliceAngle(s.data.ratio, total) && s.arc == Sector(LargeArcFlag(s.sliceAngle))
  }

  /** The `k`-th slice belongs to zone `kept[k]`, for every `k`. */
  predicate SlicesMatch(zones: seq<Zone>, total: real, slices: seq<Slice>, kept: seq<nat>) {
    && |slices| == |kept|
    && forall k :: 0 <= k < |slices| ==> slices[k].index == kept[k] && SliceOfZone(zones, total, slices[k])
  }

  lemma {:induction false} LayoutFromShape(zones: seq<Zone>, total: real, i: nat, angle: real)
    requires i <= |zones|
    ensures SlicesMatch(zones, total, LayoutFrom(zones, total, i, angle), KeptIndices(zones, i))
    decreases |zones| - i
  {
    if i < |zones| {
      if zones[i].ratio <= 0.0 {
        LayoutFromShape(zones, total, i + 1, angle);
      } else {
        var s := SliceAt(zones, total, i, angle);
        var next := angle + Advance(s);
        LayoutFromShape(zones, total, i + 1, next);
        SliceAtIsOfZone(zones, total, i, angle);
        ShapeOfCons(zones, total, s, LayoutFrom(zones, total, i + 1, next), i, KeptIndices(zones, i + 1));
        assert LayoutFrom(zones, total, i, angle) == [s] + LayoutFrom(zones, total, i + 1, next);
        assert KeptIndices(zones, i) == [i] + KeptIndices(zones, i + 1);
      }
    }
  }

  /** Putting a slice of zone `i` in front of slices that match `kept` matches `[i] + kept`. */
  lemma {:induction false} ShapeOfCons(zones: seq<Zone>, total: real, s: Slice, rest: seq<Slice>, i: nat, kept: seq<nat>)
    requires s.index == i && SliceOfZone(zones, total, s)
    requires SlicesMatch(zones, total, rest, kept)
    ensures SlicesMatch(zones, total, [s] + rest, [i] + kept)
  {
    forall k | 0 <= k < |[s] + rest|
      ensures ([s] + rest)[k].index == ([i] + kept)[k] && SliceOfZone(zones, total, ([s] + rest)[k])
    {
      if k > 0 {
        assert ([s] + rest)[k] == rest[k - 1];
        assert ([i] + kept)[k] == kept[k - 1];
      }
    }
  }

  lemma SliceAtIsOfZone(zones: seq<Zone>, total: real, i: nat, angle: real)
    requires i < |zones| && zones[i].ratio > 0.0
    ensures SliceAt(zones, total, i, angle).index == i
    ensures SliceOfZone(zones, total, SliceAt(zones, total, i, angle))
  {
  }

  /**
   * One slice per zone with a positive ratio, in input order: the k-th slice
   * belongs to the k-th such zone, keeps its position as `index`, the zone
   * itself as its data and `Palette[index % 6]` as its colour.
   */
  lemma {:induction false} SlicesFollowZones(zones: seq<Zone>)
    ensures |Layout(zones)| == |KeptIndices(zones, 0)|
    ensures forall k :: 0 <= k < |Layout(zones)| ==>
      Layout(zones)[k].index == KeptIndices(zones, 0)[k] &&
      SliceOfZone(zones, TotalRatio(zones), Layout(zones)[k])
  {
    LayoutFromShape(zones, TotalRatio(zones), 0, 0.0);
  }

  /** Without a zone of positive ratio (in particular for no zones at all) there is no slice. */
  lemma {:induction false} NoPositiveZoneNoSlices(zones: seq<Zone>)
    requires forall i :: 0 <= i < |zones| ==> zones[i].ratio <= 0.0
    ensures Layout(zones) == []
  {
    SkipNonPositive(zones, TotalRatio(zones), 0, |zones|, 0.0);
  }

  /** The running angle swept by `slices`: the sum of the sector angles. */
  function Swept(slices: seq<Slice>): real
    decreases |slices|
  {
    if slices == [] then 0.0 else Advance(slices[0]) + Swept(slices[1..])
  }

  /** The sum of all slice angles, full circles included. */
  function AngleSum(slices: seq<Slice>): real
    decreases |slices|
  {
    if slices == [] then 0.0 else slices[0].sliceAngle + AngleSum(slices[1..])
  }

  lemma {:induction false} StartAngleFrom(zones: seq<Zone>, total: real, i: nat, angle: real, k: nat)
    requires i <= |zones| && k < |LayoutFrom(zones, total, i, angle)|
    requires LayoutFrom(zones, total, i, angle)[k].arc.Sector?
    ensures LayoutFrom(zones, total, i, angle)[k].startAngle == angle + Swept(LayoutFrom(zones, total, i, angle)[..k])
    decreases |zones| - i
  {
    if zones[i].ratio <= 0.0 {
      StartAngleFrom(zones, total, i + 1, angle, k);
    } else {
      var s := SliceAt(zones, total, i, angle);
      var rest := LayoutFrom(zones, total, i + 1, angle + Advance(s));
      assert LayoutFrom(zones, total, i, angle) == [s] + rest;
      if k == 0 {
        assert LayoutFrom(zones, total, i, angle)[..0] == [];
      } else {
        StartAngleFrom(zones, total, i + 1, angle + Advance(s), k - 1);
        assert ([s] + rest)[..k] == [s] + rest[..k - 1];
        assert ([s] + rest[..k - 1])[1..] == rest[..k - 1];
      }
    }
  }

  /**
   * Each sector starts where the sectors before it end: its start angle is
   * the sum of the angles of the earlier emitted sectors. Dropped zones and
   * full circles do not move the running angle.
   */
  lemma {:induction false} StartAngleIsSweptSoFar(zones: seq<Zone>, k: nat)
    requires k < |Layout(zones)| && Layout(zones)[k].arc.Sector?
    ensures Layout(zones)[k].startAngle == Swept(Layout(zones)[..k])
  {
    StartAngleFrom(zones, TotalRatio(zones), 0, 0.0, k);
  }

  /** Over reals the left fold and the right sum agree: prefix total plus suffix sum is the whole. */
  lemma {:induction false} PrefixPlusSuffix(zones: seq<Zone>, n: nat)
    requires n <= |zones|
    ensures TotalRatio(zones[..n]) + SumFrom(zones, n) == SumFrom(zones, 0)
    decreases n
  {
    if n > 0 {
      PrefixPlusSuffix(zones, n - 1);
      assert zones[..n][..n - 1] == zones[..n - 1];
    }
  }

  lemma {:induction false} TotalIsSum(zones: seq<Zone>)
    ensures TotalRatio(zones) == SumFrom(zones, 0)
  {
    PrefixPlusSuffix(zones, |zones|);
    assert zones[..|zones|] == zones;
  }

  /** With non-negative ratios, two distinct zones together never exceed the sum. */
  lemma {:induction false} SumCoversPair(zones: seq<Zone>, i: nat, j: nat, k: nat)
    requires i <= j < k < |zones|
    requires forall x :: i <= x < |zones| ==> zones[x].ratio >= 0.0
    ensures SumFrom(zones, i) >= zones[j].ratio + zones[k].ratio
    decreases |zones| - i
  {
    if i < j {
      SumCoversPair(zones, i + 1, j, k);
    } else {
      SumCoversOne(zones, i + 1, k);
    }
  }

  lemma {:induction false} SumCoversOne(zones: seq<Zone>, i: nat, k: nat)
    requires i <= k < |zones|
    requires forall x :: i <= x < |zones| ==> zones[x].ratio >= 0.0
    ensures SumFrom(zones, i) >= zones[k].ratio
    decreases |zones| - i
  {
    if i < k {
      SumCoversOne(zones, i + 1, k);
    } else {
      SumNonNegative(zones, i + 1);
    }
  }

  lemma {:induction false} SumNonNegative(zones: seq<Zone>, i: nat)
    requires i <= |zones|
    requires forall x :: i <= x < |zones| ==> zones[x].ratio >= 0.0
    ensures SumFrom(zones, i) >= 0.0
    decreases |zones| - i
  {
    if i < |zones| {
      SumNonNegative(zones, i + 1);
    }
  }

  /** When no zone but `j` is positive, the sum is at most `j`'s ratio (at most 0 if `j` is outside). */
  lemma {:induction false} SumAtMostSole(zones: seq<Zone>, i: nat, j: nat)
    requires i <= |zones|
    requires forall x :: i <= x < |zones| && x != j ==> zones[x].ratio <= 0.0
    ensures SumFrom(zones, i) <= if i <= j < |zones| then zones[j].ratio else 0.0
    decreases |zones| - i
  {
    if i < |zones| {
      SumAtMostSole(zones, i + 1, j);
    }
  }

  lemma DivisionDistributes(a: real, b: real, t: real)
    requires t != 0.0
    ensures (a + b) / t * 360.0 == a / t * 360.0 + b / t * 360.0
  {
    assert (a + b) / t == a / t + b / t;
  }

  lemma {:induction false} SectorSum(zones: seq<Zone>, total: real, i: nat, angle: real)
    requires i <= |zones| && total != 0.0
    requires forall x :: i <= x < |zones| ==> zones[x].ratio >= 0.0
    requires forall x :: i <= x < |zones| && zones[x].ratio > 0.0 ==> !IsFull(zones[x].ratio, total)
    ensures AngleSum(LayoutFrom(zones, total, i, angle)) == SumFrom(zones, i) / total * 360.0
    decreases |zones| - i
  {
    if i < |zones| {
      if zones[i].ratio <= 0.0 {
        SectorSum(zones, total, i + 1, angle);
      } else {
        SectorSum(zones, total, i + 1, angle + Advance(SliceAt(zones, total, i, angle)));
        SectorSumStep(zones, total, i, angle);
      }
    }
  }

  /** One step of `SectorSum`: a sector in front adds its angle to the angles of the rest. */
  lemma {:induction false} SectorSumStep(zones: seq<Zone>, total: real, i: nat, angle: real)
    requires i < |zones| && total != 0.0 && zones[i].ratio > 0.0 && !IsFull(zones[i].ratio, total)
    requires AngleSum(LayoutFrom(zones, total, i + 1, angle + Advance(SliceAt(zones, total, i, angle)))) ==
             SumFrom(zones, i + 1) / total * 360.0
    ensures AngleSum(LayoutFrom(zones, total, i, angle)) == SumFrom(zones, i) / total * 360.0
  {
    var s := SliceAt(zones, total, i, angle);
    var rest := LayoutFrom(zones, total, i + 1, angle + Advance(s));
    assert LayoutFrom(zones, total, i, angle) == [s] + rest;
    SectorAngle(zones, total, i, angle);
    AngleSumCons(s, rest);
    AddSector(zones[i].ratio, SumFrom(zones, i + 1), total, AngleSum(rest));
  }

  /** A zone short of the full circle gets `ratio / total * 360` degrees. */
  lemma SectorAngle(zones: seq<Zone>, total: real, i: nat, angle: real)
    requires i < |zones| && total != 0.0 && !IsFull(zones[i].ratio, total)
    ensures SliceAt(zones, total, i, angle).sliceAngle == zones[i].ratio / total * 360.0
  {
  }

  lemma AddSector(r: real, rest: real, total: real, restAngle: real)
    requires total != 0.0 && restAngle == rest / total * 360.0
    ensures r / total * 360.0 + restAngle == (r + rest) / total * 360.0
  {
    DivisionDistributes(r, rest, total);
  }

  lemma AngleSumCons(s: Slice, rest: seq<Slice>)
    ensures AngleSum([s] + rest) == s.sliceAngle + AngleSum(rest)
  {
    assert ([s] + rest)[1..] == rest;
  }

  lemma BelowTotalIsNotFull(r: real, total: real)
    requires 0.0 < total && r < total
    ensures !IsFull(r, total)
  {
  }

  lemma AtLeastTotalIsFull(r: real, total: real)
    requires 0.0 <= total <= r
    ensures IsFull(r, total)
  {
  }

  /** Zones before `j` that are not positive are skipped without moving the running angle. */
  lemma {:induction false} SkipNonPositive(zones: seq<Zone>, total: real, i: nat, j: nat, angle: real)
    requires i <= j <= |zones|
    requires forall x :: i <= x < j ==> zones[x].ratio <= 0.0
    ensures LayoutFrom(zones, total, i, angle) == LayoutFrom(zones, total, j, angle)
    decreases j - i
  {
    if i < j {
      SkipNonPositive(zones, total, i + 1, j, angle);
    }
  }

  /**
   * A zone that is the only one with a positive ratio takes the full-circle
   * branch: the chart is that one slice, starting at 0 and spanning 360.
   * (A non-negative total is needed: a negative one makes its angle negative.)
   */
  lemma {:induction false} SolePositiveZoneIsFullCircle(zones: seq<Zone>, j: nat)
    requires j < |zones| && zones[j].ratio > 0.0
    requires forall i :: 0 <= i < |zones| && i != j ==> zones[i].ratio <= 0.0
    requires TotalRatio(zones) >= 0.0
    ensures Layout(zones) == [Slice(j, zones[j], ColorOf(j), 0.0, 360.0, FullCircle)]
  {
    var total := TotalRatio(zones);
    TotalIsSum(zones);
    SumAtMostSole(zones, 0, j);
    AtLeastTotalIsFull(zones[j].ratio, total);
    SkipNonPositive(zones, total, 0, j, 0.0);
    var full := SliceAt(zones, total, j, 0.0);
    assert full == Slice(j, zones[j], ColorOf(j), 0.0, 360.0, FullCircle);
    assert LayoutFrom(zones, total, j, 0.0) == [full] + LayoutFrom(zones, total, j + 1, 0.0);
    SkipNonPositive(zones, total, j + 1, |zones|, 0.0);
    assert LayoutFrom(zones, total, |zones|, 0.0) == [];
  }

  /**
   * With non-negative ratios and a positive total the slice angles add up to
   * exactly 360 degrees: a sole positive zone is the full circle, and with two
   * or more no zone reaches the total, so all are sectors.
   */
  lemma {:induction false} AnglesSumTo360(zones: seq<Zone>)
    requires forall i :: 0 <= i < |zones| ==> zones[i].ratio >= 0.0
    requires TotalRatio(zones) > 0.0
    ensures AngleSum(Layout(zones)) == 360.0
  {
    var j := SomePositiveZone(zones);
    var found, k := OtherPositiveFrom(zones, j, 0);
    if !found {
      SolePositiveZoneIsFullCircle(zones, j);
    } else if j < k {
      TwoPositiveZonesSum(zones, j, k);
    } else {
      TwoPositiveZonesSum(zones, k, j);
    }
  }

  /** A positive total has a zone with a positive ratio. */
  lemma {:induction false} SomePositiveZone(zones: seq<Zone>) returns (j: nat)
    requires TotalRatio(zones) > 0.0
    ensures j < |zones| && zones[j].ratio > 0.0
  {
    TotalIsSum(zones);
    j := FirstPositiveFrom(zones, 0);
  }

  lemma {:induction false} FirstPositiveFrom(zones: seq<Zone>, i: nat) returns (j: nat)
    requires i <= |zones| && SumFrom(zones, i) > 0.0
    ensures i <= j < |zones| && zones[j].ratio > 0.0
    decreases |zones| - i
  {
    if zones[i].ratio > 0.0 {
      j := i;
    } else {
      j := FirstPositiveFrom(zones, i + 1);
    }
  }

  /** Finds a positive zone other than `j` at or after `i`, or shows there is none. */
  lemma {:induction false} OtherPositiveFrom(zones: seq<Zone>, j: nat, i: nat) returns (found: bool, k: nat)
    requires i <= |zones|
    ensures found ==> i <= k < |zones| && k != j && zones[k].ratio > 0.0
    ensures !found ==> forall x :: i <= x < |zones| && x != j ==> zones[x].ratio <= 0.0
    decreases |zones| - i
  {
    if i == |zones| {
      found, k := false, 0;
    } else if i != j && zones[i].ratio > 0.0 {
      found, k := true, i;
    } else {
      found, k := OtherPositiveFrom(zones, j, i + 1);
    }
  }

  /** With two positive zones no zone reaches the total, so every slice is a sector and they fill 360. */
  lemma {:induction false} TwoPositiveZonesSum(zones: seq<Zone>, j: nat, k: nat)
    requires forall i :: 0 <= i < |zones| ==> zones[i].ratio >= 0.0
    requires TotalRatio(zones) > 0.0
    requires 0 <= j < k < |zones| && zones[j].ratio > 0.0 && zones[k].ratio > 0.0
    ensures AngleSum(Layout(zones)) == 360.0
  {
    var total := TotalRatio(zones);
    NoFullCircle(zones, j, k);
    SectorSum(zones, total, 0, 0.0);
    TotalIsSum(zones);
    WholeIs360(SumFrom(zones, 0), total);
  }

  lemma WholeIs360(sum: real, total: real)
    requires total != 0.0 && sum == total
    ensures sum / total * 360.0 == 360.0
  {
  }

  lemma {:induction false} NoFullCircle(zones: seq<Zone>, j: nat, k: nat)
    requires forall i :: 0 <= i < |zones| ==> zones[i].ratio >= 0.0
    requires TotalRatio(zones) > 0.0
    requires 0 <= j < k < |zones| && zones[j].ratio > 0.0 && zones[k].ratio > 0.0
    ensures forall x :: 0 <= x < |zones| && zones[x].ratio > 0.0 ==> !IsFull(zones[x].ratio, TotalRatio(zones))
  {
    forall x | 0 <= x < |zones| && zones[x].ratio > 0.0
      ensures !IsFull(zones[x].ratio, TotalRatio(zones))
    {
      NoZoneReachesTotal(zones, j, k, x);
    }
  }

  lemma {:induction false} NoZoneReachesTotal(zones: seq<Zone>, j: nat, k: nat, x: nat)
    requires forall i :: 0 <= i < |zones| ==> zones[i].ratio >= 0.0
    requires TotalRatio(zones) > 0.0
    requires 0 <= j < k < |zones| && zones[j].ratio > 0.0 && zones[k].ratio > 0.0
    requires x < |zones| && zones[x].ratio > 0.0
    ensures !IsFull(zones[x].ratio, TotalRatio(zones))
  {
    TotalIsSum(zones);
    if x < k {
      SumCoversPair(zones, 0, x, k);
    } else if x > k {
      SumCoversPair(zones, 0, k, x);
    } else {
      SumCoversPair(zones, 0, j, x);
    }
    BelowTotalIsNotFull(zones[x].ratio, TotalRatio(zones));
  }

  lemma OverHalfIffOver180(r: real, total: real)
    requires total > 0.0
    ensures SliceAngle(r, total) > 180.0 <==> r > total / 2.0
  {
  }

  /**
   * For a positive total, a sector's large-arc flag is set exactly when its
   * angle exceeds 180 degrees, which is exactly when its zone holds more
   * than half of the total.
   */
  lemma {:induction false} LargeArcIffMajority(zones: seq<Zone>, k: nat)
    requires TotalRatio(zones) > 0.0
    requires k < |Layout(zones)| && Layout(zones)[k].arc.Sector?
    ensures Layout(zones)[k].arc.largeArc == 1 <==> Layout(zones)[k].sliceAngle > 180.0
    ensures Layout(zones)[k].sliceAngle > 180.0 <==> Layout(zones)[k].data.ratio > TotalRatio(zones) / 2.0
  {
    SlicesFollowZones(zones);
    OverHalfIffOver180(Layout(zones)[k].data.ratio, TotalRatio(zones));
  }
}
