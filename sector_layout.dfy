/** The value-level view of marshal sectors: the window each sector covers along
    the lap distance, the membership test the bulk classifier applies, and the
    points a sector collects from one pass over a lap's telemetry. The class
    that the source mutates in place lives in module MarshalSectors; this
    module states what its methods compute. */
module SectorLayout {

  /** One telemetry sample as the bulk classifier reads it: the distance along
      the lap and the car's position. */
  datatype TelemetryPoint = TelemetryPoint(distance: real, x: real, y: real)

  /** One `[x, y]` entry of a sector's bounds list. */
  datatype XY = XY(x: real, y: real)

  /** The numeric part of a sector: its 1-based number and its `[start, end)`. */
  datatype Window = Window(number: int, start: real, end: real)

  function PositionOf(p: TelemetryPoint): XY {
    XY(p.x, p.y)
  }

  /** Marker distances in lap order (equal neighbours allowed). */
  ghost predicate NonDecreasing(markers: seq<real>) {
    forall i, j :: 0 <= i < j < |markers| ==> markers[i] <= markers[j]
  }

  /** The sectors the construction loop produces from the marker distances:
      sector i+1 starts at marker i and ends where the next one starts; the
      last one ends at the track length. */
  function Layout(markers: seq<real>, trackLength: real): (ws: seq<Window>)
    ensures |ws| == |markers|
    ensures forall i :: 0 <= i < |ws| - 1 ==> ws[i].end == ws[i + 1].start
    ensures |ws| > 0 ==> ws[|ws| - 1].end == trackLength
  {
    seq(|markers|, i requires 0 <= i < |markers| =>
      Window(i + 1, markers[i], if i + 1 < |markers| then markers[i + 1] else trackLength))
  }

  /** The membership test of the bulk pass: the half-open window, plus the
      closing point `distance == end` for the last sector only. A sector other
      than the last never takes its own end; the last sector, when its start is
      not beyond its end, takes exactly the closed interval `[start, end]`. */
  predicate InSector(w: Window, isLast: bool, distance: real): (r: bool)
    ensures r && !isLast ==> distance != w.end
    ensures isLast && w.start <= w.end ==> (r <==> w.start <= distance <= w.end)
  {
    (w.start <= distance < w.end) || (isLast && distance == w.end)
  }

  /** Sector `j` of `ws` takes a point at `distance`. Nothing beyond a
      sector's end is taken, and a point before its start only when that
      sector is the last one and the point is exactly at its end. */
  predicate Member(ws: seq<Window>, j: int, distance: real): (r: bool)
    ensures r ==> 0 <= j < |ws| && distance <= ws[j].end
    ensures r && distance < ws[j].start ==> j == |ws| - 1 && distance == ws[j].end
  {
    0 <= j < |ws| && InSector(ws[j], j == |ws| - 1, distance)
  }

  /** What one bulk pass over `points` appends to sector `j`'s bounds list:
      the positions of the points it takes, in telemetry order. */
  function Collected(points: seq<TelemetryPoint>, ws: seq<Window>, j: int): (c: seq<XY>)
    ensures |c| <= |points|
  {
    if points == [] then []
    else
      var last := points[|points| - 1];
      var earlier := Collected(points[..|points| - 1], ws, j);
      if Member(ws, j, last.distance) then earlier + [PositionOf(last)] else earlier
  }

  // ---------------------------------------------------------------------------
  // Membership: where a point goes

  /** A point exactly on a shared boundary is never taken by the earlier
      sector, and is taken by the later one unless that one is empty. */
  lemma BoundaryGoesToLater(markers: seq<real>, trackLength: real, j: int)
    requires 0 < j < |markers|
    requires j + 1 < |markers| ==> markers[j] < markers[j + 1]
    requires j + 1 == |markers| ==> markers[j] <= trackLength
    ensures var ws := Layout(markers, trackLength);
      !Member(ws, j - 1, markers[j]) && Member(ws, j, markers[j])
  {
  }

  /** The index of the sector that owns `d`: the first sector, counting from
      the front, whose successor, if any, starts beyond `d`. It depends only on
      the markers; whether the last sector actually takes `d` is `Coverage`'s
      concern. */
  function OwnerFrom(markers: seq<real>, d: real, j: nat): (o: nat)
    requires j < |markers| && markers[j] <= d
    ensures j <= o < |markers| && markers[o] <= d
    ensures o + 1 < |markers| ==> d < markers[o + 1]
    decreases |markers| - j
  {
    if j + 1 == |markers| || d < markers[j + 1] then j
    else OwnerFrom(markers, d, j + 1)
  }

  /** Every distance from the first marker up to and including the track
      length is taken by some sector; no ordering of the markers is needed. */
  lemma {:induction false} Coverage(markers: seq<real>, trackLength: real, d: real)
    requires |markers| > 0 && markers[0] <= d <= trackLength
    ensures Member(Layout(markers, trackLength), OwnerFrom(markers, d, 0), d)
  {
  }

  /** With markers in lap order and the last one not beyond the track length,
      no two sectors take the same distance. */
  lemma {:induction false} AtMostOneSector(markers: seq<real>, trackLength: real, d: real, i: int, j: int)
    requires NonDecreasing(markers) && |markers| > 0 && markers[|markers| - 1] <= trackLength
    requires Member(Layout(markers, trackLength), i, d) && Member(Layout(markers, trackLength), j, d)
    ensures i == j
  {
  }

  /** With markers in lap order and the last one not beyond the track length,
      distances before the first marker or beyond the track length are taken
      by no sector. */
  lemma OutsideNoSector(markers: seq<real>, trackLength: real, d: real, j: int)
    requires NonDecreasing(markers) && |markers| > 0 && markers[|markers| - 1] <= trackLength
    requires d < markers[0] || trackLength < d
    ensures !Member(Layout(markers, trackLength), j, d)
  {
    if 0 <= j < |markers| {
      assert markers[0] <= markers[j];
    }
  }

  /** Membership in one direction and the other: with markers in lap order and
      the last one not beyond the track length, sector `j` takes `d` exactly
      when `j` is the owner of `d`. */
  lemma ExactlyOneSector(markers: seq<real>, trackLength: real, d: real, j: int)
    requires NonDecreasing(markers) && |markers| > 0 && markers[|markers| - 1] <= trackLength
    requires markers[0] <= d <= trackLength
    ensures Member(Layout(markers, trackLength), j, d) <==> j == OwnerFrom(markers, d, 0)
  {
    Coverage(markers, trackLength, d);
    if Member(Layout(markers, trackLength), j, d) {
      AtMostOneSector(markers, trackLength, d, j, OwnerFrom(markers, d, 0));
    }
  }

  // ---------------------------------------------------------------------------
  // Collection: order, provenance and growth of the bounds lists

  /** Classifying two stretches of telemetry one after the other appends what
      the first contributes and then what the second contributes. */
  lemma {:induction false} CollectedAppend(a: seq<TelemetryPoint>, b: seq<TelemetryPoint>, ws: seq<Window>, j: int)
    ensures Collected(a + b, ws, j) == Collected(a, ws, j) + Collected(b, ws, j)
    decreases |b|
  {
    if b == [] {
      assert a + b == a;
    } else {
      var b' := b[..|b| - 1];
      assert (a + b)[..|a + b| - 1] == a + b';
      CollectedAppend(a, b', ws, j);
    }
  }

  predicate StrictlyIncreasing(idx: seq<nat>) {
    forall s, t :: 0 <= s < t < |idx| ==> idx[s] < idx[t]
  }

  /** The bounds a sector collects are exactly the positions of the points it
      takes, in telemetry order: `idx` lists the indices of those points in
      increasing order, and every point the sector takes is listed. */
  lemma {:induction false} CollectedSources(points: seq<TelemetryPoint>, ws: seq<Window>, j: int)
    returns (idx: seq<nat>)
    ensures |idx| == |Collected(points, ws, j)| && StrictlyIncreasing(idx)
    ensures forall t :: 0 <= t < |idx| ==>
      idx[t] < |points| && Member(ws, j, points[idx[t]].distance) &&
      Collected(points, ws, j)[t] == PositionOf(points[idx[t]])
    ensures forall k :: 0 <= k < |points| && Member(ws, j, points[k].distance) ==> k in idx
  {
    if points == [] {
      idx := [];
    } else {
      var n := |points| - 1;
      var earlier := points[..n];
      var prev := CollectedSources(earlier, ws, j);
      var c := Collected(points, ws, j);
      var ce := Collected(earlier, ws, j);
      if Member(ws, j, points[n].distance) {
        idx := prev + [n];
        assert c == ce + [PositionOf(points[n])];
        forall t | 0 <= t < |idx|
          ensures idx[t] < |points| && Member(ws, j, points[idx[t]].distance)
          ensures c[t] == PositionOf(points[idx[t]])
        {
          if t < |prev| {
            assert points[prev[t]] == earlier[prev[t]];
          }
        }
      } else {
        idx := prev;
        assert c == ce;
        forall t | 0 <= t < |idx|
          ensures idx[t] < |points| && Member(ws, j, points[idx[t]].distance)
          ensures c[t] == PositionOf(points[idx[t]])
        {
          assert points[prev[t]] == earlier[prev[t]];
        }
      }
      forall k | 0 <= k < |points| && Member(ws, j, points[k].distance) ensures k in idx {
        if k < n {
          assert points[k] == earlier[k];
        }
      }
    }
  }

  // ---------------------------------------------------------------------------
  // Counting: no point is lost or counted twice

  /** Number of sectors among the first `n` that take `d`. */
  function Hits(ws: seq<Window>, d: real, n: nat): (h: nat)
    requires n <= |ws|
    ensures h <= n
  {
    if n == 0 then 0 else Hits(ws, d, n - 1) + (if Member(ws, n - 1, d) then 1 else 0)
  }

  /** Total number of bounds entries the first `n` sectors receive. */
  function TotalCollected(points: seq<TelemetryPoint>, ws: seq<Window>, n: nat): nat
    requires n <= |ws|
  {
    if n == 0 then 0 else TotalCollected(points, ws, n - 1) + |Collected(points, ws, n - 1)|
  }

  /** Number of points whose distance lies in `[lo, hi]`. */
  function CountInRange(points: seq<TelemetryPoint>, lo: real, hi: real): (c: nat)
    ensures c <= |points|
  {
    if points == [] then 0
    else CountInRange(points[..|points| - 1], lo, hi)
         + (if lo <= points[|points| - 1].distance <= hi then 1 else 0)
  }

  /** With a unique owner `o`, the first `n` sectors hit `d` once if they
      include `o` and not at all otherwise. */
  lemma {:induction false} HitsUpTo(ws: seq<Window>, d: real, n: nat, o: int)
    requires n <= |ws|
    requires forall j :: Member(ws, j, d) <==> j == o
    ensures Hits(ws, d, n) == if 0 <= o < n then 1 else 0
  {
    if n > 0 {
      HitsUpTo(ws, d, n - 1, o);
    }
  }

  lemma {:induction false} NoHits(ws: seq<Window>, d: real, n: nat)
    requires n <= |ws|
    requires forall j :: !Member(ws, j, d)
    ensures Hits(ws, d, n) == 0
  {
    if n > 0 {
      NoHits(ws, d, n - 1);
    }
  }

  /** Every distance in `[first marker, track length]` is taken exactly once
      over all sectors, every other distance never. */
  lemma OneHitInRange(markers: seq<real>, trackLength: real, d: real)
    requires NonDecreasing(markers) && |markers| > 0 && markers[|markers| - 1] <= trackLength
    ensures Hits(Layout(markers, trackLength), d, |markers|)
      == if markers[0] <= d <= trackLength then 1 else 0
  {
    var ws := Layout(markers, trackLength);
    if markers[0] <= d <= trackLength {
      var o := OwnerFrom(markers, d, 0);
      forall j ensures Member(ws, j, d) <==> j == o {
        ExactlyOneSector(markers, trackLength, d, j);
      }
      HitsUpTo(ws, d, |markers|, o);
    } else {
      forall j ensures !Member(ws, j, d) {
        OutsideNoSector(markers, trackLength, d, j);
      }
      NoHits(ws, d, |markers|);
    }
  }

  /** Adding one point to the stream adds to the total exactly the number of
      sectors that take it. */
  lemma {:induction false} TotalStep(points: seq<TelemetryPoint>, p: TelemetryPoint, ws: seq<Window>, n: nat)
    requires n <= |ws|
    ensures TotalCollected(points + [p], ws, n) == TotalCollected(points, ws, n) + Hits(ws, p.distance, n)
  {
    if n > 0 {
      TotalStep(points, p, ws, n - 1);
      assert (points + [p])[..|points + [p]| - 1] == points;
    }
  }

  /** With markers in lap order and the last one not beyond the track length,
      the number of bounds entries one pass appends over all sectors equals the
      number of points in `[first marker, track length]`. */
  lemma {:induction false} EachPointCollectedOnce(markers: seq<real>, trackLength: real, points: seq<TelemetryPoint>)
    requires NonDecreasing(markers) && |markers| > 0 && markers[|markers| - 1] <= trackLength
    ensures TotalCollected(points, Layout(markers, trackLength), |markers|)
      == CountInRange(points, markers[0], trackLength)
  {
    var ws := Layout(markers, trackLength);
    if points == [] {
      ZeroTotal(ws, |markers|);
    } else {
      var n := |points| - 1;
      EachPointCollectedOnce(markers, trackLength, points[..n]);
      assert points[..n] + [points[n]] == points;
      TotalStep(points[..n], points[n], ws, |markers|);
      OneHitInRange(markers, trackLength, points[n].distance);
    }
  }

  lemma {:induction false} ZeroTotal(ws: seq<Window>, n: nat)
    requires n <= |ws|
    ensures TotalCollected([], ws, n) == 0
  {
    if n > 0 {
      ZeroTotal(ws, n - 1);
    }
  }

  // ---------------------------------------------------------------------------
  // The four-sector example: markers 0, 250, 500, 750 on a 1000 m lap

  lemma FourSectorExample(a: TelemetryPoint, b: TelemetryPoint, c: TelemetryPoint)
    requires a.distance == 250.0 && b.distance == 999.0 && c.distance == 1000.0
    ensures var ws := Layout([0.0, 250.0, 500.0, 750.0], 1000.0);
      Collected([a, b, c], ws, 0) == [] &&
      Collected([a, b, c], ws, 1) == [PositionOf(a)] &&
      Collected([a, b, c], ws, 2) == [] &&
      Collected([a, b, c], ws, 3) == [PositionOf(b), PositionOf(c)]
  {
    var ws := Layout([0.0, 250.0, 500.0, 750.0], 1000.0);
    assert ws == [Window(1, 0.0, 250.0), Window(2, 250.0, 500.0),
                  Window(3, 500.0, 750.0), Window(4, 750.0, 1000.0)];
    assert [a, b, c][..2] == [a, b] && [a, b][..1] == [a] && [a][..0] == [];
    forall k | 0 <= k < 4
      ensures Collected([a], ws, k) == if k == 1 then [PositionOf(a)] else []
      ensures Collected([a, b], ws, k) == Collected([a], ws, k) + if k == 3 then [PositionOf(b)] else []
      ensures Collected([a, b, c], ws, k) == Collected([a, b], ws, k) + if k == 3 then [PositionOf(c)] else []
    {
    }
  }
}
