/** Marshal sectors as the source keeps them: objects whose end and bounds list
    are filled in after creation, built from the circuit's marker distances and
    then filled by one bulk pass over a lap's telemetry. The session, lap and
    circuit data the source fetches are parameters here. */
module MarshalSectors {
  import opened SectorLayout

  /** An entry of a sector's data-point list, a record of named values. The
      modelled code only ever creates this list empty. */
  type DataPoint = map<string, real>

  /** The sector's `data` dictionary as created: one key, `dataPoints`, whose
      list is empty. */
  function EmptyData(): map<string, seq<DataPoint>> {
    map["dataPoints" := []]
  }

  /** Why building the sectors fails: with no markers there is no last sector
      whose end could be set to the track length. */
  datatype BuildError = NoLastSector

  datatype Result<T> = Success(value: T) | Failure(error: BuildError)

  class MarshalSectorData {
    var start: real
    var end: real
    var sectorNumber: int
    var xyBounds: seq<XY>
    var data: map<string, seq<DataPoint>>

    /** A sector with its number and start; its end is 0 until set, its bounds
        list is empty and its data dictionary holds only an empty `dataPoints`
        list. */
    constructor (sectorNumber: int, startDistance: real)
      ensures this.sectorNumber == sectorNumber && start == startDistance && end == 0.0
      ensures xyBounds == [] && data == EmptyData()
    {
      this.sectorNumber := sectorNumber;
      start := startDistance;
      end := 0.0;
      xyBounds := [];
      data := EmptyData();
    }

    /** The sector's number and `[start, end)` as a value. */
    function AsWindow(): Window
      reads this
    {
      Window(sectorNumber, start, end)
    }

    method SetEnd(end: real)
      modifies this
      ensures this.end == end
      ensures start == old(start) && sectorNumber == old(sectorNumber)
      ensures xyBounds == old(xyBounds) && data == old(data)
    {
      this.end := end;
    }

    method AddToBounds(bounds: XY)
      modifies this
      ensures xyBounds == old(xyBounds) + [bounds]
      ensures AsWindow() == old(AsWindow()) && data == old(data)
    {
      xyBounds := xyBounds + [bounds];
    }
  }

  /** No sector object appears twice in the list. */
  ghost predicate Distinct(sectors: seq<MarshalSectorData>) {
    forall i, j :: 0 <= i < j < |sectors| ==> sectors[i] != sectors[j]
  }

  /** The windows of a list of sectors, in list order. */
  function Windows(sectors: seq<MarshalSectorData>): (ws: seq<Window>)
    reads sectors
    ensures |ws| == |sectors|
  {
    seq(|sectors|, j reads sectors requires 0 <= j < |sectors| => sectors[j].AsWindow())
  }

  /** The construction loop: one new sector per marker, numbered from 1, each
      starting at its marker; every sector after the first sets its
      predecessor's end to its own start, and the last one's end is set to the
      track length. With no markers that last step has no sector to act on. */
  method BuildSectors(markers: seq<real>, trackLength: real) returns (r: Result<seq<MarshalSectorData>>)
    ensures r.Failure? <==> markers == []
    ensures r.Success? ==>
      var ss := r.value;
      Distinct(ss) && (forall s :: s in ss ==> fresh(s)) &&
      |ss| == |markers| &&
      (forall i :: 0 <= i < |ss| ==> ss[i].sectorNumber == i + 1 && ss[i].start == markers[i]) &&
      (forall i :: 0 <= i < |ss| - 1 ==> ss[i].end == ss[i + 1].start) &&
      ss[|ss| - 1].end == trackLength &&
      (forall s :: s in ss ==> s.xyBounds == [] && s.data == EmptyData())
    ensures r.Success? ==> Windows(r.value) == Layout(markers, trackLength)
  {
    var sectors: seq<MarshalSectorData> := [];
    var counter := 1;
    var idx := 0;
    while idx < |markers|
      invariant 0 <= idx <= |markers| && counter == idx + 1 && |sectors| == idx
      invariant Distinct(sectors) && forall s :: s in sectors ==> fresh(s)
      invariant forall k :: 0 <= k < idx ==>
        sectors[k].sectorNumber == k + 1 && sectors[k].start == markers[k] &&
        sectors[k].xyBounds == [] && sectors[k].data == EmptyData()
      invariant forall k :: 0 <= k < idx - 1 ==> sectors[k].end == markers[k + 1]
    {
      var sector := new MarshalSectorData(counter, markers[idx]);
      sectors := sectors + [sector];
      if counter > 1 {
        assert sectors[counter - 2] in sectors;
        sectors[counter - 2].SetEnd(markers[idx]);
      }
      counter := counter + 1;
      idx := idx + 1;
    }
    if sectors == [] {
      return Failure(NoLastSector);
    }
    assert sectors[|sectors| - 1] in sectors;
    sectors[|sectors| - 1].SetEnd(trackLength);
    r := Success(sectors);
    assert Windows(sectors) == Layout(markers, trackLength);
  }

  /** The bulk pass: for every point, in telemetry order, and every sector, in
      list order, append the point's position when the sector takes its
      distance. A point whose distance equals the end of the last sector (the
      same object as the list's last element) is taken as well. */
  method ClassifyPoints(sectors: seq<MarshalSectorData>, points: seq<TelemetryPoint>)
    requires Distinct(sectors)
    modifies set s | s in sectors
    ensures Windows(sectors) == old(Windows(sectors))
    ensures forall j :: 0 <= j < |sectors| ==>
      sectors[j].xyBounds == old(sectors[j].xyBounds) + Collected(points, old(Windows(sectors)), j) &&
      sectors[j].data == old(sectors[j].data)
  {
    ghost var ws := Windows(sectors);
    var k := 0;
    while k < |points|
      invariant 0 <= k <= |points|
      invariant forall j :: 0 <= j < |sectors| ==> sectors[j].AsWindow() == ws[j]
      invariant forall j :: 0 <= j < |sectors| ==>
        sectors[j].xyBounds == old(sectors[j].xyBounds) + Collected(points[..k], ws, j) &&
        sectors[j].data == old(sectors[j].data)
    {
      var point := points[k];
      var x, y, distance := point.x, point.y, point.distance;
      label BeforePoint:
      var i := 0;
      while i < |sectors|
        invariant 0 <= i <= |sectors|
        invariant forall j :: 0 <= j < |sectors| ==>
          sectors[j].AsWindow() == ws[j] && sectors[j].data == old(sectors[j].data)
        invariant forall j :: 0 <= j < i ==>
          sectors[j].xyBounds == old@BeforePoint(sectors[j].xyBounds) +
            (if Member(ws, j, distance) then [XY(x, y)] else [])
        invariant forall j :: i <= j < |sectors| ==>
          sectors[j].xyBounds == old@BeforePoint(sectors[j].xyBounds)
      {
        var sector := sectors[i];
        assert sector == sectors[|sectors| - 1] <==> i == |sectors| - 1;
        if sector.start <= distance < sector.end {
          sector.AddToBounds(XY(x, y));
        } else if sector == sectors[|sectors| - 1] && distance == sector.end {
          sector.AddToBounds(XY(x, y));
        }
        i := i + 1;
      }
      assert points[..k + 1][..k] == points[..k];
      k := k + 1;
    }
    assert points[..k] == points;
  }

  /** The part of `getSectors` after the telemetry is fetched: build the
      sectors from the markers, then classify every point into them. */
  method GetSectors(markers: seq<real>, trackLength: real, points: seq<TelemetryPoint>)
    returns (r: Result<seq<MarshalSectorData>>)
    ensures r.Failure? <==> markers == []
    ensures r.Success? ==>
      var ss := r.value;
      Distinct(ss) && (forall s :: s in ss ==> fresh(s)) &&
      Windows(ss) == Layout(markers, trackLength) &&
      forall j :: 0 <= j < |ss| ==>
        ss[j].xyBounds == Collected(points, Layout(markers, trackLength), j) && ss[j].data == EmptyData()
  {
    r := BuildSectors(markers, trackLength);
    if r.Success? {
      ClassifyPoints(r.value, points);
    }
  }
}
