# Marshal sectors of a lap, in Dafny

This project models the marshal-sector builder and bulk classifier of an F1
telemetry tool (`define_zones.py`). It has two steps.

1. **Building the sectors.** The circuit's marshal-sector marker distances are
   turned into `MarshalSectorData` objects. The objects are numbered 1..N, and
   each starts at its marker. Each sector's end is back-patched to the next
   sector's start, and the last sector ends at the track length.
2. **Classifying the points.** One pass goes over the fastest lap's telemetry
   points `(distance, x, y)`. It appends `[x, y]` to every sector whose window
   `start <= distance < end` holds. A point exactly at the last sector's end
   also goes to the last sector.

The session, the lap, the circuit data and the telemetry are fetched from an
external library in the source. Here they are parameters: a sequence of marker
distances, a track length, and a sequence of `TelemetryPoint`s. Distances and
coordinates are Dafny `real`s.

Two modules:

- `SectorLayout` (`sector_layout.dfy`) holds the value-level view. `Layout`
  gives the windows the construction produces. `InSector` and `Member` give the
  membership test of the bulk pass. `Collected` gives what one pass appends to
  one sector. The lemmas state contiguity, coverage, uniqueness, the boundary
  rule, order and provenance of the collected points, and an overall count.
- `MarshalSectors` (`marshal_sectors.dfy`) holds the class whose fields the
  source updates in place. It also holds the construction loop
  (`BuildSectors`), the nested classification loop (`ClassifyPoints`) and their
  composition (`GetSectors`). Each method is proved against the functions of
  `SectorLayout`.

The model follows the code:
- comparisons are plain numeric ones;
- the last sector ends at the track length, so no sector wraps past zero;
- the only failure is the empty marker list.

## Model

| member | source | states |
|---|---|---|
| `MarshalSectors.MarshalSectorData.constructor` | define_zones.py:4-11 | a new sector has the given number and start, end 0, an empty bounds list, and a `data` dictionary holding only an empty `dataPoints` list |
| `MarshalSectors.MarshalSectorData.SetEnd` | define_zones.py:13-14 | only `end` changes; start, number, bounds and `data` stay as they were |
| `MarshalSectors.MarshalSectorData.AddToBounds` | define_zones.py:16-17 | exactly one entry is appended at the back of `xyBounds`; earlier entries, window, number and `data` are unchanged |
| `MarshalSectors.BuildSectors` | define_zones.py:37-49 | with no markers the build fails; otherwise N fresh, distinct sectors numbered 1..N, sector i starts at marker i, each end equals the next start, the last end is the track length, bounds empty and `data` as created |
| `MarshalSectors.ClassifyPoints` | define_zones.py:51-64 | windows and `data` are unchanged; each sector's bounds become its old bounds followed by the positions of the points it takes, in telemetry order |
| `MarshalSectors.GetSectors` | define_zones.py:37-64 | fails exactly on an empty marker list; otherwise the sectors have the layout of the markers and each sector's bounds are exactly the points it takes |
| `SectorLayout.Layout` | define_zones.py:39-49 | defines the windows the construction produces, sector i+1 starting at marker i; its contract states one window per marker, each window's end equal to the next one's start, and the last end equal to the track length |
| `SectorLayout.InSector` | define_zones.py:59-64 | defines the membership test: `start <= d < end`, or `d == end` for the last sector; a sector other than the last never takes its own end, and the last sector (start not beyond end) takes exactly `[start, end]` |
| `SectorLayout.Member` | define_zones.py:59-64 | the same test for the sector at position j of the list; nothing beyond a sector's end is taken, and a point before its start only as the closing point of the last sector |
| `SectorLayout.Collected` | define_zones.py:59-64 | defines what one pass appends to sector j: the positions of the points sector j takes, in telemetry order; its contract bounds the entries by the number of points (order and provenance are stated by `CollectedSources`) |
| `SectorLayout.BoundaryGoesToLater` | define_zones.py:59-64 | a point exactly on a shared boundary is never taken by the earlier sector, and is taken by the later one unless that one is empty |
| `SectorLayout.OwnerFrom` | define_zones.py:41-49 | for a distance not below the first marker there is a sector whose start is at most the distance and whose successor, if any, starts beyond it |
| `SectorLayout.Coverage` | define_zones.py:59-64 | every distance from the first marker up to and including the track length is taken by some sector, whatever the marker order |
| `SectorLayout.AtMostOneSector` | define_zones.py:59-64 | with markers in lap order and the last one not beyond the track length, no two sectors take the same distance |
| `SectorLayout.OutsideNoSector` | define_zones.py:59-64 | with markers in lap order and the last one not beyond the track length, a distance before the first marker or beyond the track length is taken by no sector |
| `SectorLayout.ExactlyOneSector` | define_zones.py:59-64 | under the same ordering, a sector takes a distance in range if and only if it is the owning sector |
| `SectorLayout.OneHitInRange` | define_zones.py:59-64 | under the same ordering, the number of sectors taking a distance is 1 inside `[first marker, track length]` and 0 outside |
| `SectorLayout.CollectedAppend` | define_zones.py:51-61 | classifying two stretches of telemetry appends the first stretch's entries and then the second's: the pass only appends, and in order |
| `SectorLayout.CollectedSources` | define_zones.py:51-64 | a sector's collected entries are exactly the positions of the points it takes, listed by strictly increasing telemetry index |
| `SectorLayout.EachPointCollectedOnce` | define_zones.py:51-64 | with markers in lap order and the last one not beyond the track length, the number of entries one pass appends over all sectors equals the number of points in `[first marker, track length]` |
| `SectorLayout.FourSectorExample` | define_zones.py:37-64 | markers 0, 250, 500, 750 on a 1000 m lap: a point at 250 goes to sector 2; points at 999 and 1000 go to sector 4, in that order |

## Left out

- Session loading, fastest-lap choice, circuit information and telemetry
  fetching (define_zones.py:1, 31-35, 51) are calls into an external library
  with network and cache I/O. The marker distances, track length and points
  are parameters instead.
- How the track length is derived, as the maximum car-data distance
  (define_zones.py:48), is also left to the caller. The code does not check
  that it exceeds the last marker, and neither does the model.
- `MarshalSectorData.print` (define_zones.py:19-27) only writes to the console.
- `plotSectors` (define_zones.py:73-90) is matplotlib rendering.
- `main.py` is a top-level script. It loads a session and plots. It calls
  functions that `define_zones.py` does not define.
- The commented-out filter on interpolated points (define_zones.py:52-53) is
  inactive, so every point is classified.
- A sector's `data` dictionary is modelled as a map from names to lists. The
  modelled code only ever creates it holding an empty `dataPoints` list, so
  the entry type of that list is not fixed by the code; entries are modelled
  as maps from names to reals.
- Distances and coordinates are floats in the source. The model uses exact
  reals and does not capture rounding.
- The final loop that prints every sector (define_zones.py:66-67) is output only.
- MarshalSectors.ClassifyPoints: requires that no sector object appears twice
  in the list. Its only caller passes the freshly built sectors, which are
  distinct. Under that condition, the source's identity test
  `sector is sectors[-1]` means "this is the last position of the list".
