/**
 The safe-landing search run before a teleport-back: a bounded vertical probe for
 a column cell where the player's feet and head both fit. Terrain itself is not
 modelled; the host's block lookup is an oracle that, for an integer cell, yields
 air, some other block, nothing (`undefined`), or an exception.
 */
module SafeLanding {
  import opened Wrappers

  datatype Probe = Air | NonAir | Undefined | Throws

  /** The host's block lookup at integer cell (x, y, z). */
  type Terrain = (int, int, int) -> Probe

  /** Highest level the upward scan may reach. */
  const WorldCeiling: int := 320
  /** Lowest level the downward scan may reach. */
  const WorldFloor: int := -64
  /** How many levels each scan covers at most. */
  const Reach: int := 10

  function Min(a: int, b: int): int { if a <= b then a else b }
  function Max(a: int, b: int): int { if a >= b then a else b }

  /** Both the cell at level `y` and the one above it are defined air blocks. */
  predicate Fits(terrain: Terrain, x: int, z: int, y: int) {
    terrain(x, y, z) == Air && terrain(x, y + 1, z) == Air
  }

  /** Looking up the cell at level `y` or the one above it throws. */
  predicate ProbeThrows(terrain: Terrain, x: int, z: int, y: int) {
    terrain(x, y, z) == Throws || terrain(x, y + 1, z) == Throws
  }

  /** Top of the upward scan from `start`. */
  function UpTop(start: int): int { Min(start + Reach, WorldCeiling) }

  /** Bottom of the downward scan from `start`. */
  function DownBottom(start: int): int { Max(start - Reach, WorldFloor) }

  function UpCount(start: int): nat { if UpTop(start) > start then UpTop(start) - start else 0 }

  function DownCount(start: int): nat { if DownBottom(start) < start then start - DownBottom(start) else 0 }

  /**
   The levels the search tries, in order: the starting level, then upwards to at
   most ten above (never past the ceiling), then downwards to at most ten below
   (never past the floor).
   */
  function SearchOrder(start: int): (order: seq<int>)
    ensures |order| == 1 + UpCount(start) + DownCount(start)
    ensures order[0] == start
    ensures forall j :: 1 <= j <= UpCount(start) ==> order[j] == start + j
    ensures forall j :: UpCount(start) < j < |order| ==> order[j] == start + UpCount(start) - j
  {
    [start] + seq(UpCount(start), i => start + 1 + i) + seq(DownCount(start), i => start - 1 - i)
  }

  /** `order[i]` is the first level of `order` that fits. */
  ghost predicate FirstFit(terrain: Terrain, x: int, z: int, order: seq<int>, i: int) {
    0 <= i < |order| && Fits(terrain, x, z, order[i])
    && forall j :: 0 <= j < i ==> !Fits(terrain, x, z, order[j])
  }

  /** The upward loop: the lowest fitting level in `lo..hi`, if any. */
  function ScanUp(terrain: Terrain, x: int, z: int, lo: int, hi: int): (r: Option<int>)
    ensures r.Some? ==> lo <= r.value <= hi && Fits(terrain, x, z, r.value)
    ensures r.Some? ==> forall k :: lo <= k < r.value ==> !Fits(terrain, x, z, k)
    ensures r.None? ==> forall k :: lo <= k <= hi ==> !Fits(terrain, x, z, k)
    decreases hi - lo
  {
    if lo > hi then None
    else if Fits(terrain, x, z, lo) then Some(lo)
    else ScanUp(terrain, x, z, lo + 1, hi)
  }

  /** The downward loop: the highest fitting level in `lo..hi`, if any. */
  function ScanDown(terrain: Terrain, x: int, z: int, hi: int, lo: int): (r: Option<int>)
    ensures r.Some? ==> lo <= r.value <= hi && Fits(terrain, x, z, r.value)
    ensures r.Some? ==> forall k :: r.value < k <= hi ==> !Fits(terrain, x, z, k)
    ensures r.None? ==> forall k :: lo <= k <= hi ==> !Fits(terrain, x, z, k)
    decreases hi - lo
  {
    if lo > hi then None
    else if Fits(terrain, x, z, hi) then Some(hi)
    else ScanDown(terrain, x, z, hi - 1, lo)
  }

  /**
   `findSafeY`: probes the column at the floored horizontal position. A throw at the
   starting level gives back `currentY` as it was; otherwise the first fitting level
   of the search order wins, and when none fits `currentY` is returned unchanged.
   */
  function FindSafeY(terrain: Terrain, x: real, z: real, currentY: real): (r: real)
    ensures ProbeThrows(terrain, x.Floor, z.Floor, currentY.Floor) ==> r == currentY
    ensures var order := SearchOrder(currentY.Floor);
      !ProbeThrows(terrain, x.Floor, z.Floor, currentY.Floor)
      && (exists i :: 0 <= i < |order| && Fits(terrain, x.Floor, z.Floor, order[i])) ==>
        exists i :: FirstFit(terrain, x.Floor, z.Floor, order, i) && r == order[i] as real
    ensures var order := SearchOrder(currentY.Floor);
      (forall i :: 0 <= i < |order| ==> !Fits(terrain, x.Floor, z.Floor, order[i])) ==> r == currentY
  {
    var fx, fz, start := x.Floor, z.Floor, currentY.Floor;
    var order := SearchOrder(start);
    if ProbeThrows(terrain, fx, fz, start) then
      currentY
    else if Fits(terrain, fx, fz, start) then
      assert FirstFit(terrain, fx, fz, order, 0);
      start as real
    else match ScanUp(terrain, fx, fz, start + 1, UpTop(start))
      case Some(y) =>
        assert FirstFit(terrain, fx, fz, order, y - start);
        y as real
      case None =>
        match ScanDown(terrain, fx, fz, start - 1, DownBottom(start))
        case Some(y) =>
          var i := UpCount(start) + start - y;
          assert order[i] == y;
          assert FirstFit(terrain, fx, fz, order, i);
          y as real
        case None =>
          assert forall i :: 0 <= i < |order| ==> !Fits(terrain, fx, fz, order[i]);
          currentY
  }

  /**
   The search either leaves `currentY` as it was or lands on a whole level at most
   ten away from the floored start; a level it moved to lies within the world's
   height range.
   */
  lemma FindSafeYWithinReach(terrain: Terrain, x: real, z: real, currentY: real)
    ensures var r := FindSafeY(terrain, x, z, currentY);
      r == currentY
      || (r == r.Floor as real && currentY.Floor - Reach <= r.Floor <= currentY.Floor + Reach)
    ensures var r := FindSafeY(terrain, x, z, currentY);
      r != currentY && r.Floor > currentY.Floor ==> r.Floor <= WorldCeiling
    ensures var r := FindSafeY(terrain, x, z, currentY);
      r != currentY && r.Floor < currentY.Floor ==> r.Floor >= WorldFloor
  {
  }

  /** The same terrain with every throwing lookup reporting a non-air block instead. */
  function NoThrow(terrain: Terrain): Terrain {
    (x: int, y: int, z: int) => if terrain(x, y, z) == Throws then NonAir else terrain(x, y, z)
  }

  /**
   Once the starting level has been probed without a throw, a lookup that throws
   inside either scan counts exactly like a non-air block: it disqualifies the
   levels that probe that cell and the scan goes on.
   */
  lemma ThrowInScanSkipsLevel(terrain: Terrain, x: real, z: real, currentY: real)
    requires !ProbeThrows(terrain, x.Floor, z.Floor, currentY.Floor)
    ensures FindSafeY(terrain, x, z, currentY) == FindSafeY(NoThrow(terrain), x, z, currentY)
  {
  }
}
