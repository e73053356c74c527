/**
 The branch location picker (apps/web/components/branch-location-picker.tsx): a pointer position
 becomes coordinates with seven decimals, and stored coordinates become a marker.
 */
module LocationPicker {
  const NORTH: real := 31.8
  const SOUTH: real := 22.0
  const EAST: real := 36.9
  const WEST: real := 24.7

  datatype Box = Box(left: real, top: real, width: real, height: real)
  datatype Location = Location(latitude: real, longitude: real)

  /** In percent of the surface. */
  datatype Marker = Marker(left: real, top: real)

  function Clamp(v: real): (r: real)
    ensures 0.0 <= r <= 1.0 && (0.0 <= v <= 1.0 ==> r == v)
  {
    if v < 0.0 then 0.0 else if v > 1.0 then 1.0 else v
  }

  /** toFixed(7) of a positive number: the nearest multiple of 10^-7, the larger one of two. */
  function Fixed(v: real): real { (v * 10000000.0 + 0.5).Floor as real / 10000000.0 }

  function Across(box: Box, x: real): real
    requires box.width > 0.0
  {
    Clamp((x - box.left) / box.width)
  }

  function Down(box: Box, y: real): real
    requires box.height > 0.0
  {
    Clamp((y - box.top) / box.height)
  }

  function SetFromPointer(box: Box, x: real, y: real): Location
    requires box.width > 0.0 && box.height > 0.0
  {
    Location(Fixed(NORTH - Down(box, y) * (NORTH - SOUTH)), Fixed(WEST + Across(box, x) * (EAST - WEST)))
  }

  function MarkerOf(at: Location): Marker {
    Marker((at.longitude - WEST) / (EAST - WEST) * 100.0, (NORTH - at.latitude) / (NORTH - SOUTH) * 100.0)
  }

  predicate InBounds(at: Location) { SOUTH <= at.latitude <= NORTH && WEST <= at.longitude <= EAST }

  lemma FixedMonotone(a: real, b: real)
    requires a <= b
    ensures Fixed(a) <= Fixed(b)
  {
    var fa, fb := (a * 10000000.0 + 0.5).Floor, (b * 10000000.0 + 0.5).Floor;
    assert fa as real <= a * 10000000.0 + 0.5 <= b * 10000000.0 + 0.5 < fb as real + 1.0;
    assert fa < fb + 1;
  }

  /** Any pointer position, inside the surface or not, gives coordinates within the bounds. */
  lemma PickedInBounds(box: Box, x: real, y: real)
    requires box.width > 0.0 && box.height > 0.0
    ensures InBounds(SetFromPointer(box, x, y))
  {
    var down, across := Down(box, y), Across(box, x);
    FixedMonotone(SOUTH, NORTH - down * (NORTH - SOUTH));
    FixedMonotone(NORTH - down * (NORTH - SOUTH), NORTH);
    FixedMonotone(WEST, WEST + across * (EAST - WEST));
    FixedMonotone(WEST + across * (EAST - WEST), EAST);
    EdgesFixed();
  }

  lemma EdgesFixed()
    ensures Fixed(NORTH) == NORTH && Fixed(SOUTH) == SOUTH && Fixed(EAST) == EAST && Fixed(WEST) == WEST
  {
    assert NORTH * 10000000.0 + 0.5 == 318000000.5 && SOUTH * 10000000.0 + 0.5 == 220000000.5;
    assert EAST * 10000000.0 + 0.5 == 369000000.5 && WEST * 10000000.0 + 0.5 == 247000000.5;
  }

  /** A marker lies on the surface exactly when its coordinates are within the bounds. */
  lemma MarkerOnSurface(at: Location)
    ensures var m := MarkerOf(at);
      0.0 <= m.left <= 100.0 && 0.0 <= m.top <= 100.0 <==> InBounds(at)
  {
  }

  lemma FixedClose(v: real)
    ensures v - 0.00000005 <= Fixed(v) <= v + 0.00000005
  {
    var f := (v * 10000000.0 + 0.5).Floor as real;
    assert v * 10000000.0 - 0.5 <= f <= v * 10000000.0 + 0.5;
  }

  /**
   The marker shows where the pointer was, clamped to the surface, to within half of 10^-7 degrees
   on each axis.
   */
  lemma MarkerFollowsPointer(box: Box, x: real, y: real)
    requires box.width > 0.0 && box.height > 0.0
    ensures var m := MarkerOf(SetFromPointer(box, x, y));
      && 0.0 <= m.left <= 100.0 && 0.0 <= m.top <= 100.0
      && -0.000005 / (EAST - WEST) <= m.left - Across(box, x) * 100.0 <= 0.000005 / (EAST - WEST)
      && -0.000005 / (NORTH - SOUTH) <= m.top - Down(box, y) * 100.0 <= 0.000005 / (NORTH - SOUTH)
  {
    PickedInBounds(box, x, y);
    MarkerOnSurface(SetFromPointer(box, x, y));
    FixedClose(WEST + Across(box, x) * (EAST - WEST));
    FixedClose(NORTH - Down(box, y) * (NORTH - SOUTH));
  }

  /** Seven decimals. */
  predicate Storable(v: real) { v == Fixed(v) }

  lemma FixedOnce(v: real)
    ensures Storable(Fixed(v))
  {
    var f := (v * 10000000.0 + 0.5).Floor;
    assert Fixed(v) * 10000000.0 + 0.5 == f as real + 0.5;
    assert (f as real + 0.5).Floor == f;
  }

  /** The pointer position right on a marker. */
  function OnMarkerX(box: Box, m: Marker): real { box.left + m.left / 100.0 * box.width }

  function OnMarkerY(box: Box, m: Marker): real { box.top + m.top / 100.0 * box.height }

  lemma OnMarker(box: Box, m: Marker)
    requires box.width > 0.0 && box.height > 0.0
    requires 0.0 <= m.left <= 100.0 && 0.0 <= m.top <= 100.0
    ensures Across(box, OnMarkerX(box, m)) == m.left / 100.0
    ensures Down(box, OnMarkerY(box, m)) == m.top / 100.0
  {
    ShareBack(box.left, box.width, m.left / 100.0);
    ShareBack(box.top, box.height, m.top / 100.0);
  }

  lemma ShareBack(edge: real, size: real, share: real)
    requires size > 0.0
    ensures (edge + share * size - edge) / size == share
  {
    assert share * size / size == share;
  }

  lemma AxesBack(at: Location)
    ensures NORTH - MarkerOf(at).top / 100.0 * (NORTH - SOUTH) == at.latitude
    ensures WEST + MarkerOf(at).left / 100.0 * (EAST - WEST) == at.longitude
  {
  }

  /** What the picker stores: within the bounds, with seven decimals. */
  predicate Stored(at: Location) { InBounds(at) && Storable(at.latitude) && Storable(at.longitude) }

  lemma PickedIsStored(box: Box, x: real, y: real)
    requires box.width > 0.0 && box.height > 0.0
    ensures Stored(SetFromPointer(box, x, y))
  {
    PickedInBounds(box, x, y);
    FixedOnce(NORTH - Down(box, y) * (NORTH - SOUTH));
    FixedOnce(WEST + Across(box, x) * (EAST - WEST));
  }

  /** Pressing right on the marker of stored coordinates leaves them as they are, on a surface of any size. */
  lemma PressingTheMarkerKeepsIt(box: Box, at: Location)
    requires box.width > 0.0 && box.height > 0.0 && Stored(at)
    ensures SetFromPointer(box, OnMarkerX(box, MarkerOf(at)), OnMarkerY(box, MarkerOf(at))) == at
  {
    var m := MarkerOf(at);
    MarkerOnSurface(at);
    OnMarker(box, m);
    AxesBack(at);
  }

  /** So does pressing right on the marker of whatever was picked, on the same surface or on another one. */
  lemma PickedStays(box: Box, x: real, y: real, later: Box)
    requires box.width > 0.0 && box.height > 0.0 && later.width > 0.0 && later.height > 0.0
    ensures var at := SetFromPointer(box, x, y);
      SetFromPointer(later, OnMarkerX(later, MarkerOf(at)), OnMarkerY(later, MarkerOf(at))) == at
  {
    PickedIsStored(box, x, y);
    PressingTheMarkerKeepsIt(later, SetFromPointer(box, x, y));
  }
}
