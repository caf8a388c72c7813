/** Lane layout derived from the viewport width (GameCanvas.tsx, resize), and
    the road it is meant to sit on (renderFrame and drawRoad). The game loop
    takes the layout as a parameter, so both layouts below can drive it. */
module Lanes {

  /** Number of lanes the road is drawn with. */
  const LaneCount: nat := 3

  /** Width of the road: two thirds (0.66) of the viewport. */
  function RoadWidth(width: real): real { width * 0.66 }

  /** Left edge of the road, which is centred in the viewport. */
  function RoadLeft(width: real): real { (width - RoadWidth(width)) / 2.0 }

  /** Width of one lane. */
  function LaneWidth(width: real): real { RoadWidth(width) / 3.0 }

  /** The layout as the source computes it: `centerX - laneW - laneW/2`,
      `centerX - laneW/2`, `centerX + laneW/2`. */
  function LaneXs(width: real): (lanes: seq<real>)
    ensures |lanes| == LaneCount
    ensures width >= 0.0 ==> lanes[0] <= lanes[1] <= lanes[2]
  {
    var centerX := width / 2.0;
    var laneW := LaneWidth(width);
    [centerX - laneW - laneW / 2.0, centerX - laneW / 2.0, centerX + laneW / 2.0]
  }

  /** What the source's layout actually holds: the left edge of each lane (the
      road's left edge and the two drawn lane dividers), not the lane centres. */
  lemma LaneXsAreLeftEdges(width: real)
    ensures forall i :: 0 <= i < LaneCount ==> LaneXs(width)[i] == RoadLeft(width) + (i as real) * LaneWidth(width)
  {
  }

  /** Consequence: traffic is centred on a layout value (x = lane - 32 for a
      64-wide car), so a car spawned in lane 0 always hangs over the road's
      left edge, for every positive viewport width. */
  lemma LaneZeroCarLeavesRoad(width: real)
    requires width > 0.0
    ensures LaneXs(width)[0] - 32.0 < RoadLeft(width)
  {
  }

  /** The evidently intended layout: the midpoint of each of the three lanes. */
  function LaneCentres(width: real): (lanes: seq<real>)
    ensures |lanes| == LaneCount
    ensures forall i :: 0 <= i < LaneCount ==>
      lanes[i] == RoadLeft(width) + ((i as real) + 0.5) * LaneWidth(width)
    ensures width >= 0.0 ==> lanes[0] <= lanes[1] <= lanes[2]
  {
    var centerX := width / 2.0;
    var laneW := LaneWidth(width);
    [centerX - laneW, centerX, centerX + laneW]
  }

  /** With the intended layout, a 64-wide car centred on any lane centre lies
      within that lane, between its two edges, once a lane is at least 64 wide
      (a viewport of 291 or more). */
  lemma CentredCarStaysInLane(width: real, i: int)
    requires width >= 291.0 && 0 <= i < LaneCount
    ensures RoadLeft(width) + (i as real) * LaneWidth(width) <= LaneCentres(width)[i] - 32.0
    ensures LaneCentres(width)[i] + 32.0 <= RoadLeft(width) + ((i as real) + 1.0) * LaneWidth(width)
  {
  }
}
