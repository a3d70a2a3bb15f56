/**
 * Axis-aligned boxes, the intersection-over-union measure, and the best-part
 * scan that both the backend (backend/server.py) and the merge demo
 * (src/yolo/demo_merge_damage_parts.py) run for every damage box.
 */
module Matching {

  /** A detection box `[x1, y1, x2, y2]` in image pixels. */
  datatype Box = Box(x1: real, y1: real, x2: real, y2: real)

  /** One detector output: its box, its class name and its confidence. */
  datatype Detection = Detection(box: Box, name: string, confidence: real)

  /** The `1e-6` added to every union. */
  const Epsilon: real := 0.000001

  function Max(a: real, b: real): real { if a >= b then a else b }

  function Min(a: real, b: real): real { if a <= b then a else b }

  /** Width of the overlap of two boxes, clamped at zero. */
  function OverlapWidth(a: Box, b: Box): real
  {
    Max(0.0, Min(a.x2, b.x2) - Max(a.x1, b.x1))
  }

  /** Height of the overlap of two boxes, clamped at zero. */
  function OverlapHeight(a: Box, b: Box): real
  {
    Max(0.0, Min(a.y2, b.y2) - Max(a.y1, b.y1))
  }

  function InterArea(a: Box, b: Box): real
  {
    OverlapWidth(a, b) * OverlapHeight(a, b)
  }

  /** Area of a box, clamped at zero. */
  function Area(a: Box): real
  {
    Max(0.0, (a.x2 - a.x1) * (a.y2 - a.y1))
  }

  lemma MulMono(p: real, q: real, r: real, s: real)
    requires 0.0 <= p <= q && 0.0 <= r <= s
    ensures 0.0 <= p * r <= q * s
  {
    assert p * r <= q * r;
    assert q * r <= q * s;
  }

  /**
   * The overlap never exceeds either clamped area, for any two boxes: a
   * positive overlap forces both boxes to have positive extents.
   */
  lemma InterAtMostAreas(a: Box, b: Box)
    ensures 0.0 <= InterArea(a, b) <= Area(a)
    ensures InterArea(a, b) <= Area(b)
  {
    var w, h := OverlapWidth(a, b), OverlapHeight(a, b);
    MulMono(0.0, w, 0.0, h);
    if w > 0.0 && h > 0.0 {
      MulMono(w, a.x2 - a.x1, h, a.y2 - a.y1);
      MulMono(w, b.x2 - b.x1, h, b.y2 - b.y1);
    } else {
      assert InterArea(a, b) == 0.0;
    }
  }

  /** The denominator `area_a + area_b - inter + 1e-6`. */
  function Union(a: Box, b: Box): (u: real)
    ensures u >= Epsilon
  {
    InterAtMostAreas(a, b);
    Area(a) + Area(b) - InterArea(a, b) + Epsilon
  }

  /** `box_iou` of the backend: overlap over union. */
  function Iou(a: Box, b: Box): (r: real)
    ensures 0.0 <= r < 1.0
    ensures r == 0.0 <==> InterArea(a, b) == 0.0
  {
    var inter, union := InterArea(a, b), Union(a, b);
    InterAtMostAreas(a, b);
    assert inter < union;
    inter / union
  }

  /** IoU does not depend on the order of its arguments. */
  lemma IouSymmetric(a: Box, b: Box)
    ensures Iou(a, b) == Iou(b, a)
  {
    assert OverlapWidth(a, b) == OverlapWidth(b, a);
    assert OverlapHeight(a, b) == OverlapHeight(b, a);
  }

  /** Boxes that do not overlap on some axis have IoU 0, and only those. */
  lemma IouZeroIffDisjoint(a: Box, b: Box)
    ensures Iou(a, b) == 0.0 <==> OverlapWidth(a, b) == 0.0 || OverlapHeight(a, b) == 0.0
  {
    var w, h := OverlapWidth(a, b), OverlapHeight(a, b);
    if w > 0.0 && h > 0.0 {
      MulMono(0.0, w, 0.0, h);
      assert w * h > 0.0;
    }
  }

  /** State of the matching loop: the best IoU so far and the index it came from, -1 for none. */
  datatype Best = Best(iou: real, index: int)

  /**
   * The matching loop over `parts`: it starts from IoU 0 and index -1 and a
   * part replaces the current best only when its IoU is strictly greater.
   */
  function Scan(dmg: Box, parts: seq<Detection>): (b: Best)
    ensures -1 <= b.index < |parts|
    ensures b.index == -1 ==> b.iou == 0.0
    ensures b.index >= 0 ==> b.iou == Iou(dmg, parts[b.index].box) > 0.0
    decreases |parts|
  {
    if parts == [] then Best(0.0, -1)
    else
      var prev := Scan(dmg, parts[..|parts| - 1]);
      var iou := Iou(dmg, parts[|parts| - 1].box);
      if iou > prev.iou then Best(iou, |parts| - 1) else prev
  }

  /**
   * The scan finds a part of maximal IoU, the earliest one on ties, and
   * reports none exactly when no part overlaps the damage at all.
   */
  lemma {:induction false} ScanIsFirstArgmax(dmg: Box, parts: seq<Detection>)
    ensures forall j :: 0 <= j < |parts| ==> Iou(dmg, parts[j].box) <= Scan(dmg, parts).iou
    ensures Scan(dmg, parts).index >= 0 ==>
      forall j :: 0 <= j < Scan(dmg, parts).index ==> Iou(dmg, parts[j].box) < Scan(dmg, parts).iou
    ensures Scan(dmg, parts).index == -1 <==> forall j :: 0 <= j < |parts| ==> Iou(dmg, parts[j].box) == 0.0
    decreases |parts|
  {
    if parts != [] {
      var n := |parts| - 1;
      var init := parts[..n];
      ScanIsFirstArgmax(dmg, init);
      assert forall j :: 0 <= j < n ==> init[j] == parts[j];
    }
  }
}
