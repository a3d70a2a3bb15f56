/**
 * The matching step of the merge demo (src/yolo/demo_merge_damage_parts.py):
 * its `box_iou` variant that also returns the overlap and both areas, the
 * best-index search with the -1 sentinel, and the `merged_results` list.
 */
module MergeDemo {
  import opened Wrappers
  import opened Matching
  import Server

  /** The 4-tuple `(iou, inter_area, area_a, area_b)`. */
  datatype IouParts = IouParts(iou: real, inter: real, areaA: real, areaB: real)

  /** The demo's `box_iou`: the same measure as the backend's, with its parts. */
  function BoxIou(a: Box, b: Box): (r: IouParts)
    ensures r.iou == Iou(a, b) && r.inter == InterArea(a, b)
    ensures r.areaA == Area(a) && r.areaB == Area(b)
    ensures 0.0 <= r.inter <= r.areaA && r.inter <= r.areaB
    ensures r.iou == r.inter / (r.areaA + r.areaB - r.inter + Epsilon)
  {
    var inter := OverlapWidth(a, b) * OverlapHeight(a, b);
    var areaA := Area(a);
    var areaB := Area(b);
    var union := areaA + areaB - inter + Epsilon;
    assert union == Union(a, b);
    InterAtMostAreas(a, b);
    IouParts(inter / union, inter, areaA, areaB)
  }

  /** One element of `merged_results`. */
  datatype Merged = Merged(damageType: string, confidence: real, part: Option<string>, iouWithPart: real, areaRatio: Option<real>)

  /** Raw damage-box area, not clamped, as the demo computes it for the ratio. */
  function DamageArea(b: Box): real
  {
    (b.x2 - b.x1) * (b.y2 - b.y1)
  }

  /** The record the demo appends for one damage detection. */
  function MergedFor(d: Detection, parts: seq<Detection>): (m: Merged)
    ensures m.damageType == d.name && m.confidence == d.confidence
    ensures m.iouWithPart == Scan(d.box, parts).iou
    ensures m.part.Some? <==> m.iouWithPart > Server.MatchThreshold
    ensures m.areaRatio.Some? <==> m.part.Some?
    ensures m.part.Some? ==>
      var j := Scan(d.box, parts).index;
      && 0 <= j < |parts|
      && m.part == Some(parts[j].name)
      && m.iouWithPart == Iou(d.box, parts[j].box)
      && m.areaRatio == Some(DamageArea(d.box) / (Area(parts[j].box) + Epsilon))
  {
    var best := Scan(d.box, parts);
    if best.index >= 0 && best.iou > Server.MatchThreshold then
      var partArea := BoxIou(d.box, parts[best.index].box).areaB;
      Merged(d.name, d.confidence, Some(parts[best.index].name), best.iou, Some(DamageArea(d.box) / (partArea + Epsilon)))
    else
      Merged(d.name, d.confidence, None, best.iou, None)
  }

  /**
   * The inner loop of `main`: the sentinel -1 survives exactly when no part
   * overlaps the damage; otherwise the index is the first part of maximal
   * IoU, with its overlap and its area.
   */
  method BestPart(dmg: Box, parts: seq<Detection>) returns (bestIou: real, bestIdx: int, bestInter: real, bestPartArea: real)
    ensures -1 <= bestIdx < |parts|
    ensures bestIdx == Scan(dmg, parts).index && bestIou == Scan(dmg, parts).iou
    ensures bestIdx == -1 <==> forall j :: 0 <= j < |parts| ==> Iou(dmg, parts[j].box) == 0.0
    ensures bestIdx >= 0 ==>
      && (forall j :: 0 <= j < |parts| ==> Iou(dmg, parts[j].box) <= bestIou)
      && (forall j :: 0 <= j < bestIdx ==> Iou(dmg, parts[j].box) < bestIou)
      && bestInter == InterArea(dmg, parts[bestIdx].box)
      && bestPartArea == Area(parts[bestIdx].box)
    ensures bestIdx == -1 ==> bestIou == 0.0 && bestInter == 0.0 && bestPartArea == 0.0
  {
    bestIou, bestIdx, bestInter, bestPartArea := 0.0, -1, 0.0, 0.0;
    for j := 0 to |parts|
      invariant bestIdx == Scan(dmg, parts[..j]).index && bestIou == Scan(dmg, parts[..j]).iou
      invariant bestIdx >= 0 ==>
        bestInter == InterArea(dmg, parts[bestIdx].box) && bestPartArea == Area(parts[bestIdx].box)
      invariant bestIdx == -1 ==> bestInter == 0.0 && bestPartArea == 0.0
    {
      assert parts[..j + 1][..j] == parts[..j];
      var r := BoxIou(dmg, parts[j].box);
      if r.iou > bestIou {
        bestIou := r.iou;
        bestIdx := j;
        bestInter := r.inter;
        bestPartArea := r.areaB;
      }
    }
    assert parts[..|parts|] == parts;
    ScanIsFirstArgmax(dmg, parts);
  }

  /** The outer loop of `main`: one record per damage detection, in order. */
  method MergeDamageParts(damages: seq<Detection>, parts: seq<Detection>) returns (merged: seq<Merged>)
    ensures |merged| == |damages|
    ensures forall k :: 0 <= k < |damages| ==> merged[k] == MergedFor(damages[k], parts)
  {
    merged := [];
    for i := 0 to |damages|
      invariant |merged| == i
      invariant forall k :: 0 <= k < i ==> merged[k] == MergedFor(damages[k], parts)
    {
      var d := damages[i];
      var bestIou, bestIdx, bestInter, bestPartArea := BestPart(d.box, parts);
      var item;
      if bestIdx >= 0 && bestIou > Server.MatchThreshold {
        var ratio := DamageArea(d.box) / (bestPartArea + Epsilon);
        item := Merged(d.name, d.confidence, Some(parts[bestIdx].name), bestIou, Some(ratio));
      } else {
        item := Merged(d.name, d.confidence, None, bestIou, None);
      }
      merged := merged + [item];
    }
  }

  /**
   * The part a record names, and the area its ratio uses, are those of the
   * first part of maximal IoU; ties go to the earlier part.
   */
  lemma MergedPartIsFirstBest(d: Detection, parts: seq<Detection>)
    ensures var m := MergedFor(d, parts);
      m.part.Some? ==>
        exists j ::
          && 0 <= j < |parts|
          && m.part == Some(parts[j].name)
          && m.areaRatio == Some(DamageArea(d.box) / (Area(parts[j].box) + Epsilon))
          && (forall k :: 0 <= k < |parts| ==> Iou(d.box, parts[k].box) <= m.iouWithPart)
          && (forall k :: 0 <= k < j ==> Iou(d.box, parts[k].box) < m.iouWithPart)
  {
    ScanIsFirstArgmax(d.box, parts);
  }

  /** The demo and the service attach the same part to a damage, with the same IoU. */
  lemma AgreesWithService(d: Detection, parts: seq<Detection>)
    ensures MergedFor(d, parts).part == Server.EntryFor(d, parts).part
    ensures MergedFor(d, parts).iouWithPart == Server.EntryFor(d, parts).iouWithPart
  {
  }
}
