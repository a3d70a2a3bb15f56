/**
 * The deterministic part of the analysis service (backend/server.py): the
 * translation and severity tables, the damage-to-part matching of
 * `analyze_image`, its summary and risk level, and the severity column of the
 * PDF report. Detector outputs are given as input sequences.
 */
module Server {
  import opened Wrappers
  import opened Matching
  import opened PyStrings

  /** `DAMAGE_TR`: damage class names to their Turkish labels. */
  const DamageTr: map<string, string> := map[
    "crack" := "Çatlak",
    "dent" := "Göçük",
    "glass_shatter" := "Cam Kırığı",
    "lamp_broken" := "Lamba Kırığı",
    "scratch" := "Çizik",
    "tire_flat" := "Patlak Lastik"
  ]

  /** `PARTS_TR`: car-part class names to their Turkish labels. */
  const PartsTr: map<string, string> := map[
    "back_bumper" := "Arka Tampon",
    "back_door" := "Arka Kapı",
    "back_glass" := "Arka Cam",
    "back_left_door" := "Arka Sol Kapı",
    "back_left_light" := "Arka Sol Far",
    "back_light" := "Arka Far",
    "back_right_door" := "Arka Sağ Kapı",
    "back_right_light" := "Arka Sağ Far",
    "front_bumper" := "Ön Tampon",
    "front_door" := "Ön Kapı",
    "front_glass" := "Ön Cam",
    "front_left_door" := "Ön Sol Kapı",
    "front_left_light" := "Ön Sol Far",
    "front_light" := "Ön Far",
    "front_right_door" := "Ön Sağ Kapı",
    "front_right_light" := "Ön Sağ Far",
    "hood" := "Kaput",
    "left_mirror" := "Sol Ayna",
    "object" := "Nesne",
    "right_mirror" := "Sağ Ayna",
    "tailgate" := "Bagaj Kapağı",
    "trunk" := "Bagaj",
    "wheel" := "Tekerlek"
  ]

  /** `SEVERITY_MAP`: damage class names to a severity on the 1..5 scale. */
  const SeverityMap: map<string, int> := map[
    "crack" := 3,
    "dent" := 3,
    "glass_shatter" := 5,
    "lamp_broken" := 4,
    "scratch" := 2,
    "tire_flat" := 4
  ]

  /** Severity given to a damage class the table does not know. */
  const DefaultSeverity: int := 3

  /** A part is attached to a damage only when their IoU exceeds this. */
  const MatchThreshold: real := 0.1

  const Low: string := "Düşük"
  const Medium: string := "Orta"
  const High: string := "Yüksek"

  /** `table.get(name, name)`: the translation, or the name itself when it has none. */
  function Translate(table: map<string, string>, name: string): (r: string)
    ensures r == name || r in table.Values
    ensures name in table ==> r == table[name]
    ensures name !in table ==> r == name
  {
    if name in table then table[name] else name
  }

  /** `SEVERITY_MAP.get(type, 3)`. */
  function Severity(kind: string): (s: int)
    ensures 2 <= s <= 5
    ensures kind in SeverityMap ==> s == SeverityMap[kind]
    ensures kind !in SeverityMap ==> s == DefaultSeverity
  {
    if kind in SeverityMap then SeverityMap[kind] else DefaultSeverity
  }

  /** One element of the `damages` list (its random `id` is left out). */
  datatype DamageEntry = DamageEntry(
    kind: string,
    kindTr: string,
    confidence: real,
    severity: int,
    box: Box,
    part: Option<string>,
    partTr: Option<string>,
    partBox: Option<Box>,
    iouWithPart: real)

  /** One element of the `parts` list. */
  datatype PartEntry = PartEntry(name: string, nameTr: string, box: Box)

  datatype Summary = Summary(totalDamages: nat, affectedParts: nat, averageSeverity: real, riskLevel: string)

  datatype ImageSize = ImageSize(width: int, height: int)

  /** The dictionary `analyze_image` returns. */
  datatype AnalysisResult = AnalysisResult(damages: seq<DamageEntry>, parts: seq<PartEntry>, summary: Summary, imageSize: ImageSize)

  /** The entry `analyze_image` builds for one damage detection. */
  function EntryFor(d: Detection, parts: seq<Detection>): (e: DamageEntry)
    ensures e.kind == d.name && e.box == d.box && e.severity == Severity(d.name)
    ensures e.kindTr == Translate(DamageTr, d.name)
    ensures e.confidence == d.confidence * 100.0
    ensures e.iouWithPart == Scan(d.box, parts).iou
    ensures e.part.Some? <==> e.iouWithPart > MatchThreshold
    ensures e.partTr.Some? == e.part.Some? && e.partBox.Some? == e.part.Some?
    ensures e.part.Some? ==> e.partTr == Some(Translate(PartsTr, e.part.value))
  {
    var best := Scan(d.box, parts);
    var matched := best.iou > MatchThreshold;
    DamageEntry(
      d.name,
      Translate(DamageTr, d.name),
      d.confidence * 100.0,
      Severity(d.name),
      d.box,
      if matched then Some(parts[best.index].name) else None,
      if matched then Some(Translate(PartsTr, parts[best.index].name)) else None,
      if matched then Some(parts[best.index].box) else None,
      best.iou)
  }

  /**
   * The part attached to a damage is one of maximal IoU with it, the earliest
   * such part in detection order, and it is attached exactly when that IoU
   * exceeds the threshold.
   */
  lemma EntryPartIsBestOverlap(d: Detection, parts: seq<Detection>)
    ensures var e := EntryFor(d, parts);
      e.part.Some? ==>
        exists j ::
          && 0 <= j < |parts|
          && e.part == Some(parts[j].name) && e.partBox == Some(parts[j].box)
          && e.iouWithPart == Iou(d.box, parts[j].box)
          && (forall k :: 0 <= k < |parts| ==> Iou(d.box, parts[k].box) <= e.iouWithPart)
          && (forall k :: 0 <= k < j ==> Iou(d.box, parts[k].box) < e.iouWithPart)
    ensures var e := EntryFor(d, parts);
      e.part.None? <==> forall k :: 0 <= k < |parts| ==> Iou(d.box, parts[k].box) <= MatchThreshold
  {
    ScanIsFirstArgmax(d.box, parts);
    var b := Scan(d.box, parts);
    if b.iou > MatchThreshold {
      assert b.index >= 0;
    }
  }

  /** The inner loop of `analyze_image`: the best part for one damage box. */
  method MatchPart(dmg: Box, parts: seq<Detection>) returns (bestIou: real, bestPart: Option<string>, bestPartBox: Option<Box>)
    ensures bestIou == Scan(dmg, parts).iou
    ensures Scan(dmg, parts).index >= 0 ==>
      bestPart == Some(parts[Scan(dmg, parts).index].name) && bestPartBox == Some(parts[Scan(dmg, parts).index].box)
    ensures Scan(dmg, parts).index == -1 ==> bestPart == None && bestPartBox == None
  {
    bestIou, bestPart, bestPartBox := 0.0, None, None;
    for j := 0 to |parts|
      invariant bestIou == Scan(dmg, parts[..j]).iou
      invariant Scan(dmg, parts[..j]).index >= 0 ==>
        bestPart == Some(parts[Scan(dmg, parts[..j]).index].name) &&
        bestPartBox == Some(parts[Scan(dmg, parts[..j]).index].box)
      invariant Scan(dmg, parts[..j]).index == -1 ==> bestPart == None && bestPartBox == None
    {
      assert parts[..j + 1][..j] == parts[..j];
      var iou := Iou(dmg, parts[j].box);
      if iou > bestIou {
        bestIou := iou;
        bestPart := Some(parts[j].name);
        bestPartBox := Some(parts[j].box);
      }
    }
    assert parts[..|parts|] == parts;
  }

  /** Distinct non-empty part names attached to the entries (`set(d["part"] for d if d["part"])`). */
  function PartNames(es: seq<DamageEntry>): set<string>
  {
    if es == [] then {}
    else
      var rest := PartNames(es[..|es| - 1]);
      var last := es[|es| - 1];
      if last.part.Some? && last.part.value != "" then rest + {last.part.value} else rest
  }

  /** A name is counted exactly when some entry carries it. */
  lemma {:induction false} PartNamesAreAttached(es: seq<DamageEntry>, name: string)
    ensures name in PartNames(es) <==> name != "" && exists k :: 0 <= k < |es| && es[k].part == Some(name)
    decreases |es|
  {
    if es != [] {
      var init := es[..|es| - 1];
      PartNamesAreAttached(init, name);
      assert forall k :: 0 <= k < |init| ==> init[k] == es[k];
      if name != "" && es[|es| - 1].part != Some(name) && exists k :: 0 <= k < |es| && es[k].part == Some(name) {
        var k :| 0 <= k < |es| && es[k].part == Some(name);
        assert k < |init|;
      }
    }
  }

  lemma {:induction false} PartNamesBound(es: seq<DamageEntry>)
    ensures |PartNames(es)| <= |es|
    decreases |es|
  {
    if es != [] {
      PartNamesBound(es[..|es| - 1]);
    }
  }

  function SeveritySum(es: seq<DamageEntry>): int
  {
    if es == [] then 0 else SeveritySum(es[..|es| - 1]) + es[|es| - 1].severity
  }

  /** The average severity before rounding: the sum divided by `max(1, total)`. */
  function ExactAverage(es: seq<DamageEntry>): real
  {
    (SeveritySum(es) as real) / (if |es| == 0 then 1 else |es|) as real
  }

  /** `round(x, 1)` on exact reals, ties rounded up. */
  function Round1(x: real): real
  {
    ((x * 10.0 + 0.5).Floor as real) / 10.0
  }

  /** The three-level risk classification of `analyze_image`. */
  function RiskLevel(avg: real, total: nat): (r: string)
    ensures r == High <==> avg >= 4.0 || total >= 4
    ensures r == Medium <==> !(avg >= 4.0 || total >= 4) && (avg >= 2.5 || total >= 2)
    ensures r == Low <==> avg < 2.5 && total < 2
  {
    if avg >= 4.0 || total >= 4 then High
    else if avg >= 2.5 || total >= 2 then Medium
    else Low
  }

  /** Position of a risk level on the scale Low < Medium < High. */
  function RiskRank(level: string): int
  {
    if level == High then 2 else if level == Medium then 1 else 0
  }

  /** More damages, or a higher average, never lower the risk level. */
  lemma RiskMonotone(avg1: real, total1: nat, avg2: real, total2: nat)
    requires avg1 <= avg2 && total1 <= total2
    ensures RiskRank(RiskLevel(avg1, total1)) <= RiskRank(RiskLevel(avg2, total2))
  {
  }

  /** The summary block of `analyze_image`. */
  function Summarize(es: seq<DamageEntry>): (s: Summary)
    ensures s.totalDamages == |es|
    ensures s.affectedParts == |PartNames(es)| <= s.totalDamages
    ensures s.averageSeverity == Round1(ExactAverage(es))
    ensures s.riskLevel == RiskLevel(s.averageSeverity, s.totalDamages)
    ensures es == [] ==> s.averageSeverity == 0.0 && s.riskLevel == Low
  {
    PartNamesBound(es);
    var avg := Round1(ExactAverage(es));
    Summary(|es|, |PartNames(es)|, avg, RiskLevel(avg, |es|))
  }

  lemma Round1Bounds(x: real)
    ensures x - 0.05 < Round1(x) <= x + 0.05
  {
  }

  lemma Round1Monotone(x: real, y: real)
    requires x <= y
    ensures Round1(x) <= Round1(y)
  {
    assert (x * 10.0 + 0.5).Floor <= (y * 10.0 + 0.5).Floor;
  }

  lemma Round1OfInt(n: int)
    ensures Round1(n as real) == n as real
  {
    assert ((n as real) * 10.0 + 0.5).Floor == n * 10;
  }

  /**
   * Rounding the average to one decimal before classifying does not change
   * the risk level: the level is the one the exact average gives.
   */
  lemma RiskFromExactAverage(es: seq<DamageEntry>)
    ensures Summarize(es).riskLevel == RiskLevel(ExactAverage(es), |es|)
  {
    var t, sum, avg := |es|, SeveritySum(es), ExactAverage(es);
    var r := Round1(avg);
    if t == 0 {
      Round1OfInt(0);
    } else if t == 1 {
      assert avg == sum as real;
      Round1OfInt(sum);
    } else if t < 4 {
      if avg >= 4.0 {
        Round1Monotone(4.0, avg);
        Round1OfInt(4);
      } else {
        assert sum as real < 4.0 * t as real;
        assert sum <= 4 * t - 1;
        assert avg <= 4.0 - 1.0 / t as real;
        Round1Bounds(avg);
      }
    }
  }

  lemma {:induction false} SeveritySumBounds(es: seq<DamageEntry>, lo: int, hi: int)
    requires forall k :: 0 <= k < |es| ==> lo <= es[k].severity <= hi
    ensures lo * |es| <= SeveritySum(es) <= hi * |es|
    decreases |es|
  {
    if es != [] {
      SeveritySumBounds(es[..|es| - 1], lo, hi);
    }
  }

  lemma QuotientBounds(sum: real, t: real, lo: real, hi: real)
    requires t > 0.0 && lo * t <= sum <= hi * t
    ensures lo <= sum / t <= hi
  {
    var q := sum / t;
    assert q * t == sum;
    assert (q - lo) * t >= 0.0;
    assert (hi - q) * t >= 0.0;
  }

  /**
   * With every severity in `lo..hi` (whole numbers), a non-empty list has
   * its reported average in `lo..hi` as well.
   */
  lemma AverageInRange(es: seq<DamageEntry>, lo: int, hi: int)
    requires es != []
    requires forall k :: 0 <= k < |es| ==> lo <= es[k].severity <= hi
    ensures lo as real <= Summarize(es).averageSeverity <= hi as real
  {
    SeveritySumBounds(es, lo, hi);
    var avg := ExactAverage(es);
    QuotientBounds(SeveritySum(es) as real, |es| as real, lo as real, hi as real);
    Round1Monotone(lo as real, avg);
    Round1Monotone(avg, hi as real);
    Round1OfInt(lo);
    Round1OfInt(hi);
  }

  /** The `parts` list: one entry per part detection, in order. */
  function PartEntryFor(p: Detection): (e: PartEntry)
    ensures e.name == p.name && e.box == p.box
    ensures p.name in PartsTr ==> e.nameTr == PartsTr[p.name]
    ensures p.name !in PartsTr ==> e.nameTr == p.name
  {
    PartEntry(p.name, Translate(PartsTr, p.name), p.box)
  }

  /**
   * `analyze_image` after inference: the matching loop over the damage
   * detections, the loop over the part detections, and the summary.
   */
  method AnalyzeImage(width: int, height: int, damages: seq<Detection>, parts: seq<Detection>) returns (result: AnalysisResult)
    ensures |result.damages| == |damages|
    ensures forall k :: 0 <= k < |damages| ==> result.damages[k] == EntryFor(damages[k], parts)
    ensures |result.parts| == |parts|
    ensures forall k :: 0 <= k < |parts| ==> result.parts[k] == PartEntryFor(parts[k])
    ensures result.summary == Summarize(result.damages)
    ensures result.imageSize == ImageSize(width, height)
  {
    var entries: seq<DamageEntry> := [];
    for i := 0 to |damages|
      invariant |entries| == i
      invariant forall k :: 0 <= k < i ==> entries[k] == EntryFor(damages[k], parts)
    {
      var d := damages[i];
      var bestIou, bestPart, bestPartBox := MatchPart(d.box, parts);
      var matched := bestIou > MatchThreshold;
      var entry := DamageEntry(
        d.name,
        Translate(DamageTr, d.name),
        d.confidence * 100.0,
        Severity(d.name),
        d.box,
        if matched then bestPart else None,
        if matched then Some(Translate(PartsTr, bestPart.value)) else None,
        if matched then bestPartBox else None,
        bestIou);
      entries := entries + [entry];
    }
    var partEntries: seq<PartEntry> := [];
    for j := 0 to |parts|
      invariant |partEntries| == j
      invariant forall k :: 0 <= k < j ==> partEntries[k] == PartEntryFor(parts[k])
    {
      var p := parts[j];
      partEntries := partEntries + [PartEntry(p.name, Translate(PartsTr, p.name), p.box)];
    }
    result := AnalysisResult(entries, partEntries, Summarize(entries), ImageSize(width, height));
  }

  /** Every entry the service produces carries a severity in 2..5, so its report average is in 2..5. */
  lemma AnalysisAverageInRange(damages: seq<Detection>, parts: seq<Detection>, es: seq<DamageEntry>)
    requires es != [] && |es| == |damages|
    requires forall k :: 0 <= k < |damages| ==> es[k] == EntryFor(damages[k], parts)
    ensures 2.0 <= Summarize(es).averageSeverity <= 5.0
  {
    AverageInRange(es, 2, 5);
  }

  /** The severity column of the PDF table: `"●" * s + "○" * (5 - s)`. */
  function PdfSeverityDots(severity: int): (s: string)
    ensures 0 <= severity <= 5 ==> |s| == 5
    ensures 0 <= severity <= 5 ==> forall k :: 0 <= k < 5 ==> (s[k] == '●' <==> k < severity)
    ensures 0 <= severity <= 5 ==> forall k :: severity <= k < 5 ==> s[k] == '○'
    ensures severity > 5 ==> s == Repeat('●', severity)
  {
    Repeat('●', severity) + Repeat('○', 5 - severity)
  }
}
