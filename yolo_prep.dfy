/**
 * The label conversion of src/yolo/prepare_damage_yolo.py: pixel boxes to
 * YOLO's normalised centre form, the class-name index, the zero-padded file
 * names, and the loop that writes one image and one label per sample.
 */
module YoloPrep {
  import opened Wrappers
  import opened PyStrings

  /** A dataset box `[x, y, width, height]` in pixels, top-left corner first. */
  datatype PixelBox = PixelBox(x: real, y: real, w: real, h: real)

  /** A YOLO box: centre and size as fractions of the image size. */
  datatype YoloBox = YoloBox(xc: real, yc: real, w: real, h: real)

  /** The inverse of the normalisation: back to a top-left pixel box. */
  function Denormalize(n: YoloBox, width: real, height: real): PixelBox
  {
    PixelBox((n.xc - n.w / 2.0) * width, (n.yc - n.h / 2.0) * height, n.w * width, n.h * height)
  }

  lemma CentreRoundTrip(x: real, bw: real, w: real)
    requires w > 0.0
    ensures ((x + bw / 2.0) / w - (bw / w) / 2.0) * w == x
    ensures (bw / w) * w == bw
  {
    assert (x + bw / 2.0) / w * w == x + bw / 2.0;
    assert (bw / w) / 2.0 * w == bw / 2.0;
  }

  /** `x_c, y_c, bw_n, bh_n` for an image of `width` x `height` pixels. */
  function Normalize(b: PixelBox, width: int, height: int): (n: YoloBox)
    requires width > 0 && height > 0
    ensures Denormalize(n, width as real, height as real) == b
  {
    var w, h := width as real, height as real;
    CentreRoundTrip(b.x, b.w, w);
    CentreRoundTrip(b.y, b.h, h);
    YoloBox((b.x + b.w / 2.0) / w, (b.y + b.h / 2.0) / h, b.w / w, b.h / h)
  }

  predicate InUnitRange(v: real) { 0.0 <= v <= 1.0 }

  lemma FractionInUnitRange(p: real, w: real)
    requires w > 0.0 && 0.0 <= p <= w
    ensures InUnitRange(p / w)
  {
    assert p / w * w == p;
  }

  /** A box lying inside the image has all four normalised values in [0, 1]. */
  lemma NormalizedInUnitRange(b: PixelBox, width: int, height: int)
    requires width > 0 && height > 0
    requires 0.0 <= b.x && 0.0 <= b.w && b.x + b.w <= width as real
    requires 0.0 <= b.y && 0.0 <= b.h && b.y + b.h <= height as real
    ensures var n := Normalize(b, width, height);
      InUnitRange(n.xc) && InUnitRange(n.yc) && InUnitRange(n.w) && InUnitRange(n.h)
  {
    var w, h := width as real, height as real;
    FractionInUnitRange(b.x + b.w / 2.0, w);
    FractionInUnitRange(b.y + b.h / 2.0, h);
    FractionInUnitRange(b.w, w);
    FractionInUnitRange(b.h, h);
  }

  /** The dataset's damage classes, in label-id order. */
  const Classes: seq<string> := ["crack", "dent", "glass shatter", "lamp broken", "scratch", "tire flat"]

  /** `{c: i for i, c in enumerate(cs)}`: a later occurrence overwrites an earlier one. */
  function IndexMap(cs: seq<string>): (m: map<string, nat>)
    ensures m.Keys == set c | c in cs
    ensures forall c :: c in m ==> m[c] < |cs| && cs[m[c]] == c
    decreases |cs|
  {
    if cs == [] then map[]
    else IndexMap(cs[..|cs| - 1])[cs[|cs| - 1] := |cs| - 1]
  }

  predicate Distinct(cs: seq<string>)
  {
    forall i, j :: 0 <= i < j < |cs| ==> cs[i] != cs[j]
  }

  /** On a list without repeats, every name maps back to its own position. */
  lemma {:induction false} IndexMapOfDistinct(cs: seq<string>, i: nat)
    requires Distinct(cs) && i < |cs|
    ensures cs[i] in IndexMap(cs) && IndexMap(cs)[cs[i]] == i
    decreases |cs|
  {
    var n := |cs| - 1;
    if i < n {
      assert cs[..n][i] == cs[i];
      IndexMapOfDistinct(cs[..n], i);
    }
  }

  /** `cls_to_id`. */
  const ClassToId: map<string, nat> := IndexMap(Classes)

  /** `cls_to_id[cat]`: the label id, or the KeyError an unknown category raises. */
  function ClassId(category: string): (r: Result<nat, string>)
    ensures r.Ok? <==> category in Classes
    ensures r.Ok? ==> r.value < |Classes| && Classes[r.value] == category
    ensures r.Err? ==> r.error == category
  {
    if category in ClassToId then Ok(ClassToId[category]) else Err(category)
  }

  /** Each class id names its own class: `cls_to_id[classes[i]] == i`. */
  lemma ClassIdsAreIndices(i: nat)
    requires i < |Classes|
    ensures ClassId(Classes[i]) == Ok(i)
  {
    IndexMapOfDistinct(Classes, i);
  }

  predicate IsDigits(s: string)
  {
    forall k :: 0 <= k < |s| ==> '0' <= s[k] <= '9'
  }

  function DigitChar(d: nat): (c: char)
    requires d < 10
    ensures '0' <= c <= '9' && (c as int) - ('0' as int) == d
  {
    (('0' as int) + d) as char
  }

  /** Decimal digits of `n`, without leading zeros. */
  function Decimal(n: nat): (s: string)
    ensures 1 <= |s| && IsDigits(s)
    decreases n
  {
    if n < 10 then [DigitChar(n)] else Decimal(n / 10) + [DigitChar(n % 10)]
  }

  /** The number a digit string denotes. */
  function ValueOf(s: string): nat
    requires IsDigits(s)
  {
    if s == [] then 0 else ValueOf(s[..|s| - 1]) * 10 + ((s[|s| - 1] as int) - ('0' as int))
  }

  lemma {:induction false} ValueOfDecimal(n: nat)
    ensures ValueOf(Decimal(n)) == n
    decreases n
  {
    if n >= 10 {
      var s := Decimal(n);
      assert s[..|s| - 1] == Decimal(n / 10);
      ValueOfDecimal(n / 10);
    }
  }

  lemma {:induction false} ValueOfZeros(z: int)
    ensures IsDigits(Repeat('0', z)) && ValueOf(Repeat('0', z)) == 0
    decreases z
  {
    if z > 0 {
      assert Repeat('0', z)[..z - 1] == Repeat('0', z - 1);
      ValueOfZeros(z - 1);
    }
  }

  /** Leading zeros do not change the value of a digit string. */
  lemma {:induction false} ValueOfPadded(z: int, s: string)
    requires IsDigits(s)
    ensures IsDigits(Repeat('0', z) + s) && ValueOf(Repeat('0', z) + s) == ValueOf(s)
    decreases |s|
  {
    ValueOfZeros(z);
    var p := Repeat('0', z) + s;
    if s != [] {
      assert p[..|p| - 1] == Repeat('0', z) + s[..|s| - 1];
      ValueOfPadded(z, s[..|s| - 1]);
    } else {
      assert p == Repeat('0', z);
    }
  }

  lemma {:induction false} DecimalLength(n: nat)
    ensures n < 100000 ==> |Decimal(n)| <= 5
    ensures n < 10000 ==> |Decimal(n)| <= 4
    ensures n < 1000 ==> |Decimal(n)| <= 3
    ensures n < 100 ==> |Decimal(n)| <= 2
    ensures n >= 10 ==> |Decimal(n)| >= 2
    ensures n >= 100 ==> |Decimal(n)| >= 3
    ensures n >= 1000 ==> |Decimal(n)| >= 4
    ensures n >= 10000 ==> |Decimal(n)| >= 5
    decreases n
  {
    if n >= 10 {
      DecimalLength(n / 10);
    }
  }

  /** `f"{i:05d}"`: the decimal digits of `i`, left-padded with zeros to five characters. */
  function Pad5(i: nat): (s: string)
    ensures IsDigits(s) && ValueOf(s) == i
    ensures |s| >= 5 && (i < 100000 ==> |s| == 5)
    ensures i >= 100000 ==> s == Decimal(i)
  {
    var d := Decimal(i);
    ValueOfDecimal(i);
    ValueOfPadded(5 - |d|, d);
    DecimalLength(i);
    Repeat('0', 5 - |d|) + d
  }

  /** The stem `damage_` + the zero-padded index. */
  function Stem(i: nat): (s: string)
    ensures |s| >= 12 && s[..7] == "damage_"
    ensures IsDigits(s[7..]) && ValueOf(s[7..]) == i
    ensures i < 100000 ==> |s| == 12
  {
    assert ("damage_" + Pad5(i))[7..] == Pad5(i);
    "damage_" + Pad5(i)
  }

  function ImageName(i: nat): string
  {
    Stem(i) + ".jpg"
  }

  function LabelName(i: nat): string
  {
    Stem(i) + ".txt"
  }

  /** Equal names come from equal indices: the padded index is read back from the name. */
  lemma SameNameSameIndex(i: nat, j: nat, suffix: string)
    requires Stem(i) + suffix == Stem(j) + suffix
    ensures i == j
  {
    var a := Stem(i) + suffix;
    assert |Stem(i)| == |Stem(j)|;
    assert Stem(i) == a[..|Stem(i)|] == Stem(j);
    assert ValueOf(Stem(i)[7..]) == i && ValueOf(Stem(j)[7..]) == j;
  }

  /**
   * Distinct sample indices get distinct image names and distinct label
   * names, and the image and label of one sample share their stem.
   */
  lemma NamesAreDistinct(i: nat, j: nat)
    ensures i != j ==> ImageName(i) != ImageName(j) && LabelName(i) != LabelName(j)
    ensures ImageName(i)[..|ImageName(i)| - 4] == LabelName(i)[..|LabelName(i)| - 4] == Stem(i)
  {
    if ImageName(i) == ImageName(j) {
      SameNameSameIndex(i, j, ".jpg");
    }
    if LabelName(i) == LabelName(j) {
      SameNameSameIndex(i, j, ".txt");
    }
  }

  /** One dataset sample: the image size, its box and its category name. */
  datatype Sample = Sample(width: int, height: int, bbox: PixelBox, category: string)

  /** The image and label file written for one sample, the label as its class id and box. */
  datatype LabelFile = LabelFile(imageName: string, labelName: string, classId: nat, box: YoloBox)

  function LabelFor(i: nat, s: Sample): (l: LabelFile)
    requires s.width > 0 && s.height > 0 && s.category in Classes
    ensures l.classId < |Classes| && Classes[l.classId] == s.category
    ensures Denormalize(l.box, s.width as real, s.height as real) == s.bbox
    ensures l.imageName == Stem(i) + ".jpg" && l.labelName == Stem(i) + ".txt"
  {
    LabelFile(ImageName(i), LabelName(i), ClassId(s.category).value, Normalize(s.bbox, s.width, s.height))
  }

  /**
   * The script's loop: one image and one label file per sample, in order,
   * until a sample's category is unknown, where the KeyError stops the script
   * before anything is written for that sample.
   */
  method PrepareDataset(samples: seq<Sample>) returns (written: seq<LabelFile>, failure: Option<string>)
    requires forall k :: 0 <= k < |samples| ==> samples[k].width > 0 && samples[k].height > 0
    ensures |written| <= |samples|
    ensures forall k :: 0 <= k < |written| ==> samples[k].category in Classes && written[k] == LabelFor(k, samples[k])
    ensures failure.None? <==> |written| == |samples|
    ensures failure.Some? ==> samples[|written|].category !in Classes && failure.value == samples[|written|].category
    ensures forall k, l :: 0 <= k < l < |written| ==> written[k].imageName != written[l].imageName
  {
    written, failure := [], None;
    var i := 0;
    while i < |samples|
      invariant 0 <= i <= |samples| && |written| == i
      invariant forall k :: 0 <= k < i ==> samples[k].category in Classes && written[k] == LabelFor(k, samples[k])
    {
      var sample := samples[i];
      var w, h := sample.width, sample.height;
      var n := Normalize(sample.bbox, w, h);
      var id := ClassId(sample.category);
      if id.Err? {
        failure := Some(id.error);
        break;
      }
      written := written + [LabelFile(ImageName(i), LabelName(i), id.value, n)];
      i := i + 1;
    }
    forall k, l | 0 <= k < l < |written|
      ensures written[k].imageName != written[l].imageName
    {
      NamesAreDistinct(k, l);
    }
  }
}
