# Car damage analysis: verified model of the matching, summary and annotation logic

This project models the deterministic core of a car-damage analysis system in Dafny and proves properties of it. Two YOLO detectors find damages and car parts in a photo. The system then:

- attaches to each damage the part it overlaps most;
- summarises the damages into counts, an average severity and a three-level risk classification;
- draws the damages, with callouts, over the photo on the result page.

The model covers four pieces of the repository.

- **Matching** (`matching.dfy`, `server.dfy`) models `backend/server.py`:
  - the `box_iou` overlap measure;
  - the best-part matching loop of `analyze_image`, with its 0.1 threshold;
  - the Turkish translation and severity lookups, with their fallbacks;
  - the summary statistics and the risk level;
  - the severity-dots column of the PDF report.
- **Merge demo** (`merge_demo.dfy`) models `src/yolo/demo_merge_damage_parts.py`:
  - the variant `box_iou` that also returns the overlap and both areas;
  - the best-index search with its -1 sentinel;
  - the `merged_results` records, with the damage-to-part area ratio.
- **YOLO preparation** (`yolo_prep.dfy`) models `src/yolo/prepare_damage_yolo.py`:
  - pixel `[x, y, w, h]` boxes to YOLO's normalised centre form;
  - the `cls_to_id` class index;
  - the zero-padded `damage_NNNNN` file names;
  - the dataset loop.
- **Annotations** (`annotations.dfy`) models `frontend/src/pages/ResultPage.js`:
  - the "contain" fit of the image in its container;
  - the affine mapping of boxes;
  - the left/right side and row of each callout, and the Bézier connector with its anchor dot. The connector's side is taken as the page takes it, against the middle of the canvas's whole-pixel width;
  - `drawAnnotations` as a method on a `Canvas` object whose context calls are recorded as a sequence of draw commands;
  - the callout cards, `SeverityDots`, `RiskBadge` and the part text of the damage list.

Shared pieces:

- `wrappers.dfy` holds `Option` and `Result`.
- `py_strings.dfy` holds Python's string repetition.

All arithmetic is over exact reals; Python's `1e-6` is the constant `Epsilon`. Detector outputs are inputs: each detection is a `Detection(box, name, confidence)`, where `name` is the class name the detector's `names` table gives. The container's measured size is an input to the drawing code.

Where the documented behaviour and the code differ, the model follows the code:

- The documented behaviour skips drawing for degenerate dimensions and skips zero-width boxes. The code does neither: it divides by the image and container sizes without a guard, and draws every box. Positive sizes are therefore preconditions, and zero-width boxes are drawn.
- The risk levels are the code's Turkish strings "Düşük", "Orta" and "Yüksek", not English labels.

## Model

| member | source | states |
|---|---|---|
| Matching.InterAtMostAreas | backend/server.py:151-156 | For any two boxes, even malformed ones, the clamped overlap area is non-negative and at most each clamped box area. |
| Matching.Union | backend/server.py:158 | The IoU denominator is at least 1e-6, so the division is always defined. |
| Matching.Iou | backend/server.py:144-159 | The IoU lies in [0, 1), and it is 0 exactly when the overlap area is 0. |
| Matching.IouSymmetric | backend/server.py:144-159 | The IoU of a and b equals the IoU of b and a. |
| Matching.IouZeroIffDisjoint | backend/server.py:151-153 | The IoU is 0 exactly when the boxes fail to overlap horizontally or vertically. |
| Matching.Scan | backend/server.py:199-208 | The matching loop as a function: the index is -1 or a valid part index; -1 carries IoU 0; otherwise the IoU is that part's IoU and is positive. |
| Matching.ScanIsFirstArgmax | backend/server.py:199-208 | The scan's IoU is the maximum over all parts. Every earlier part has strictly smaller IoU, so ties keep the first. The index is -1 exactly when no part overlaps at all. |
| Server.Translate | backend/server.py:216 | A known name gets the table's translation, and an unknown name comes back unchanged. |
| Server.Severity | backend/server.py:218 | A known damage type gets its table severity and an unknown one gets the default 3. Either way the severity lies in 2..5. |
| Server.EntryFor | backend/server.py:210-224 | The entry keeps the damage's type, box and translated type. Its confidence is the detection's confidence × 100, its severity comes from the lookup, and its IoU is the loop's best IoU, whether or not a part is attached. A part is attached exactly when that IoU exceeds 0.1. `part`, `part_tr` and `part_box` are all set or all absent, and `part_tr` is the translated part name. |
| Server.EntryPartIsBestOverlap | backend/server.py:199-222 | An attached part has maximal IoU with the damage, and it is the earliest such part. No part is attached exactly when every part's IoU is at most 0.1, which includes an empty part list. |
| Server.MatchPart | backend/server.py:199-208 | The loop's best IoU, best part name and best part box are those of the first maximal-IoU part. All three stay at 0 / None when no part overlaps. |
| Server.PartNamesAreAttached | backend/server.py:239 | A name is counted among the affected parts exactly when it is non-empty and some entry carries it. |
| Server.PartNamesBound | backend/server.py:239 | There are no more distinct affected parts than entries. |
| Server.RiskLevel | backend/server.py:242-246 | "Yüksek" exactly when avg ≥ 4 or total ≥ 4. Otherwise "Orta" exactly when avg ≥ 2.5 or total ≥ 2. Otherwise "Düşük". |
| Server.RiskMonotone | backend/server.py:242-246 | A higher average or more damages never lowers the risk level. |
| Server.Summarize | backend/server.py:237-246 | The total is the number of entries. The affected parts are the number of distinct non-empty attached part names, at most the total. The average is the severity sum over max(1, total), rounded to one decimal. The risk level is the classification of that rounded average and the total. An empty list gives average 0 and "Düşük". |
| Server.Round1Bounds | backend/server.py:240 | Rounding to one decimal moves a value by less than 0.05 down and at most 0.05 up. |
| Server.Round1Monotone | backend/server.py:240 | Rounding to one decimal preserves order. |
| Server.Round1OfInt | backend/server.py:240 | Rounding to one decimal leaves whole numbers unchanged. |
| Server.RiskFromExactAverage | backend/server.py:240-246 | Classifying the rounded average gives the same risk level as classifying the exact average. |
| Server.SeveritySumBounds | backend/server.py:240 | With every severity in lo..hi, the sum lies between lo·n and hi·n. |
| Server.AverageInRange | backend/server.py:240 | With every severity in lo..hi, the reported average of a non-empty list lies in lo..hi. |
| Server.AnalysisAverageInRange | backend/server.py:218 | The reported average of any non-empty list of service entries lies in 2..5. |
| Server.PartEntryFor | backend/server.py:229-235 | A part entry keeps the part's name and box. Its translated name is the table's translation for a known name and the name itself otherwise. |
| Server.AnalyzeImage | backend/server.py:197-258 | One damage entry per damage detection, in order, each the matched entry. One part entry per part detection, in order. The summary is computed from the entries, and the image size is passed through. |
| Server.PdfSeverityDots | backend/server.py:444 | For a severity in 0..5 the string has five symbols: '●' at the positions below the severity and '○' at the rest. A larger severity gives only '●'. |
| MergeDemo.BoxIou | src/yolo/demo_merge_damage_parts.py:7-24 | The tuple's IoU is the backend's IoU. Its overlap is the product of the clamped overlap width and height, and its areas are the clamped areas. The overlap lies between 0 and each area, and the IoU is overlap / (areaA + areaB − overlap + 1e-6). |
| MergeDemo.BestPart | src/yolo/demo_merge_damage_parts.py:80-91 | The index stays -1, with IoU, overlap and area 0, exactly when no part overlaps. Otherwise it is the first part of maximal IoU, with that part's overlap and area. |
| MergeDemo.MergedFor | src/yolo/demo_merge_damage_parts.py:93-111 | The record keeps the damage's type and confidence and carries the best IoU. A part and an area ratio are present together, exactly when the IoU exceeds 0.1. Both come from the part at `best_idx`, the scan's index: the ratio is the damage area / (that part's area + 1e-6). |
| MergeDemo.MergedPartIsFirstBest | src/yolo/demo_merge_damage_parts.py:85-100 | The named part and the area behind the ratio are those of a part of maximal IoU, and every earlier part has strictly smaller IoU, so ties go to the first part. |
| MergeDemo.MergeDamageParts | src/yolo/demo_merge_damage_parts.py:76-111 | Exactly one record per damage detection, in detection order. |
| MergeDemo.AgreesWithService | src/yolo/demo_merge_damage_parts.py:79-109 | The demo attaches the same part, with the same IoU, as the backend service. |
| YoloPrep.Normalize | src/yolo/prepare_damage_yolo.py:26-30 | Denormalising the normalised box recovers the pixel box: (x_c − w_n/2)·W = x and w_n·W = w, and the same for y. |
| YoloPrep.NormalizedInUnitRange | src/yolo/prepare_damage_yolo.py:26-30 | A box inside the image has all four normalised values in [0, 1]. |
| YoloPrep.IndexMap | src/yolo/prepare_damage_yolo.py:17 | The index map's keys are exactly the listed names, and each name's value is a position holding that name. |
| YoloPrep.IndexMapOfDistinct | src/yolo/prepare_damage_yolo.py:17 | For a list without repeats, each name maps to its own position. |
| YoloPrep.ClassId | src/yolo/prepare_damage_yolo.py:32 | The id lookup succeeds exactly for the six class names, and the class list at the returned id is the category. An unknown category is an error naming it, like Python's KeyError. |
| YoloPrep.ClassIdsAreIndices | src/yolo/prepare_damage_yolo.py:16-17 | Each class's id is its position in the class list. |
| YoloPrep.Pad5 | src/yolo/prepare_damage_yolo.py:35-36 | The padded index is all digits, reads back as the index, and has at least five characters, exactly five below 100000. From 100000 on it is the plain decimal, with no leading zeros. |
| YoloPrep.Stem | src/yolo/prepare_damage_yolo.py:35-36 | The stem is `damage_` followed by digits that read back as the index, twelve characters for indices below 100000. |
| YoloPrep.SameNameSameIndex | src/yolo/prepare_damage_yolo.py:35-36 | Equal file names come from equal sample indices. |
| YoloPrep.NamesAreDistinct | src/yolo/prepare_damage_yolo.py:35-36 | Distinct indices give distinct image names and distinct label names. A sample's image and label share the stem `damage_` + padded index. |
| YoloPrep.LabelFor | src/yolo/prepare_damage_yolo.py:26-41 | A sample's label carries the id of its class, at which the class list holds the sample's category. Its box denormalises back to the sample's pixel box, and its files are the index's stem with `.jpg` and `.txt`. |
| YoloPrep.PrepareDataset | src/yolo/prepare_damage_yolo.py:19-41 | One label per sample, in order, each the normalised box and class id under the index's names. An unknown category stops the loop at that sample and is reported; otherwise every sample is written. All image names written are distinct. |
| Annotations.WideFit | frontend/src/pages/ResultPage.js:89-93 | In the wide branch, the display height is the scale times the image height, and it fits in the container's height. |
| Annotations.TallFit | frontend/src/pages/ResultPage.js:94-99 | In the tall branch, the display width is the scale times the image width, and it fits in the container's width. |
| Annotations.WideBranch | frontend/src/pages/ResultPage.js:89-93 | The wide branch fills the container's width at offset 0 and centres the image vertically within the container's height, with one positive scale on both axes. |
| Annotations.TallBranch | frontend/src/pages/ResultPage.js:94-99 | The tall branch fills the container's height at offset 0 and centres the image horizontally within the container's width, with one positive scale on both axes. |
| Annotations.ContainFit | frontend/src/pages/ResultPage.js:84-102 | One positive scale on both axes, with display size equal to scale times image size. The displayed image lies inside the container and is centred. It touches the container's width in the wide branch and its height otherwise. |
| Annotations.ContainFitIsLargest | frontend/src/pages/ResultPage.js:84-102 | No larger uniform scale fits the image in the container. |
| Annotations.MapBoxCorners | frontend/src/pages/ResultPage.js:108-112 | `MapBox` is affine: both corners of a box go through the same map, offset + coordinate × scale, on each axis. |
| Annotations.FullImageMapsToDisplay | frontend/src/pages/ResultPage.js:108-112 | The box covering the whole image maps exactly onto the displayed image rectangle. |
| Annotations.MappedInside | frontend/src/pages/ResultPage.js:108-112 | Under any fit that places the image inside the container, a box inside the image maps inside the displayed image and the container. |
| Annotations.MappedBoxInsideDisplay | frontend/src/pages/ResultPage.js:108-112 | A box inside the image is drawn inside the displayed image, and so inside the container. |
| Annotations.CardIsLeft | frontend/src/pages/ResultPage.js:262-264 | A card goes left exactly when x1 + x2 is less than the image width, that is, when the box's centre is left of the image's middle. |
| Annotations.SidesAgree | frontend/src/pages/ResultPage.js:129-131 | The intended connector test, the mapped centre against the container's middle, equals the card's side, judged in image space (line 264), for every box and positive sizes. This is the corrected half of the finding below; the page compares against the canvas's whole-pixel width instead. |
| Annotations.CentredSide | frontend/src/pages/ResultPage.js:129-131 | For any centred fit with one positive scale, a mapped box's centre is left of the container's middle exactly when its centre is left of the image's middle. |
| Annotations.SideStableUnderResize | frontend/src/pages/ResultPage.js:129-131 | Under the intended test, resizing the container never moves a connector to the other side. Under the page's test, that holds between whole-pixel widths; `AsWrittenSidesDisagree` shows it can fail for a fractional width. |
| Annotations.AsWrittenSideOnWholeWidths | frontend/src/pages/ResultPage.js:131 | With a whole-pixel container width, the page's test against the canvas width agrees with the test against the container width. |
| Annotations.AsWrittenSidesDisagree | frontend/src/pages/ResultPage.js:131 | A concrete image, container and box for which the page's connector goes right while the card goes left. |
| Annotations.RowTop | frontend/src/pages/ResultPage.js:133 | A row's top is at least 60 px, and (top − 60) / 80 is the damage index, so the row depends only on the list position. |
| Annotations.RowsIncrease | frontend/src/pages/ResultPage.js:133 | Callout rows go down strictly with the damage index, at least 80 px apart. |
| Annotations.Connector | frontend/src/pages/ResultPage.js:129-147 | The curve starts on the box's outer edge for its side, at mid-height. The control points sit 30 px further out, level with the start and with the row, giving horizontal tangents. The curve ends on the row at x = 160 (left) or canvas width − 160 (right). |
| Annotations.ItemCommands | frontend/src/pages/ResultPage.js:107-153 | A damage draws exactly three commands. First its mapped box. Then the `Connector` curve for that box, on the page's side, to its row: it starts on the box edge at mid-height, its control points sit 30 px outward at mid-height and at the row, and it ends 160 px in from the canvas edge. Last the anchor dot at the curve's start. |
| Annotations.Frame | frontend/src/pages/ResultPage.js:104-154 | A frame has one command for the clear plus three per damage, and starts by clearing the whole canvas at its whole-pixel size. |
| Annotations.DamageCommandsAt | frontend/src/pages/ResultPage.js:107-154 | The loop issues exactly three commands per damage, and the k-th triple is damage k's box, curve and dot. None of them is a clear. |
| Annotations.FrameLayout | frontend/src/pages/ResultPage.js:104-154 | A frame is one clear of the whole canvas, then per damage, in order: its mapped box, the `Connector` curve from that box to its row on the side the page picks, and an anchor dot at the curve's start. Nothing after the first command clears. |
| Annotations.EmptyFrameOnlyClears | frontend/src/pages/ResultPage.js:104-107 | With no damages, a frame is only the clear. |
| Annotations.ShownAfterClear | frontend/src/pages/ResultPage.js:104 | After calls starting with a clear and containing no other clear, the canvas shows exactly those calls, whatever came before. |
| Annotations.RedrawShowsOnlyFrame | frontend/src/pages/ResultPage.js:104 | After a redraw the canvas shows exactly the new frame, so drawing the same inputs again changes nothing that is shown. |
| Annotations.DrawAnnotations | frontend/src/pages/ResultPage.js:71-155 | With the canvas, image or analysis missing, nothing changes. Otherwise the canvas is resized to the container's whole-pixel size and exactly one frame is appended to its calls. The frame takes each connector's side against the canvas's whole-pixel width, as line 131 does. |
| Annotations.DrawDamage | frontend/src/pages/ResultPage.js:107-153 | One run of the loop body appends exactly the damage's three commands and leaves the canvas size alone. |
| Annotations.SeverityDots | frontend/src/pages/ResultPage.js:10-21 | Five dots, the dot at position k filled exactly when k < severity, that is dot i (1..5) filled iff i ≤ severity. |
| Annotations.DotsCount | frontend/src/pages/ResultPage.js:13-16 | The number of filled dots among n is the severity clamped to 0..n. |
| Annotations.SeverityDotsCount | frontend/src/pages/ResultPage.js:13-16 | As many dots are filled as the severity, clamped to 0..5. |
| Annotations.DotsMatchReport | frontend/src/pages/ResultPage.js:13-16 | For severities 0..5, the page's dots and the PDF report's dot string (server.py:444) fill the same positions. |
| Annotations.AverageDots | frontend/src/pages/ResultPage.js:324 | The summary shows five dots, the dot at position k filled exactly when the average is at least k + 0.5, as `Math.round` gives. For an average in 0..5 the filled count is within half a dot of the average. |
| Annotations.RiskBadgeClass | frontend/src/pages/ResultPage.js:24-36 | Each of the three risk levels gets its own colour class, and any other string gets grey. |
| Annotations.ReportedRiskHasColour | frontend/src/pages/ResultPage.js:25-32 | Every risk level the service reports gets a real colour, never the grey fallback. |
| Annotations.Cards | frontend/src/pages/ResultPage.js:261-275 | Exactly one callout card per damage, in list order, the k-th card being damage k's card at row k. |
| Annotations.CardFor | frontend/src/pages/ResultPage.js:261-292 | A card goes left exactly when its box's centre is left of the image's middle. Its top is the damage's row. It shows the translated type, the confidence and five dots filled below the severity. It has a part line exactly when the translated part name is present and non-empty. |
| Annotations.CardsMeetConnectors | frontend/src/pages/ResultPage.js:261-275 | Every card's top is the row its connector ends on. The connector starts on the box edge of the side the page picks and ends 160 px in from that side of the canvas. With a whole-pixel container width that side is the card's side. |
| Annotations.DetailPartText | frontend/src/pages/ResultPage.js:359 | The damage list shows the part's name when there is a non-empty one, and "Belirsiz parça" otherwise. |
| Annotations.UnmatchedDamageShowsPlaceholder | frontend/src/pages/ResultPage.js:359 | A damage with best IoU at most 0.1 is listed with "Belirsiz parça". |

## Left out

- **Model inference.** YOLO loading and prediction are not modelled, nor tensor extraction or the class-id-to-name lookup (`names[int(cls)]`). Detections are given as inputs that already carry class names.
- **Service plumbing.** FastAPI routes, MongoDB, base64/JPEG encoding, the thumbnail and the ReportLab PDF layout are I/O. The only piece of the PDF modelled is the severity-dots string.
- **Ids and timestamps.** The random `uuid` id of each damage entry and the analysis timestamps are not modelled.
- **Float rounding and formatting.** `round(confidence * 100, 1)`, `round(iou, 3)` and the demo's `round(…, 3)` are kept as exact values, and the `.6f` label formatting is not modelled. The properties are stated before rounding.
- Server.Summarize: the average is rounded half-up on exact reals. Python's `round(x, 1)` rounds the nearest binary float half-to-even. `RiskFromExactAverage` shows the risk level does not depend on that rounding.
- **File and image output.** The dataset script's image saving and label writing are left out; `PrepareDataset` returns the labels it would write. The demo's cv2 drawing, file output and console printing are left out too.
- **UI state.** React state, effects, axios, routing and the framer-motion animation offsets are not modelled. The entrance offsets and delays of the cards are not modelled.
- Annotations.DrawAnnotations: style calls are not recorded. `strokeStyle`, `lineWidth`, `setLineDash`, `fillStyle`, `beginPath`, `stroke` and `fill` are folded into one box, one curve and one dot command each.
- Annotations.DrawAnnotations: `getBoundingClientRect` is not modelled. The container's measured size is a parameter, and an absent image is an absent container size.
- **Card position.** The CSS offsets `left-2` / `right-2` and the cards' text styling are not modelled. The model keeps each card's side and top.
- SideStableUnderResize (Annotations): for the page as written, stability under resizing is proved only between whole-pixel container widths. A resize to a fractional width can move a connector, as the finding below shows.
- CardsMeetConnectors (Annotations): that the connector goes to the card's side is proved only for whole-pixel container widths. For fractional widths the page's test can send them apart, as the finding below shows.
- RiskBadgeClass (Annotations): the page looks the level up in a plain JavaScript object. A level naming an inherited property, such as "constructor", would therefore not get grey. The model treats every string other than the three levels as unknown. The service only ever sends the three levels (`ReportedRiskHasColour`).
- **Other pages and components.** `UploadPage.js`, `HistoryPage.js`, `Header.js` and `App.js` are not part of this model.
- **Training and exploration scripts.** These are wrappers around libraries and are not part of this model.

## Findings

| source | as written | input that shows it | evidently intended | confidence | as-written member | corrected member |
|---|---|---|---|---|---|---|
| frontend/src/pages/ResultPage.js:131 | The side test compares with `canvas.width / 2`. `canvas.width` was assigned the container's width, and canvas width is an integer attribute, so a fractional width is truncated. The fit uses the untruncated width. | Image 1000×500, container 800.5×800, damage box [498.8, 100, 500.8, 200]. The card goes left (centre 499.8 < 500), but the mapped centre 400.09 ≥ 400, so the connector goes right. | The connector goes to the same side as its card, which means comparing with the container's middle. | medium, not executed | Annotations.AsWrittenSidesDisagree | Annotations.SidesAgree |
