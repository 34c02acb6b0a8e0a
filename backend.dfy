/** The detection server's record logic: choosing a plate text among OCR results, keeping
    plate detections, counting vehicles, appending to the vehicle table without repeating a
    plate seen in the last ten seconds, and the filtered, paginated plate search.

    The OCR engine, the two YOLO models and the spreadsheet are replaced by their outputs:
    a sequence of OCR results per image, a sequence of plate boxes, a sequence of object
    labels, and the table as a sequence of rows. The clock is the parameter `now`, in
    seconds. */
module Backend {
  import opened Wrappers
  import Text

  const MinConfidence: real := 0.4
  const MinPlateLength: nat := 5
  const PlateDetectionThreshold: real := 0.6
  const DuplicateWindowSeconds: real := 10.0
  const Unknown := "Unknown"
  const Automatic := "Automatic"
  const MissingDatabase := "Database file not found"

  // ---------------------------------------------------------------------------
  // get_ocr_text
  // ---------------------------------------------------------------------------

  /** One OCR result (the bounding box is dropped). */
  datatype OcrRead = OcrRead(text: string, conf: real)

  /** A text with its confidence, as get_ocr_text returns it. */
  datatype Reading = Reading(text: string, conf: real)

  const NoReading := Reading("", 0.0)

  predicate KeepChar(c: char) { Text.IsAlnum(c) || Text.IsSpace(c) }

  /** `''.join(c for c in text if c.isalnum() or c.isspace())` */
  function CleanText(text: string): (r: string)
    ensures |r| <= |text|
    ensures forall i :: 0 <= i < |r| ==> KeepChar(r[i])
    ensures (forall i :: 0 <= i < |text| ==> KeepChar(text[i])) ==> r == text
  {
    if text == [] then []
    else (if KeepChar(text[0]) then [text[0]] else []) + CleanText(text[1..])
  }

  /** Cleaning works character by character: it distributes over concatenation ... */
  lemma {:induction false} CleanTextAppend(a: string, b: string)
    ensures CleanText(a + b) == CleanText(a) + CleanText(b)
    decreases |a|
  {
    if a == [] {
      assert a + b == b;
    } else {
      assert (a + b)[0] == a[0] && (a + b)[1..] == a[1..] + b;
      CleanTextAppend(a[1..], b);
    }
  }

  /** ... and keeps one character exactly when it is alphanumeric or whitespace. */
  lemma CleanTextChar(c: char)
    ensures CleanText([c]) == if KeepChar(c) then [c] else []
  {
    assert [c][1..] == [];
  }

  predicate HasDigit(s: string) {
    exists i :: 0 <= i < |s| && Text.IsDigit(s[i])
  }

  /** The validation rules a cleaned read must pass. */
  predicate IsPlateCandidate(cleaned: string, conf: real) {
    |cleaned| >= MinPlateLength && conf > MinConfidence && HasDigit(cleaned)
  }

  /** What a returned plate text satisfies. */
  predicate IsValidPlate(p: Reading) {
    && IsPlateCandidate(p.text, p.conf)
    && forall i :: 0 <= i < |p.text| ==> KeepChar(p.text[i])
  }

  /** One OCR result after cleaning. */
  function Cleaned(read: OcrRead): Reading {
    Reading(CleanText(read.text), read.conf)
  }

  /** The cleaned result passes the validation rules. */
  predicate Passes(read: OcrRead) {
    IsPlateCandidate(CleanText(read.text), read.conf)
  }

  /** `valid_plates`: the cleaned results that pass the rules, in reading order. */
  function Candidates(results: seq<OcrRead>): (r: seq<Reading>)
    ensures |r| <= |results|
    ensures forall i :: 0 <= i < |r| ==> IsValidPlate(r[i])
  {
    if results == [] then []
    else
      var last := results[|results| - 1];
      Candidates(results[..|results| - 1]) + (if Passes(last) then [Cleaned(last)] else [])
  }

  /** Every passing result is collected, every candidate comes from a passing result, and
      there are no candidates exactly when no result passes. */
  lemma {:induction false} CandidatesExact(results: seq<OcrRead>)
    ensures var r := Candidates(results);
      && (forall i :: 0 <= i < |results| && Passes(results[i]) ==> Cleaned(results[i]) in r)
      && (forall x :: x in r ==> exists i :: 0 <= i < |results| && Passes(results[i]) && Cleaned(results[i]) == x)
      && (r == [] <==> forall i :: 0 <= i < |results| ==> !Passes(results[i]))
  {
    if results != [] {
      var pre := results[..|results| - 1];
      CandidatesExact(pre);
      assert forall i :: 0 <= i < |pre| ==> pre[i] == results[i];
    }
  }

  /** Python's `max(c, key=conf)`: a greatest confidence, the first one on ties. */
  function BestOf(c: seq<Reading>): (k: nat)
    requires |c| > 0
    ensures k < |c|
    ensures forall j :: 0 <= j < |c| ==> c[j].conf <= c[k].conf
    ensures forall j :: 0 <= j < k ==> c[j].conf < c[k].conf
  {
    if |c| == 1 then 0
    else
      var k := BestOf(c[..|c| - 1]);
      if c[|c| - 1].conf > c[k].conf then |c| - 1 else k
  }

  /** The reading get_ocr_text returns for the given OCR results. */
  function OcrText(results: seq<OcrRead>): (r: Reading)
    ensures r.text == "" ==> r == NoReading
    ensures r.text != "" ==> IsValidPlate(r) && r in Candidates(results)
  {
    var c := Candidates(results);
    if c == [] then NoReading else c[BestOf(c)]
  }

  /** get_ocr_text: clean each read, keep the valid ones, return the most confident. */
  method GetOcrText(results: seq<OcrRead>) returns (text: string, conf: real)
    ensures Reading(text, conf) == OcrText(results)
    ensures text == "" <==> forall i :: 0 <= i < |results| ==> !Passes(results[i])
    ensures text == "" ==> conf == 0.0
    ensures text != "" ==>
      (&& IsValidPlate(Reading(text, conf))
       && exists i :: 0 <= i < |results| && Passes(results[i]) && Cleaned(results[i]) == Reading(text, conf))
    ensures forall i :: 0 <= i < |results| && Passes(results[i]) ==> results[i].conf <= conf
  {
    if |results| == 0 {
      return "", 0.0;
    }
    var valid: seq<Reading> := [];
    var i := 0;
    while i < |results|
      invariant 0 <= i <= |results|
      invariant valid == Candidates(results[..i])
    {
      var cleaned := CleanText(results[i].text);
      if IsPlateCandidate(cleaned, results[i].conf) {
        valid := valid + [Reading(cleaned, results[i].conf)];
      }
      assert results[..i + 1][..i] == results[..i];
      i := i + 1;
    }
    assert results[..i] == results;
    OcrTextChoice(results);
    if valid != [] {
      var k := BestOf(valid);
      return valid[k].text, valid[k].conf;
    }
    return "", 0.0;
  }

  /** The returned reading: empty with confidence 0 exactly when no result passes the
      rules; otherwise the cleaned text of a passing result, valid, whose confidence no
      passing result exceeds, and the first of the best among the candidates on ties. */
  lemma OcrTextChoice(results: seq<OcrRead>)
    ensures var r := OcrText(results);
      var c := Candidates(results);
      && (r.text == "" <==> forall i :: 0 <= i < |results| ==> !Passes(results[i]))
      && (r.text == "" ==> r.conf == 0.0)
      && (r.text != "" ==>
            && IsValidPlate(r)
            && (exists i :: 0 <= i < |results| && Passes(results[i]) && Cleaned(results[i]) == r)
            && (forall i :: 0 <= i < |results| && Passes(results[i]) ==> results[i].conf <= r.conf)
            && exists k :: 0 <= k < |c| && c[k] == r && forall j :: 0 <= j < k ==> c[j].conf < r.conf)
  {
    var c := Candidates(results);
    CandidatesExact(results);
    if c != [] {
      var k := BestOf(c);
      var r := c[k];
      assert r == OcrText(results);
      assert IsValidPlate(r) && r.text != "";
      assert r in c;
      BestBeatsPassing(results, k);
    }
  }

  /** No passing result is more confident than the best candidate. */
  lemma BestBeatsPassing(results: seq<OcrRead>, k: nat)
    requires k < |Candidates(results)|
    requires forall j :: 0 <= j < |Candidates(results)| ==> Candidates(results)[j].conf <= Candidates(results)[k].conf
    ensures forall i :: 0 <= i < |results| && Passes(results[i]) ==> results[i].conf <= Candidates(results)[k].conf
  {
    var c := Candidates(results);
    CandidatesExact(results);
    forall i | 0 <= i < |results| && Passes(results[i]) ensures results[i].conf <= c[k].conf {
      var x := Cleaned(results[i]);
      assert x in c;
      var j :| 0 <= j < |c| && c[j] == x;
    }
  }

  // ---------------------------------------------------------------------------
  // get_ip_camera_frame: plate boxes and vehicle counts
  // ---------------------------------------------------------------------------

  /** A plate box: the detector's confidence and the OCR results of the enhanced and of the
      raw region. */
  datatype PlateBox = PlateBox(detectionConf: real, enhancedResults: seq<OcrRead>, rawResults: seq<OcrRead>)

  datatype PlateDetection = PlateDetection(text: string, detectionConf: real, ocrConf: real)

  /** The enhanced region is read first; the raw region only when that gives no text. */
  function BoxReading(b: PlateBox): Reading {
    var e := OcrText(b.enhancedResults);
    if e.text != "" then e else OcrText(b.rawResults)
  }

  predicate IsAccepted(b: PlateBox) {
    BoxReading(b).text != "" && b.detectionConf > PlateDetectionThreshold
  }

  function DetectionOf(b: PlateBox): PlateDetection {
    PlateDetection(BoxReading(b).text, b.detectionConf, BoxReading(b).conf)
  }

  /** `detected_plates`, in box order. */
  function AcceptedPlates(boxes: seq<PlateBox>): (r: seq<PlateDetection>)
    ensures |r| <= |boxes|
    ensures forall i :: 0 <= i < |r| ==> r[i].text != "" && r[i].detectionConf > PlateDetectionThreshold
  {
    if boxes == [] then []
    else
      var b := boxes[|boxes| - 1];
      AcceptedPlates(boxes[..|boxes| - 1]) + (if IsAccepted(b) then [DetectionOf(b)] else [])
  }

  /** The `plates` field of the response. */
  function PlateTexts(ds: seq<PlateDetection>): (texts: seq<string>)
    ensures |texts| == |ds|
    ensures forall i :: 0 <= i < |ds| ==> texts[i] == ds[i].text
  {
    seq(|ds|, i requires 0 <= i < |ds| => ds[i].text)
  }

  function Min(a: real, b: real): real { if a <= b then a else b }

  /** The table after update_excel has been called for each detection in turn. */
  function LogDetections(table: seq<Row>, ds: seq<PlateDetection>, cameraUrl: string, now: real): (r: seq<Row>)
    ensures |table| <= |r| <= |table| + |ds|
    ensures r[..|table|] == table
  {
    if ds == [] then table
    else
      var d := ds[|ds| - 1];
      UpdateExcel(LogDetections(table, ds[..|ds| - 1], cameraUrl, now),
                  d.text, Min(d.detectionConf, d.ocrConf), cameraUrl, Unknown, Automatic, now)
  }

  /** Logging one more detection is one more update_excel call. */
  lemma LogDetectionsSnoc(table: seq<Row>, ds: seq<PlateDetection>, d: PlateDetection, cameraUrl: string, now: real)
    ensures LogDetections(table, ds + [d], cameraUrl, now) ==
      UpdateExcel(LogDetections(table, ds, cameraUrl, now), d.text, Min(d.detectionConf, d.ocrConf),
                  cameraUrl, Unknown, Automatic, now)
  {
    assert (ds + [d])[..|ds|] == ds;
  }

  /** The plate loop of get_ip_camera_frame: OCR each box (enhanced, then raw as a
      fallback), keep those with text and a detection confidence above 0.6, and log each
      kept plate to the table. */
  method ProcessPlateBoxes(boxes: seq<PlateBox>, table: seq<Row>, cameraUrl: string, now: real)
    returns (detected: seq<PlateDetection>, rows: seq<Row>)
    ensures detected == AcceptedPlates(boxes)
    ensures rows == LogDetections(table, detected, cameraUrl, now)
  {
    detected, rows := [], table;
    var i := 0;
    while i < |boxes|
      invariant 0 <= i <= |boxes|
      invariant detected == AcceptedPlates(boxes[..i])
      invariant rows == LogDetections(table, detected, cameraUrl, now)
    {
      var box := boxes[i];
      var plateText, ocrConf := GetOcrText(box.enhancedResults);
      if plateText == "" {
        plateText, ocrConf := GetOcrText(box.rawResults);
      }
      if plateText != "" && box.detectionConf > PlateDetectionThreshold {
        var d := PlateDetection(plateText, box.detectionConf, ocrConf);
        LogDetectionsSnoc(table, detected, d, cameraUrl, now);
        detected := detected + [d];
        rows := UpdateExcel(rows, plateText, Min(box.detectionConf, ocrConf), cameraUrl, Unknown, Automatic, now);
      }
      assert boxes[..i + 1][..i] == boxes[..i];
      i := i + 1;
    }
    assert boxes[..i] == boxes;
  }

  /** Every kept plate has a valid non-empty text and a detection confidence above 0.6. */
  lemma {:induction false} AcceptedPlatesSound(boxes: seq<PlateBox>)
    ensures forall d :: d in AcceptedPlates(boxes) ==>
      d.text != "" && d.detectionConf > PlateDetectionThreshold && IsValidPlate(Reading(d.text, d.ocrConf))
  {
    if boxes != [] {
      var b := boxes[|boxes| - 1];
      AcceptedPlatesSound(boxes[..|boxes| - 1]);
      OcrTextChoice(b.enhancedResults);
      OcrTextChoice(b.rawResults);
    }
  }

  /** Kept plates follow the order of the boxes: keeping distributes over concatenation. */
  lemma {:induction false} AcceptedPlatesAppend(a: seq<PlateBox>, b: seq<PlateBox>)
    ensures AcceptedPlates(a + b) == AcceptedPlates(a) + AcceptedPlates(b)
    decreases |b|
  {
    if b == [] {
      assert a + b == a;
    } else {
      var b' := b[..|b| - 1];
      assert (a + b)[..|a + b| - 1] == a + b';
      AcceptedPlatesAppend(a, b');
    }
  }

  /** A box's plate is kept exactly when its reading has text and its detection
      confidence exceeds 0.6; the raw region's reading is used only when the enhanced
      region gave no text. */
  lemma AcceptedPlatesSingle(b: PlateBox)
    ensures AcceptedPlates([b]) == if IsAccepted(b) then [DetectionOf(b)] else []
    ensures OcrText(b.enhancedResults).text != "" ==> BoxReading(b) == OcrText(b.enhancedResults)
    ensures BoxReading(b) != OcrText(b.enhancedResults) ==> OcrText(b.enhancedResults).text == ""
  {
    assert [b][..0] == [];
  }

  const VehicleLabels: set<string> := {"car", "truck", "bus", "motorcycle"}

  predicate IsVehicle(name: string) { name in VehicleLabels }

  /** How many times `l` occurs in `labels`. */
  function Occurrences(labels: seq<string>, l: string): nat {
    if labels == [] then 0
    else Occurrences(labels[..|labels| - 1], l) + if labels[|labels| - 1] == l then 1 else 0
  }

  /** The object loop of get_ip_camera_frame: count the vehicle labels, ignore the rest. */
  method CountVehicles(labels: seq<string>) returns (counts: map<string, nat>)
    ensures forall l :: l in counts ==> IsVehicle(l)
    ensures forall l :: l in counts ==> counts[l] == Occurrences(labels, l)
    ensures forall l :: IsVehicle(l) && Occurrences(labels, l) > 0 ==> l in counts
  {
    counts := map[];
    var i := 0;
    while i < |labels|
      invariant 0 <= i <= |labels|
      invariant forall l :: l in counts ==> IsVehicle(l)
      invariant forall l :: l in counts ==> counts[l] == Occurrences(labels[..i], l)
      invariant forall l :: IsVehicle(l) && Occurrences(labels[..i], l) > 0 ==> l in counts
    {
      var name := labels[i];
      assert labels[..i + 1][..i] == labels[..i];
      if IsVehicle(name) {
        counts := counts[name := (if name in counts then counts[name] else 0) + 1];
      }
      i := i + 1;
    }
    assert labels[..i] == labels;
  }

  /** The success response of get_ip_camera_frame: the kept plates' texts in box order,
      the vehicle counts, and the table after logging. */
  method AnalyzeFrame(boxes: seq<PlateBox>, labels: seq<string>, table: seq<Row>, cameraUrl: string, now: real)
    returns (plates: seq<string>, counts: map<string, nat>, rows: seq<Row>)
    ensures plates == PlateTexts(AcceptedPlates(boxes))
    ensures rows == LogDetections(table, AcceptedPlates(boxes), cameraUrl, now)
    ensures forall l :: l in counts ==> IsVehicle(l) && counts[l] == Occurrences(labels, l)
    ensures forall l :: IsVehicle(l) && Occurrences(labels, l) > 0 ==> l in counts
  {
    var detected;
    detected, rows := ProcessPlateBoxes(boxes, table, cameraUrl, now);
    counts := CountVehicles(labels);
    plates := PlateTexts(detected);
  }

  // ---------------------------------------------------------------------------
  // update_excel
  // ---------------------------------------------------------------------------

  /** A row of the vehicle table; the timestamp is in whole seconds, as written. */
  datatype Row = Row(
    plate: string,
    timestamp: int,
    location: string,
    vehicleType: string,
    confidence: real,
    detectionType: string)

  /** The index of the last row with the given plate. */
  function LastSighting(table: seq<Row>, plate: string): (r: Option<nat>)
    ensures r.None? ==> forall j :: 0 <= j < |table| ==> table[j].plate != plate
    ensures r.Some? ==>
      && r.value < |table|
      && table[r.value].plate == plate
      && forall j :: r.value < j < |table| ==> table[j].plate != plate
  {
    if table == [] then None
    else if table[|table| - 1].plate == plate then Some(|table| - 1)
    else LastSighting(table[..|table| - 1], plate)
  }

  function OrUnknown(s: string): string { if s != "" then s else Unknown }

  function NewRow(plateText: string, confidence: real, location: string, vehicleType: string,
                  detectionType: string, now: real): Row {
    Row(OrUnknown(plateText), now.Floor, OrUnknown(location), OrUnknown(vehicleType), confidence, detectionType)
  }

  /** The plate was last written at most ten seconds before `now`. */
  predicate SeenRecently(table: seq<Row>, plateText: string, now: real) {
    var last := LastSighting(table, plateText);
    last.Some? && now - table[last.value].timestamp as real <= DuplicateWindowSeconds
  }

  function UpdateExcel(table: seq<Row>, plateText: string, confidence: real, location: string,
                       vehicleType: string, detectionType: string, now: real): (r: seq<Row>)
    ensures r == table <==> SeenRecently(table, plateText, now)
    ensures r != table ==>
      && |r| == |table| + 1 && r[..|table|] == table
      && r[|table|].plate == OrUnknown(plateText) && r[|table|].timestamp == now.Floor
  {
    if SeenRecently(table, plateText, now) then table
    else table + [NewRow(plateText, confidence, location, vehicleType, detectionType, now)]
  }

  /** update_excel appends exactly one row at the end when no row has the plate or the last
      row with it is more than ten seconds old, and otherwise leaves the table as it was.
      The new row holds "Unknown" for an empty plate, location or vehicle type. */
  lemma UpdateExcelAppends(table: seq<Row>, p: string, confidence: real, location: string,
                           vehicleType: string, detectionType: string, now: real)
    ensures var t := UpdateExcel(table, p, confidence, location, vehicleType, detectionType, now);
      var isNew := (forall j :: 0 <= j < |table| ==> table[j].plate != p) ||
        (exists k :: 0 <= k < |table| && table[k].plate == p &&
           (forall j :: k < j < |table| ==> table[j].plate != p) &&
           now - table[k].timestamp as real > DuplicateWindowSeconds);
      && (isNew ==>
            && |t| == |table| + 1
            && t[..|table|] == table
            && t[|table|] == Row(if p == "" then Unknown else p, now.Floor,
                                 if location == "" then Unknown else location,
                                 if vehicleType == "" then Unknown else vehicleType,
                                 confidence, detectionType))
      && (!isNew ==> t == table)
  {
    var last := LastSighting(table, p);
    if last.Some? {
      var k := last.value;
      forall k' | 0 <= k' < |table| && table[k'].plate == p && (forall j :: k' < j < |table| ==> table[j].plate != p)
        ensures k' == k
      {
      }
    }
    var t := UpdateExcel(table, p, confidence, location, vehicleType, detectionType, now);
    if !SeenRecently(table, p, now) {
      assert t[..|table|] == table;
    }
  }

  /** Writing the same non-empty plate twice at the same moment stores it once: the second
      call finds the first row inside the ten-second window. */
  lemma UpdateExcelRepeatIsNoOp(table: seq<Row>, p: string, c1: real, c2: real, location: string,
                                vehicleType: string, detectionType: string, now: real)
    requires p != ""
    ensures var t := UpdateExcel(table, p, c1, location, vehicleType, detectionType, now);
      UpdateExcel(t, p, c2, location, vehicleType, detectionType, now) == t
  {
    var t := UpdateExcel(table, p, c1, location, vehicleType, detectionType, now);
    if !SeenRecently(table, p, now) {
      assert t[|t| - 1].plate == p;
      assert LastSighting(t, p) == Some(|t| - 1);
      assert now - now.Floor as real < 1.0;
    }
  }

  // ---------------------------------------------------------------------------
  // search_number_plate
  // ---------------------------------------------------------------------------

  datatype SearchReply =
    | SearchOk(data: seq<Row>, total: nat, page: int, limit: int)
    | SearchFailed(error: string)

  /** `str.contains(plate, case=False)` on the plate column, taken as a literal substring. */
  predicate PlateMatches(row: Row, plate: string) {
    Text.Contains(Text.Lower(row.plate), Text.Lower(plate))
  }

  function FilterByPlate(table: seq<Row>, plate: string): (r: seq<Row>)
    ensures |r| <= |table|
    ensures forall i :: 0 <= i < |r| ==> PlateMatches(r[i], plate)
  {
    if table == [] then []
    else
      FilterByPlate(table[..|table| - 1], plate) +
        (if PlateMatches(table[|table| - 1], plate) then [table[|table| - 1]] else [])
  }

  /** Filtering distributes over concatenation, so the kept rows stay in table order. */
  lemma {:induction false} FilterByPlateAppend(a: seq<Row>, b: seq<Row>, plate: string)
    ensures FilterByPlate(a + b, plate) == FilterByPlate(a, plate) + FilterByPlate(b, plate)
    decreases |b|
  {
    if b == [] {
      assert a + b == a;
    } else {
      var b' := b[..|b| - 1];
      assert (a + b)[..|a + b| - 1] == a + b';
      FilterByPlateAppend(a, b', plate);
    }
  }

  /** Rows `[(page-1)*limit, min(start+limit, total))`. */
  function Paginate<T>(rows: seq<T>, page: int, limit: int): (r: seq<T>)
    requires page >= 1 && limit >= 1
    ensures |r| <= limit
  {
    var start := (page - 1) * limit;
    var end := if start + limit <= |rows| then start + limit else |rows|;
    if start >= |rows| then [] else rows[start..end]
  }

  /** The rows the search keeps: all of them, or those matching a non-empty plate. */
  function Matching(table: seq<Row>, plate: Option<string>): (r: seq<Row>)
    ensures |r| <= |table|
    ensures plate.Some? && plate.value != "" ==> forall i :: 0 <= i < |r| ==> PlateMatches(r[i], plate.value)
    ensures plate.None? || plate.value == "" ==> r == table
  {
    if plate.Some? && plate.value != "" then FilterByPlate(table, plate.value) else table
  }

  /** search_number_plate; `db` is None when the spreadsheet file does not exist. */
  function SearchNumberPlate(db: Option<seq<Row>>, plate: Option<string>, page: int, limit: int): (r: SearchReply)
    requires page >= 1 && limit >= 1
    ensures db.None? <==> r.SearchFailed?
    ensures r.SearchFailed? ==> r.error == MissingDatabase
    ensures r.SearchOk? ==> r.page == page && r.limit == limit && |r.data| <= limit
    ensures db == Some([]) ==> r == SearchOk([], 0, page, limit)
  {
    match db
    case None => SearchFailed(MissingDatabase)
    case Some(table) =>
      if table == [] then SearchOk([], 0, page, limit)
      else
        var rows := Matching(table, plate);
        SearchOk(Paginate(rows, page, limit), |rows|, page, limit)
  }

  /** The plate filter keeps exactly the matching rows. */
  lemma {:induction false} FilterByPlateExact(table: seq<Row>, plate: string)
    ensures forall x :: x in FilterByPlate(table, plate) <==> x in table && PlateMatches(x, plate)
  {
    if table != [] {
      FilterByPlateExact(table[..|table| - 1], plate);
      assert table == table[..|table| - 1] + [table[|table| - 1]];
    }
  }

  /** The page holds the filtered rows from `(page-1)*limit` on, at most `limit` of them;
      it is empty exactly when it starts at or past the end. */
  lemma PaginateWindow<T>(rows: seq<T>, page: int, limit: int)
    requires page >= 1 && limit >= 1
    ensures var r := Paginate(rows, page, limit);
      var start := (page - 1) * limit;
      && (r == [] <==> start >= |rows|)
      && (start < |rows| ==>
            && |r| == (if |rows| - start < limit then |rows| - start else limit)
            && forall j :: 0 <= j < |r| ==> r[j] == rows[start + j])
  {
  }

  /** Every row appears on exactly the page its index puts it on. */
  lemma RowOnItsPage<T>(rows: seq<T>, i: nat, limit: int)
    requires i < |rows| && limit >= 1
    ensures var r := Paginate(rows, i / limit + 1, limit);
      i % limit < |r| && r[i % limit] == rows[i]
  {
    var page := i / limit + 1;
    var start := (page - 1) * limit;
    assert start == (i / limit) * limit;
    assert i == start + i % limit;
  }

  /** The search's answer on an existing table: `total` counts the rows passing the
      filter and `data` is the requested page of them. */
  lemma SearchAnswer(table: seq<Row>, plate: Option<string>, page: int, limit: int)
    requires page >= 1 && limit >= 1
    ensures var r := SearchNumberPlate(Some(table), plate, page, limit);
      && r.SearchOk?
      && r.total == |Matching(table, plate)|
      && r.data == Paginate(Matching(table, plate), page, limit)
      && (forall x :: x in Matching(table, plate) <==>
            x in table && (plate.Some? && plate.value != "" ==> PlateMatches(x, plate.value)))
  {
    if plate.Some? && plate.value != "" {
      FilterByPlateExact(table, plate.value);
    }
  }
}
