/** The 5×5 probability/severity matrix (components/RiskMatrix.tsx): the score
    of a cell, the threshold cascade that classifies it, the colour and the
    required sign-off derived from it, the exported report and its file name,
    and the view state that selecting a cell and exporting change. Translated
    labels are represented by the tier they name. */
module RiskMatrix {
  import opened Js
  import Types

  /** A cell of the matrix: probability `p` (row) and severity `s` (column). */
  datatype Cell = Cell(p: int, s: int)

  predicate InGrid(c: Cell) {
    1 <= c.p <= 5 && 1 <= c.s <= 5
  }

  /** The composite score `p * s` shown in a cell and used by every classification. */
  function Score(c: Cell): (r: int)
    ensures InGrid(c) ==> 1 <= r <= 25
  {
    ProductBounds(c.p, c.s);
    c.p * c.s
  }

  lemma ProductBounds(p: int, s: int)
    ensures 1 <= p <= 5 && 1 <= s <= 5 ==> 1 <= p * s <= 25
    ensures p * s == s * p
  {
    if 1 <= p <= 5 && 1 <= s <= 5 {
      assert p * s <= 5 * s;
    }
  }

  // ---------------------------------------------------------------------------
  // Tiers

  datatype Tier = Low | Medium | High | Extreme

  function Rank(t: Tier): nat {
    match t
    case Low => 0
    case Medium => 1
    case High => 2
    case Extreme => 3
  }

  /** The band table: a score reaches a tier when it is at least the tier's
      inclusive lower bound (15, 8 and 4; Low has none). */
  predicate Reaches(score: int, t: Tier) {
    match t
    case Low => true
    case Medium => score >= 4
    case High => score >= 8
    case Extreme => score >= 15
  }

  /** The threshold cascade (`>= 15`, `>= 8`, `>= 4`, else): the highest tier
      the score reaches, so a score on a boundary belongs to the higher band. */
  function TierOf(score: int): (t: Tier)
    ensures Reaches(score, t)
    ensures forall u :: Rank(u) > Rank(t) ==> !Reaches(score, u)
  {
    if score >= 15 then Extreme
    else if score >= 8 then High
    else if score >= 4 then Medium
    else Low
  }

  /** A higher score never gets a lower tier. */
  lemma TierMonotone(a: int, b: int)
    requires a <= b
    ensures Rank(TierOf(a)) <= Rank(TierOf(b))
  {
  }

  /** `getRiskLevelLabel(p, s)`, the translated label represented by its tier. */
  function RiskLevelLabel(c: Cell): (t: Tier)
    ensures InGrid(c) ==> (t == Extreme <==> 15 <= Score(c) <= 25)
    ensures InGrid(c) ==> (t == High <==> 8 <= Score(c) <= 14)
    ensures InGrid(c) ==> (t == Medium <==> 4 <= Score(c) <= 7)
    ensures InGrid(c) ==> (t == Low <==> 1 <= Score(c) <= 3)
  {
    TierOf(Score(c))
  }

  /** Only the product is used, so swapping probability and severity changes nothing. */
  lemma LabelSymmetric(p: int, s: int)
    ensures RiskLevelLabel(Cell(p, s)) == RiskLevelLabel(Cell(s, p))
    ensures RiskColor(Cell(p, s)) == RiskColor(Cell(s, p))
  {
    ProductBounds(p, s);
  }

  /** Within the grid, raising either factor never lowers the tier. */
  lemma {:induction false} LabelMonotoneInFactors(c: Cell, d: Cell)
    requires InGrid(c) && InGrid(d) && c.p <= d.p && c.s <= d.s
    ensures Rank(RiskLevelLabel(c)) <= Rank(RiskLevelLabel(d))
  {
    assert c.p * c.s <= d.p * c.s;
    assert d.p * c.s <= d.p * d.s;
    TierMonotone(Score(c), Score(d));
  }

  /** The Tailwind class of each band. */
  function TierColor(t: Tier): string {
    match t
    case Extreme => "bg-red-600"
    case High => "bg-orange-500"
    case Medium => "bg-yellow-500"
    case Low => "bg-emerald-500"
  }

  /** The four band colours are distinct. */
  lemma TierColorsDistinct(a: Tier, b: Tier)
    ensures TierColor(a) == TierColor(b) <==> a == b
  {
  }

  /** `getRiskColor(p, s)`: its own copy of the cascade, which names the same
      band as the label for every cell. */
  function RiskColor(c: Cell): (r: string)
    ensures r == TierColor(RiskLevelLabel(c))
  {
    var score := c.p * c.s;
    if score >= 15 then "bg-red-600"
    else if score >= 8 then "bg-orange-500"
    else if score >= 4 then "bg-yellow-500"
    else "bg-emerald-500"
  }

  /** Distinct bands get distinct colours, so the colour shown identifies the band. */
  lemma ColorIdentifiesBand(c: Cell, d: Cell)
    ensures RiskColor(c) == RiskColor(d) <==> RiskLevelLabel(c) == RiskLevelLabel(d)
  {
  }

  // ---------------------------------------------------------------------------
  // Required sign-off

  datatype SignOff = CriticalDualApproval | HighPeerReview | ManagedClearance

  function SignOffText(r: SignOff): string {
    match r
    case CriticalDualApproval => "[CRITICAL] REQUIRES HSE DIRECTOR & TECHNICAL MANAGER APPROVAL"
    case HighPeerReview => "[HIGH] REQUIRES FORMAL PEER REVIEW & DEPT HEAD APPROVAL"
    case ManagedClearance => "[MANAGED] STANDARD OPERATIONAL CLEARANCE"
  }

  /** The sign-off line of the report: dual approval for the extreme band,
      peer review for the high band, and standard clearance otherwise,
      including with no cell selected and for the medium band. */
  function RequiredSignOff(selected: Option<Cell>): (r: SignOff)
    ensures selected.None? ==> r == ManagedClearance
    ensures selected.Some? ==> r == match RiskLevelLabel(selected.value)
                                    case Extreme => CriticalDualApproval
                                    case High => HighPeerReview
                                    case _ => ManagedClearance
  {
    if selected.Some? && selected.value.p * selected.value.s >= 15 then CriticalDualApproval
    else if selected.Some? && selected.value.p * selected.value.s >= 8 then HighPeerReview
    else ManagedClearance
  }

  // ---------------------------------------------------------------------------
  // The exported report

  /** `score` in `handleExport`: the product, or "N/A" with nothing selected. */
  function ReportScore(selected: Option<Cell>): (r: string)
    requires selected.Some? ==> InGrid(selected.value)
    ensures selected.None? <==> r == "N/A"
    ensures selected.Some? ==> AllDigits(r) && ParseDigits(r) == Score(selected.value)
  {
    match selected
    case None => "N/A"
    case Some(c) =>
      ParseNatToString(Score(c));
      NatToString(Score(c))
  }

  datatype Grade = GlobalOverview | Classified(tier: Tier)

  /** `grade` in `handleExport`: the cell's label, or "Global Overview". */
  function ReportGrade(selected: Option<Cell>): (g: Grade)
    ensures g == GlobalOverview <==> selected.None?
    ensures selected.Some? ==> g == Classified(TierOf(Score(selected.value)))
  {
    match selected
    case None => GlobalOverview
    case Some(c) => Classified(RiskLevelLabel(c))
  }

  datatype ReportParameters = ReportParameters(probability: int, severity: int, score: string, classification: Tier)

  /** The fields of the text report; its layout and its random hash are not
      modelled. `signOffLine` is the line under "REQUIRED SIGN-OFFS". */
  datatype Report = Report(
    generatedOn: string,
    authorizedBy: string,
    clearanceRole: string,
    parameters: Option<ReportParameters>,
    signOffLine: string)

  /** The three sign-off lines differ, so the line written names the sign-off. */
  lemma SignOffTextInjective(a: SignOff, b: SignOff)
    ensures SignOffText(a) == SignOffText(b) <==> a == b
  {
    if a != b {
      SignOffTextLength(a);
      SignOffTextLength(b);
    }
  }

  /** The lines have different lengths: 61, 55 and 40 characters. */
  lemma SignOffTextLength(a: SignOff)
    ensures |SignOffText(a)| == match a case CriticalDualApproval => 61 case HighPeerReview => 55 case ManagedClearance => 40
  {
  }

  /** The report for a selection; `user` is the signed-in user of the app
      context. The parameters are the selected cell's factors, score and
      band; the author is the user's name (`||` falls back on an empty
      name too) and the role the user's role, with the source's defaults
      when nobody is signed in. */
  function BuildReport(selected: Option<Cell>, timestamp: string, user: Option<Types.User>): (r: Report)
    requires selected.Some? ==> InGrid(selected.value)
    ensures r.generatedOn == timestamp
    ensures r.parameters.Some? <==> selected.Some?
    ensures selected.Some? ==>
      r.parameters.value == ReportParameters(selected.value.p, selected.value.s, ReportScore(selected), RiskLevelLabel(selected.value))
    ensures r.signOffLine == SignOffText(RequiredSignOff(selected))
    ensures user.Some? && user.value.name != "" ==> r.authorizedBy == user.value.name
    ensures user.None? || user.value.name == "" ==> r.authorizedBy == "System Administrator"
    ensures user.Some? ==> r.clearanceRole == Types.RoleValue(user.value.role)
    ensures user.None? ==> r.clearanceRole == "Engineer"
    ensures r.authorizedBy != "" && r.clearanceRole != ""
  {
    Report(
      timestamp,
      if user.Some? && user.value.name != "" then user.value.name else "System Administrator",
      if user.Some? then Types.RoleValue(user.value.role) else "Engineer",
      match selected
      case None => None
      case Some(c) => Some(ReportParameters(c.p, c.s, ReportScore(selected), ReportGrade(selected).tier)),
      SignOffText(RequiredSignOff(selected)))
  }

  /** The sign-off line agrees with the classification in the report: dual
      approval exactly for the extreme band, peer review exactly for the
      high band, and standard clearance for the global report. */
  lemma ReportSignOffAgrees(selected: Option<Cell>, timestamp: string, user: Option<Types.User>)
    requires selected.Some? ==> InGrid(selected.value)
    ensures var r := BuildReport(selected, timestamp, user);
      (r.parameters.None? ==> r.signOffLine == SignOffText(ManagedClearance)) &&
      (r.parameters.Some? ==>
        (r.signOffLine == SignOffText(CriticalDualApproval) <==> r.parameters.value.classification == Extreme) &&
        (r.signOffLine == SignOffText(HighPeerReview) <==> r.parameters.value.classification == High))
  {
    var signOff := RequiredSignOff(selected);
    SignOffTextInjective(signOff, CriticalDualApproval);
    SignOffTextInjective(signOff, HighPeerReview);
  }

  /** An assessment whose factors lie in their documented range sits on the grid. */
  lemma AssessmentOnGrid(a: Types.RiskAssessment)
    requires Types.FactorsInRange(a)
    ensures InGrid(Cell(a.probability, a.severity)) && 1 <= Score(Cell(a.probability, a.severity)) <= 25
  {
  }

  const FileNamePrefix: string := "MOC_Risk_Report_"

  /** `MOC_Risk_Report_${selected ? `Score_${score}` : 'Global'}_${Date.now()}.txt`,
      the clock reading given as `now`. */
  function ExportFileName(selected: Option<Cell>, now: nat): (r: string)
    requires selected.Some? ==> InGrid(selected.value)
    ensures |r| > |FileNamePrefix| + 4
    ensures r[..|FileNamePrefix|] == FileNamePrefix && r[|r| - 4..] == ".txt"
  {
    FileNamePrefix
    + ((if selected.Some? then "Score_" + ReportScore(selected) else "Global")
       + ("_" + (NatToString(now) + ".txt")))
  }

  /** What a report file name records: the score (absent for the global
      report) and the clock reading. */
  datatype ReportFileName = ReportFileName(score: Option<nat>, millis: nat)

  /** Reads a report file name back; `None` for a name of another shape. */
  function ParseReportFileName(name: string): Option<ReportFileName> {
    if !(FileNamePrefix <= name) then None
    else
      var rest := name[|FileNamePrefix|..];
      if "Global_" <= rest then ParseMillis(None, rest[7..])
      else if "Score_" <= rest then ParseScored(rest[6..])
      else None
  }

  /** Reads `<score>_<millis>.txt`. */
  function ParseScored(digits: string): Option<ReportFileName> {
    var k := DigitSpan(digits);
    if 0 < k < |digits| && digits[k] == '_' then
      ParseMillis(Some(ParseDigits(digits[..k])), digits[k + 1..])
    else None
  }

  function ParseMillis(score: Option<nat>, tail: string): Option<ReportFileName> {
    var k := DigitSpan(tail);
    if 0 < k && tail[k..] == ".txt" then Some(ReportFileName(score, ParseDigits(tail[..k])))
    else None
  }

  /** The clock reading and the extension at the end of a name read back. */
  lemma {:induction false} MillisRoundTrip(score: Option<nat>, now: nat)
    ensures ParseMillis(score, NatToString(now) + ".txt") == Some(ReportFileName(score, now))
  {
    var millis := NatToString(now);
    var tail := millis + ".txt";
    DigitSpanOfRendering(now, ".txt");
    ParseNatToString(now);
    assert tail[..|millis|] == millis && tail[|millis|..] == ".txt";
  }

  /** Appending to a prefix keeps it a prefix, and dropping it gives the rest back. */
  lemma PrefixOfConcat(p: string, s: string)
    ensures p <= p + s && (p + s)[|p|..] == s
  {
  }

  lemma {:induction false} GlobalFileNameRoundTrip(now: nat)
    ensures ParseReportFileName(FileNamePrefix + ("Global" + ("_" + (NatToString(now) + ".txt"))))
         == Some(ReportFileName(None, now))
  {
    var tail := NatToString(now) + ".txt";
    var rest := "Global" + ("_" + tail);
    PrefixOfConcat(FileNamePrefix, rest);
    assert rest == "Global_" + tail;
    PrefixOfConcat("Global_", tail);
    MillisRoundTrip(None, now);
  }

  /** A run of digits, the separator and a tail are split where the run ends. */
  lemma {:induction false} ScoredSplit(score: string, tail: string)
    requires |score| > 0 && AllDigits(score)
    ensures ParseScored(score + ("_" + tail)) == ParseMillis(Some(ParseDigits(score)), tail)
  {
    var digits := score + ("_" + tail);
    DigitRunSpan(score, "_" + tail);
    assert digits[..|score|] == score;
    assert digits[|score| + 1..] == tail;
  }

  /** The score, the separator and the clock part read back. */
  lemma {:induction false} ScoredRoundTrip(n: nat, now: nat)
    ensures ParseScored(NatToString(n) + ("_" + (NatToString(now) + ".txt")))
         == Some(ReportFileName(Some(n), now))
  {
    ScoredSplit(NatToString(n), NatToString(now) + ".txt");
    ParseNatToString(n);
    MillisRoundTrip(Some(n), now);
  }

  /** A name of the score shape is handed to `ParseScored` past its `Score_`. */
  lemma {:induction false} ScoreNameSplit(score: string, tail: string)
    ensures ParseReportFileName(FileNamePrefix + (("Score_" + score) + ("_" + tail)))
         == ParseScored(score + ("_" + tail))
  {
    var rest := ("Score_" + score) + ("_" + tail);
    PrefixOfConcat(FileNamePrefix, rest);
    assert rest == "Score_" + (score + ("_" + tail));
    PrefixOfConcat("Score_", score + ("_" + tail));
    assert !("Global_" <= rest) by { assert rest[0] != "Global_"[0]; }
  }

  lemma {:induction false} ScoreFileNameRoundTrip(n: nat, now: nat)
    ensures ParseReportFileName(FileNamePrefix + (("Score_" + NatToString(n)) + ("_" + (NatToString(now) + ".txt"))))
         == Some(ReportFileName(Some(n), now))
  {
    ScoreNameSplit(NatToString(n), NatToString(now) + ".txt");
    ScoredRoundTrip(n, now);
  }

  /** The file name records the selection's score, or that the report is
      global, and the clock reading, and both can be read back from it. */
  lemma {:induction false} ExportFileNameRoundTrip(selected: Option<Cell>, now: nat)
    requires selected.Some? ==> InGrid(selected.value)
    ensures ParseReportFileName(ExportFileName(selected, now))
         == Some(ReportFileName(if selected.Some? then Some(Score(selected.value)) else None, now))
  {
    match selected
    case None => GlobalFileNameRoundTrip(now);
    case Some(c) => ScoreFileNameRoundTrip(Score(c), now);
  }

  // ---------------------------------------------------------------------------
  // The grid and the details panel

  /** `ss.map(s => cell)` for one row of probability `p`. */
  function Row(p: int, ss: seq<int>): (r: seq<Cell>)
    ensures |r| == |ss|
    ensures forall j :: 0 <= j < |ss| ==> r[j] == Cell(p, ss[j])
  {
    seq(|ss|, j requires 0 <= j < |ss| => Cell(p, ss[j]))
  }

  /** `ps.map(p => ss.map(s => cell))`, the rows laid out one after the other. */
  function Rows(ps: seq<int>, ss: seq<int>): seq<Cell> {
    if ps == [] then [] else Row(ps[0], ss) + Rows(ps[1..], ss)
  }

  /** Where row `i` starts when every row has `w` cells. */
  function Offset(i: nat, w: nat): nat {
    if i == 0 then 0 else w + Offset(i - 1, w)
  }

  lemma {:induction false} OffsetIsProduct(i: nat, w: nat)
    ensures Offset(i, w) == i * w
  {
    if i > 0 {
      OffsetIsProduct(i - 1, w);
      MulStep(i, w);
    }
  }

  lemma MulStep(i: int, w: int)
    ensures i * w == w + (i - 1) * w
  {
  }

  /** One more row adds one row's width of cells. */
  lemma {:induction false} RowsLength(ps: seq<int>, ss: seq<int>)
    ensures |Rows(ps, ss)| == Offset(|ps|, |ss|)
  {
    if ps != [] {
      RowsLength(ps[1..], ss);
    }
  }

  /** Row `i`, column `j` of the rows laid end to end, counted by offsets. */
  lemma {:induction false} RowsAtOffset(ps: seq<int>, ss: seq<int>, i: nat, j: nat)
    requires i < |ps| && j < |ss|
    ensures Offset(i, |ss|) + j < |Rows(ps, ss)| && Rows(ps, ss)[Offset(i, |ss|) + j] == Cell(ps[i], ss[j])
  {
    var head, tail := Row(ps[0], ss), Rows(ps[1..], ss);
    assert Rows(ps, ss) == head + tail;
    assert |head| == |ss|;
    if i == 0 {
      assert Offset(i, |ss|) == 0;
      assert (head + tail)[j] == head[j];
    } else {
      RowsAtOffset(ps[1..], ss, i - 1, j);
      var k := Offset(i - 1, |ss|) + j;
      assert Offset(i, |ss|) + j == |ss| + k;
      assert k < |tail| && (head + tail)[|ss| + k] == tail[k];
      assert ps[1..][i - 1] == ps[i];
    }
  }

  /** The cell in row `i`, column `j` is at position `i * |ss| + j`. */
  lemma RowsAt(ps: seq<int>, ss: seq<int>, i: nat, j: nat)
    requires i < |ps| && j < |ss|
    ensures |Rows(ps, ss)| == |ps| * |ss|
    ensures i * |ss| + j < |Rows(ps, ss)| && Rows(ps, ss)[i * |ss| + j] == Cell(ps[i], ss[j])
  {
    RowsLength(ps, ss);
    RowsAtOffset(ps, ss, i, j);
    OffsetIsProduct(|ps|, |ss|);
    OffsetIsProduct(i, |ss|);
  }

  /** The rendered grid: probabilities 5 down to 1, severities 1 up to 5. */
  function Grid(): seq<Cell> {
    Rows([5, 4, 3, 2, 1], [1, 2, 3, 4, 5])
  }

  /** The cell at position `k` of the grid. */
  lemma GridAt(k: int)
    requires 0 <= k < 25
    ensures |Grid()| == 25 && Grid()[k] == Cell(5 - k / 5, k % 5 + 1)
  {
    var ps, ss := [5, 4, 3, 2, 1], [1, 2, 3, 4, 5];
    var i, j := k / 5, k % 5;
    RowsLength(ps, ss);
    OffsetIsProduct(|ps|, |ss|);
    RowsAtOffset(ps, ss, i, j);
    OffsetIsProduct(i, |ss|);
    assert Offset(i, |ss|) + j == k;
  }

  /** Distinct positions of the grid hold distinct cells. */
  lemma GridPositionsDistinct(k: int, l: int)
    requires 0 <= k < l < 25
    ensures Cell(5 - k / 5, k % 5 + 1) != Cell(5 - l / 5, l % 5 + 1)
  {
    assert k == (k / 5) * 5 + k % 5 && l == (l / 5) * 5 + l % 5;
  }

  lemma GridCells()
    ensures |Grid()| == 25
    ensures forall k :: 0 <= k < 25 ==> Grid()[k] == Cell(5 - k / 5, k % 5 + 1)
  {
    GridAt(0);
    forall k | 0 <= k < 25 ensures Grid()[k] == Cell(5 - k / 5, k % 5 + 1) {
      GridAt(k);
    }
  }

  lemma GridComplete(c: Cell)
    requires InGrid(c)
    ensures c in Grid()
  {
    var k := (5 - c.p) * 5 + (c.s - 1);
    assert k / 5 == 5 - c.p && k % 5 == c.s - 1 by {
      assert c.s == 1 || c.s == 2 || c.s == 3 || c.s == 4 || c.s == 5;
      assert c.p == 1 || c.p == 2 || c.p == 3 || c.p == 4 || c.p == 5;
    }
    GridAt(k);
  }

  /** The grid holds exactly the 25 cells with both factors in 1..5, each
      once, in row-major order with the highest probability first. */
  lemma GridEnumeratesEachCellOnce()
    ensures |Grid()| == 25
    ensures forall k :: 0 <= k < 25 ==> Grid()[k] == Cell(5 - k / 5, k % 5 + 1)
    ensures forall k :: 0 <= k < 25 ==> InGrid(Grid()[k])
    ensures forall c :: InGrid(c) ==> c in Grid()
    ensures forall k, l :: 0 <= k < l < 25 ==> Grid()[k] != Grid()[l]
  {
    GridCells();
    forall c | InGrid(c) ensures c in Grid() {
      GridComplete(c);
    }
    forall k, l | 0 <= k < l < 25 ensures Grid()[k] != Grid()[l] {
      GridPositionsDistinct(k, l);
    }
  }

  /** The assessment-details panel for the selected cell. */
  datatype Details = Details(score: int, tier: Tier, color: string, quote: string)

  /** The quoted guidance under the details; it only depends on the language. */
  function AssessmentQuote(language: string): string {
    if language == "pt-BR" then
      "\"Requer aprovação imediata da alta gerência e validação de contenção secundária.\""
    else
      "\"Requires immediate senior management sign-off and secondary containment validation.\""
  }

  function AssessmentDetails(selected: Option<Cell>, language: string): (r: Option<Details>)
    ensures r.Some? <==> selected.Some?
    ensures selected.Some? ==>
      r.value.score == Score(selected.value) && r.value.tier == RiskLevelLabel(selected.value) &&
      r.value.color == RiskColor(selected.value)
    ensures r.Some? ==> r.value.color == TierColor(r.value.tier) && r.value.tier == TierOf(r.value.score)
  {
    match selected
    case None => None
    case Some(c) => Some(Details(Score(c), RiskLevelLabel(c), RiskColor(c), AssessmentQuote(language)))
  }

  /** The quoted guidance is the same for every selected cell, even one whose
      report only asks for standard clearance. */
  lemma QuoteIgnoresSelection(c: Cell, d: Cell, language: string)
    ensures AssessmentDetails(Some(c), language).value.quote == AssessmentDetails(Some(d), language).value.quote
  {
  }

  // ---------------------------------------------------------------------------
  // View state: selection and export

  datatype ExportStatus = Idle | Success

  /** A file handed to the browser for download. */
  datatype Download = Download(fileName: string, report: Report)

  class RiskMatrixView {
    var selected: Option<Cell>
    var isExporting: bool
    var exportStatus: ExportStatus
    /** The selection the export in flight captured when it started. */
    var exportSelection: Option<Cell>
    /** The signed-in user the export in flight captured when it started. */
    var exportUser: Option<Types.User>
    var downloads: seq<Download>

    /** Cells are only ever selected from the grid. */
    predicate Valid()
      reads this
    {
      (selected.Some? ==> InGrid(selected.value)) &&
      (exportSelection.Some? ==> InGrid(exportSelection.value))
    }

    constructor ()
      ensures Valid()
      ensures selected == None && !isExporting && exportStatus == Idle && downloads == []
    {
      selected := None;
      isExporting := false;
      exportStatus := Idle;
      exportSelection := None;
      exportUser := None;
      downloads := [];
    }

    /** Clicking a grid cell selects it. */
    method Select(c: Cell)
      requires Valid() && InGrid(c)
      modifies this`selected
      ensures Valid() && selected == Some(c)
    {
      selected := Some(c);
    }

    /** The click on the export button, up to the simulated delay; the button
        is disabled while an export runs, so a second click does nothing.
        `user` is the signed-in user of the render that was clicked: the
        handler reads it, like the selection, from that render. */
    method StartExport(user: Option<Types.User>) returns (started: bool)
      requires Valid()
      modifies this`isExporting, this`exportStatus, this`exportSelection, this`exportUser
      ensures Valid()
      ensures started == !old(isExporting)
      ensures started ==> isExporting && exportStatus == Idle && exportSelection == old(selected) && exportUser == user
      ensures !started ==> isExporting == old(isExporting) && exportStatus == old(exportStatus)
                           && exportSelection == old(exportSelection) && exportUser == old(exportUser)
    {
      started := !isExporting;
      if started {
        isExporting := true;
        exportStatus := Idle;
        exportSelection := selected;
        exportUser := user;
      }
    }

    /** The rest of the export after the delay: the report for the selection
        and the user captured at the click is downloaded, whatever is selected
        by now. */
    method CompleteExport(now: nat, timestamp: string)
      requires Valid() && isExporting
      modifies this`isExporting, this`exportStatus, this`downloads
      ensures Valid() && !isExporting && exportStatus == Success
      ensures downloads == old(downloads) + [Download(
        ExportFileName(exportSelection, now), BuildReport(exportSelection, timestamp, exportUser))]
    {
      var report := BuildReport(exportSelection, timestamp, exportUser);
      var name := ExportFileName(exportSelection, now);
      downloads := downloads + [Download(name, report)];
      isExporting := false;
      exportStatus := Success;
    }

    /** The timer that puts the success icon back. */
    method ResetExportStatus()
      requires Valid()
      modifies this`exportStatus
      ensures Valid() && exportStatus == Idle
    {
      exportStatus := Idle;
    }
  }
}
