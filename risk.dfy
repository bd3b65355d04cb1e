/** The risk assessment page's rules: the score of a probability and an
    impact, its class, the 5x5 matrix the page draws, its legend, and the
    guards of the generate and save buttons. Rendering and toasts are left
    out; a toast is returned as a value. */
module Risk {
  datatype RiskClass = Low | Medium | High | Critical

  /** The order of the classes, from least to most severe. */
  function Rank(c: RiskClass): nat
  {
    match c
    case Low => 0
    case Medium => 1
    case High => 2
    case Critical => 3
  }

  /** `calculateRiskScore(probability, impact)`. */
  function CalculateRiskScore(probability: int, impact: int): (score: int)
    ensures 1 <= probability <= 5 && 1 <= impact <= 5 ==> 1 <= score <= 25
    ensures 1 <= probability <= 5 && 1 <= impact <= 5 ==> probability <= score && impact <= score
  {
    probability * impact
  }

  /** `calculateRiskClass(score)`. */
  function CalculateRiskClass(score: int): (c: RiskClass)
    ensures c == Low <==> score <= 4
    ensures c == Medium <==> 4 < score <= 9
    ensures c == High <==> 9 < score <= 16
    ensures c == Critical <==> 16 < score
  {
    if score <= 4 then Low
    else if score <= 9 then Medium
    else if score <= 16 then High
    else Critical
  }

  /** A higher score never has a less severe class. */
  lemma ClassMonotone(s1: int, s2: int)
    requires s1 <= s2
    ensures Rank(CalculateRiskClass(s1)) <= Rank(CalculateRiskClass(s2))
  {
  }

  /** A cell of the matrix. */
  datatype Cell = Cell(score: int, riskClass: RiskClass)

  /** The class as the matrix computes it. The page repeats the thresholds
      of `calculateRiskClass` inline instead of calling it, so the model keeps
      that separate copy; `CellClassAgrees` proves the two agree. */
  function CellClass(score: int): RiskClass
  {
    if score <= 4 then Low else if score <= 9 then Medium else if score <= 16 then High else Critical
  }

  /** `riskMatrix`: row `i` is probability `5 - i`, column `j` impact `j + 1`. */
  function RiskMatrix(): (m: seq<seq<Cell>>)
    ensures |m| == 5 && forall i :: 0 <= i < 5 ==> |m[i]| == 5
  {
    seq(5, i requires 0 <= i < 5 =>
      seq(5, j requires 0 <= j < 5 => Cell((5 - i) * (j + 1), CellClass((5 - i) * (j + 1)))))
  }

  lemma MatrixCell(i: nat, j: nat)
    requires i < 5 && j < 5
    ensures RiskMatrix()[i][j] == Cell((5 - i) * (j + 1), CellClass((5 - i) * (j + 1)))
  {
    var m := RiskMatrix();
    assert m[i] == seq(5, j requires 0 <= j < 5 => Cell((5 - i) * (j + 1), CellClass((5 - i) * (j + 1))));
  }

  /** The matrix's copy of the thresholds agrees with `calculateRiskClass`. */
  lemma CellClassAgrees(score: int)
    ensures CellClass(score) == CalculateRiskClass(score)
  {
  }

  /** Every cell holds the score and class the page computes for the
      probability and impact of its row and column. In particular the cell a
      selection highlights (row `5 - probability`, column `impact - 1`) shows
      the current score and class. */
  lemma MatrixMatchesSelection(probability: int, impact: int)
    requires 1 <= probability <= 5 && 1 <= impact <= 5
    ensures RiskMatrix()[5 - probability][impact - 1] ==
      Cell(CalculateRiskScore(probability, impact), CalculateRiskClass(CalculateRiskScore(probability, impact)))
  {
    MatrixCell(5 - probability, impact - 1);
  }

  /** The top row is the most likely row, and the top right cell is the
      most severe. */
  lemma MatrixCorners()
    ensures RiskMatrix()[0][4] == Cell(25, Critical)
    ensures RiskMatrix()[4][0] == Cell(1, Low)
    ensures RiskMatrix()[0][0] == Cell(5, Medium)
    ensures RiskMatrix()[4][4] == Cell(5, Medium)
  {
    MatrixCell(0, 4);
    MatrixCell(4, 0);
    MatrixCell(0, 0);
    MatrixCell(4, 4);
  }

  /** Severity grows to the right along a row and upwards along a column. */
  lemma MatrixMonotone(i: nat, j: nat)
    requires i < 5 && j < 4
    ensures RiskMatrix()[i][j].score < RiskMatrix()[i][j + 1].score
    ensures Rank(RiskMatrix()[i][j].riskClass) <= Rank(RiskMatrix()[i][j + 1].riskClass)
    ensures 0 < i ==> RiskMatrix()[i][j].score < RiskMatrix()[i - 1][j].score
  {
    MatrixCell(i, j);
    MatrixCell(i, j + 1);
    if 0 < i {
      MatrixCell(i - 1, j);
    }
    ClassMonotone(RiskMatrix()[i][j].score, RiskMatrix()[i][j + 1].score);
  }

  /** The legend's ranges: `Low (1-4)`, `Medium (5-9)`, `High (10-16)`,
      `Critical (17-25)`. */
  function LegendRange(c: RiskClass): (int, int)
  {
    match c
    case Low => (1, 4)
    case Medium => (5, 9)
    case High => (10, 16)
    case Critical => (17, 25)
  }

  /** A score the page can produce lies in its class's legend range and in
      no other. */
  lemma LegendAgrees(score: int, c: RiskClass)
    requires 1 <= score <= 25
    ensures LegendRange(c).0 <= score <= LegendRange(c).1 <==> CalculateRiskClass(score) == c
  {
  }

  /** The page state the guards read and write. */
  datatype PageState = PageState(probability: int, impact: int, assessmentName: string, generated: bool)

  datatype Toast = Success(message: string) | Error(message: string)

  const InitialState := PageState(3, 3, "", false)

  /** `handleGenerateAssessment`: an empty name is refused and changes
      nothing; otherwise the assessment is marked generated. */
  function Generate(st: PageState): (r: (PageState, Toast))
    ensures st.assessmentName == "" ==> r == (st, Error("Please enter an assessment name"))
    ensures st.assessmentName != "" ==> r.0 == st.(generated := true) && r.1 == Success("Risk assessment generated")
  {
    if st.assessmentName == "" then (st, Error("Please enter an assessment name"))
    else (st.(generated := true), Success("Risk assessment generated"))
  }

  /** `handleSaveAssessment`: refused until an assessment was generated; it
      never changes the state. */
  function Save(st: PageState): (r: (PageState, Toast))
    ensures r.0 == st
    ensures r.1 == (if st.generated then Success("Risk assessment saved") else Error("Please generate an assessment first"))
  {
    if !st.generated then (st, Error("Please generate an assessment first"))
    else (st, Success("Risk assessment saved"))
  }

  /** A click on cell `(i, j)` selects probability `5 - i` and impact `j + 1`. */
  function SelectCell(st: PageState, i: nat, j: nat): (r: PageState)
    requires i < 5 && j < 5
    ensures 1 <= r.probability <= 5 && 1 <= r.impact <= 5
    ensures RiskMatrix()[i][j].score == CalculateRiskScore(r.probability, r.impact)
    ensures r.assessmentName == st.assessmentName && r.generated == st.generated
  {
    MatrixCell(i, j);
    st.(probability := 5 - i, impact := j + 1)
  }

  /** Saving succeeds only after a successful generate: from the initial
      state a save is refused, and after generating with a name it is
      accepted. */
  lemma SaveNeedsGenerate(name: string)
    ensures Save(InitialState).1.Error?
    ensures Generate(InitialState).0 == InitialState
    ensures name != "" ==> Save(Generate(InitialState.(assessmentName := name)).0).1.Success?
  {
  }
}
