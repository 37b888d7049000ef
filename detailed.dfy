/**
 * DetailedConjugationAdapter: the seven-column detailed chart. Each block is a
 * caption row, up to five (tenses) or three (nouns) conjugation rows and a
 * separator; column 3 is a border-less spacer merged vertically through the
 * block.
 */
module Detailed {
  import opened Wrappers
  import opened Content
  import opened Conjugation
  import opened Table
  import opened WmlHelper
  import opened Documents

  const NumOfColumns: nat := 7
  const ColumnWidths: seq<real> := [16.24, 16.24, 16.24, 2.56, 16.24, 16.24, 16.24]

  /** getColumnProperties: borders are suppressed exactly when the object is null. */
  function ColumnProperties<T>(obj: Option<T>): (nilBorders: bool)
    ensures nilBorders <==> obj.None?
  {
    obj.None?
  }

  /** The caption paragraph of one side. */
  function CaptionP(caption: Option<string>): Para {
    ArabicTextP(if caption.None? then None else Some(Letters(caption.value)), ArabicCaptionStyle)
  }

  /** The spacer cell of column 3. */
  function Spacer(merge: Merge): Cell {
    Cell(3, 1, merge, true, [NoSpacingP])
  }

  /** The row addCaptionRow appends. */
  function CaptionRow(leftCaption: Option<string>, rightCaption: Option<string>): Row {
    [Cell(0, 3, NoMerge, ColumnProperties(leftCaption), [CaptionP(leftCaption)]),
     Spacer(Restart),
     Cell(4, 3, NoMerge, ColumnProperties(rightCaption), [CaptionP(rightCaption)])]
  }

  /**
   * addCaptionRow: the left caption over columns 0-2, the spacer restarting its
   * vertical merge, the right caption over columns 4-6; a caption's borders are
   * suppressed exactly when the caption is null.
   */
  lemma CaptionRowLayout(leftCaption: Option<string>, rightCaption: Option<string>)
    ensures var row := CaptionRow(leftCaption, rightCaption);
      && |row| == 3 && Tiles(row, NumOfColumns)
      && row[0].column == 0 && row[0].span == 3 && row[2].column == 4 && row[2].span == 3
      && row[1] == Spacer(Restart) && MergesAt(row, 3, Restart) && NoContinue(row)
      && (row[0].nilBorders <==> leftCaption.None?)
      && (row[2].nilBorders <==> rightCaption.None?)
      && row[0].content == [CaptionP(leftCaption)] && row[2].content == [CaptionP(rightCaption)]
  {
    var row := CaptionRow(leftCaption, rightCaption);
    assert row[1].column == 3 && row[1].merge == Restart;
  }

  /** The plural, dual and singular slots of a tuple, in column order. */
  function Slots(t: ConjugationTuple): seq<Option<RootWord>> {
    [t.plural, t.dual, t.singular]
  }

  /** The value written for slot `k` of one side: null when the whole tuple is null. */
  function SlotValue(tuple: Option<ConjugationTuple>, k: nat): (v: Option<Word>)
    requires k < 3
    ensures tuple.None? ==> v.None?
    ensures tuple.Some? ==> v == ValueOf(Slots(tuple.value)[k])
  {
    if tuple.None? then None else ValueOf(Slots(tuple.value)[k])
  }

  /** One data cell: its borders are suppressed when the whole tuple is null. */
  function SlotCell(tuple: Option<ConjugationTuple>, origin: nat, k: nat): Cell
    requires k < 3
  {
    Cell(origin + k, 1, NoMerge, tuple.None?, [TextP(SlotValue(tuple, k))])
  }

  /** A conjugation row whose only merging cell is the spacer, continuing the merge. */
  ghost predicate ContinueShape(row: Row) {
    && Tiles(row, NumOfColumns)
    && MergesAt(row, 3, Continue)
    && forall k :: 0 <= k < |row| && row[k].merge == Continue ==> row[k].column == 3
  }

  /** The row addConjugationRow appends for two tuples of which at least one is present. */
  function ConjugationRow(left: Option<ConjugationTuple>, right: Option<ConjugationTuple>): Row {
    [SlotCell(left, 0, 0), SlotCell(left, 0, 1), SlotCell(left, 0, 2),
     Spacer(Continue),
     SlotCell(right, 4, 0), SlotCell(right, 4, 1), SlotCell(right, 4, 2)]
  }

  /**
   * A conjugation row has three span-1 cells per side, always (a null side keeps
   * its cells, with borders suppressed and blank text), and the spacer between.
   */
  lemma ConjugationRowLayout(left: Option<ConjugationTuple>, right: Option<ConjugationTuple>)
    ensures var row := ConjugationRow(left, right);
      && |row| == NumOfColumns
      && (forall k :: 0 <= k < NumOfColumns ==> row[k].column == k && row[k].span == 1)
      && row[3] == Spacer(Continue)
      && (forall k :: 0 <= k < 3 ==>
            row[k].merge == NoMerge && (row[k].nilBorders <==> left.None?) && row[k].content == [TextP(SlotValue(left, k))])
      && (forall k :: 4 <= k < 7 ==>
            row[k].merge == NoMerge && (row[k].nilBorders <==> right.None?) && row[k].content == [TextP(SlotValue(right, k - 4))])
  {
  }

  /** A conjugation row tiles the seven columns and continues only the spacer's merge. */
  lemma ConjugationRowShape(left: Option<ConjugationTuple>, right: Option<ConjugationTuple>)
    ensures ContinueShape(ConjugationRow(left, right))
  {
    var row := ConjugationRow(left, right);
    ConjugationRowLayout(left, right);
    assert row[3].column == 3 && row[3].merge == Continue;
  }

  /** addConjugationRow appends nothing when both tuples are null, otherwise exactly one row. */
  function ConjugationRows(left: Option<ConjugationTuple>, right: Option<ConjugationTuple>): (rows: seq<Row>)
    ensures left.None? && right.None? ==> rows == []
    ensures left.Some? || right.Some? ==> rows == [ConjugationRow(left, right)]
  {
    if left.None? && right.None? then [] else [ConjugationRow(left, right)]
  }

  /** The conjugation rows of a block, one candidate row per slot, in slot order. */
  function BodyRows(lefts: seq<Option<ConjugationTuple>>, rights: seq<Option<ConjugationTuple>>): (rows: seq<Row>)
    requires |lefts| == |rights|
    ensures |rows| <= |lefts|
  {
    if lefts == [] then []
    else BodyRows(lefts[..|lefts| - 1], rights[..|rights| - 1]) + ConjugationRows(lefts[|lefts| - 1], rights[|rights| - 1])
  }

  lemma BodyRowsSnoc(lefts: seq<Option<ConjugationTuple>>, rights: seq<Option<ConjugationTuple>>, k: nat)
    requires |lefts| == |rights| && k < |lefts|
    ensures BodyRows(lefts[..k + 1], rights[..k + 1]) == BodyRows(lefts[..k], rights[..k]) + ConjugationRows(lefts[k], rights[k])
  {
    assert lefts[..k + 1][..k] == lefts[..k] && rights[..k + 1][..k] == rights[..k];
  }

  lemma {:induction false} BodyRowsShape(lefts: seq<Option<ConjugationTuple>>, rights: seq<Option<ConjugationTuple>>)
    requires |lefts| == |rights|
    ensures forall i :: 0 <= i < |BodyRows(lefts, rights)| ==> ContinueShape(BodyRows(lefts, rights)[i])
  {
    if lefts != [] {
      var n := |lefts| - 1;
      BodyRowsShape(lefts[..n], rights[..n]);
      ConjugationRowShape(lefts[n], rights[n]);
      var init := BodyRows(lefts[..n], rights[..n]);
      var last := ConjugationRows(lefts[n], rights[n]);
      assert BodyRows(lefts, rights) == init + last;
      forall i | 0 <= i < |init + last| ensures ContinueShape((init + last)[i]) {
        if i < |init| {
          assert (init + last)[i] == init[i];
        } else {
          assert (init + last)[i] == last[i - |init|];
        }
      }
    }
  }

  /** A block: a caption row, conjugation rows continuing its spacer, and a closing separator. */
  ghost predicate Block(rows: seq<Row>) {
    && |rows| >= 2
    && Tiles(rows[0], NumOfColumns) && MergesAt(rows[0], 3, Restart) && NoContinue(rows[0])
    && Tiles(rows[|rows| - 1], NumOfColumns) && NoContinue(rows[|rows| - 1])
    && forall i :: 0 < i < |rows| - 1 ==> ContinueShape(rows[i])
  }

  /** The caption row, the body rows and the separator of one pair. */
  function PairBlock(leftCaption: Option<string>, rightCaption: Option<string>,
                     lefts: seq<Option<ConjugationTuple>>, rights: seq<Option<ConjugationTuple>>): (rows: seq<Row>)
    requires |lefts| == |rights|
    ensures 2 <= |rows| <= |lefts| + 2
    ensures rows[0] == CaptionRow(leftCaption, rightCaption)
    ensures rows[1..|rows| - 1] == BodyRows(lefts, rights)
    ensures rows[|rows| - 1] == SeparatorRow(NumOfColumns)
  {
    var body := BodyRows(lefts, rights);
    var rows := [CaptionRow(leftCaption, rightCaption)] + body + [SeparatorRow(NumOfColumns)];
    assert rows[1..|rows| - 1] == body;
    rows
  }

  /** The rows of one pair form a block. */
  lemma PairBlockIsBlock(leftCaption: Option<string>, rightCaption: Option<string>,
                         lefts: seq<Option<ConjugationTuple>>, rights: seq<Option<ConjugationTuple>>)
    requires |lefts| == |rights|
    ensures Block(PairBlock(leftCaption, rightCaption, lefts, rights))
  {
    var rows := PairBlock(leftCaption, rightCaption, lefts, rights);
    var body := BodyRows(lefts, rights);
    CaptionRowLayout(leftCaption, rightCaption);
    BodyRowsShape(lefts, rights);
    forall i | 0 < i < |rows| - 1 ensures ContinueShape(rows[i]) {
      assert rows[i] == rows[1..|rows| - 1][i - 1] == body[i - 1];
    }
    NoMergesNoContinue(SeparatorRow(NumOfColumns));
  }

  lemma NoMergesNoContinue(row: Row)
    requires NoMerges(row)
    ensures NoContinue(row)
  {
  }

  /** A side's caption: its term type, or null when the side is null. */
  function VerbCaption(group: Option<VerbConjugationGroup>): Option<string> {
    if group.None? then None else group.value.termType
  }

  function NounCaption(group: Option<NounConjugationGroup>): Option<string> {
    if group.None? then None else group.value.termType
  }

  /** A side's person tuples in row order; all null when the side is null. */
  function VerbTuples(group: Option<VerbConjugationGroup>): (tuples: seq<Option<ConjugationTuple>>)
    ensures |tuples| == 5
  {
    match group
    case None => [None, None, None, None, None]
    case Some(g) => [g.masculineThirdPerson, g.feminineThirdPerson, g.masculineSecondPerson,
                     g.feminineSecondPerson, g.firstPerson]
  }

  /** A side's case tuples in row order; all null when the side is null. */
  function NounTuples(group: Option<NounConjugationGroup>): (tuples: seq<Option<ConjugationTuple>>)
    ensures |tuples| == 3
  {
    match group
    case None => [None, None, None]
    case Some(g) => [g.nominative, g.accusative, g.genitive]
  }

  /** addTensePair: nothing for a null pair; otherwise a block of at most five conjugation rows. */
  function TensePairRows(pair: Option<VerbDetailedConjugationPair>): (rows: seq<Row>)
    ensures pair.None? ==> rows == []
    ensures pair.Some? ==> 2 <= |rows| <= 7
    ensures pair.Some? ==>
      rows[0] == CaptionRow(VerbCaption(pair.value.leftSideConjugations), VerbCaption(pair.value.rightSideConjugations))
  {
    match pair
    case None => []
    case Some(p) =>
      PairBlock(VerbCaption(p.leftSideConjugations), VerbCaption(p.rightSideConjugations),
                VerbTuples(p.leftSideConjugations), VerbTuples(p.rightSideConjugations))
  }

  /** addNounPair: nothing for a null pair; otherwise a block of at most three conjugation rows. */
  function NounPairRows(pair: Option<NounDetailedConjugationPair>): (rows: seq<Row>)
    ensures pair.None? ==> rows == []
    ensures pair.Some? ==> 2 <= |rows| <= 5
    ensures pair.Some? ==>
      rows[0] == CaptionRow(NounCaption(pair.value.leftSideConjugations), NounCaption(pair.value.rightSideConjugations))
  {
    match pair
    case None => []
    case Some(p) =>
      PairBlock(NounCaption(p.leftSideConjugations), NounCaption(p.rightSideConjugations),
                NounTuples(p.leftSideConjugations), NounTuples(p.rightSideConjugations))
  }

  /** The blocks of the pairs of an array, in array order. */
  function NounPairSeqRows(pairs: seq<Option<NounDetailedConjugationPair>>): seq<Row> {
    if pairs == [] then [] else NounPairSeqRows(pairs[..|pairs| - 1]) + NounPairRows(pairs[|pairs| - 1])
  }

  /** addNounPairs: nothing for a null or empty array. */
  function NounPairsRows(pairs: Option<seq<Option<NounDetailedConjugationPair>>>): seq<Row> {
    if OrEmpty(pairs) == [] then [] else NounPairSeqRows(pairs.value)
  }

  /** One call getChart makes for a record: a tense pair, a noun pair or an array of noun pairs. */
  datatype PairStep =
    | TenseStep(tensePair: Option<VerbDetailedConjugationPair>)
    | NounStep(nounPair: Option<NounDetailedConjugationPair>)
    | NounsStep(nounPairs: Option<seq<Option<NounDetailedConjugationPair>>>)

  /** The seven calls getChart makes for one record, in order. */
  function RecordSteps(d: DetailedConjugation): (steps: seq<PairStep>)
    ensures |steps| == 7
  {
    [TenseStep(d.activeTensePair), NounStep(d.activeParticiplePair), NounsStep(d.verbalNounPairs),
     TenseStep(d.passiveTensePair), NounStep(d.passiveParticiplePair),
     TenseStep(d.imperativeAndForbiddingPair), NounsStep(d.adverbPairs)]
  }

  function StepRows(step: PairStep): seq<Row> {
    match step
    case TenseStep(p) => TensePairRows(p)
    case NounStep(p) => NounPairRows(p)
    case NounsStep(ps) => NounPairsRows(ps)
  }

  /** The rows of a series of calls, in call order. */
  function StepsRows(steps: seq<PairStep>): seq<Row> {
    if steps == [] then [] else StepsRows(steps[..|steps| - 1]) + StepRows(steps[|steps| - 1])
  }

  /** The rows one detailed conjugation contributes. */
  function RecordRows(d: DetailedConjugation): seq<Row> {
    StepsRows(RecordSteps(d))
  }

  /** No record of the array is null. */
  predicate AllPresent(records: seq<Option<DetailedConjugation>>) {
    forall i :: 0 <= i < |records| ==> records[i].Some?
  }

  /** The index of the first null record, or the array's length when there is none. */
  function FirstNull(records: seq<Option<DetailedConjugation>>): (j: nat)
    ensures j <= |records|
    ensures j < |records| <==> !AllPresent(records)
    ensures j < |records| ==> records[j].None?
    ensures forall k :: 0 <= k < j ==> records[k].Some?
  {
    if records == [] then 0
    else if records[0].None? then 0
    else
      var j := FirstNull(records[1..]);
      assert forall k :: 1 <= k < j + 1 ==> records[k] == records[1..][k - 1];
      1 + j
  }

  /** AllPresent, as a recursion on the last record. */
  predicate NoneNull(records: seq<Option<DetailedConjugation>>) {
    records == [] || (NoneNull(records[..|records| - 1]) && records[|records| - 1].Some?)
  }

  lemma NoneNullSnoc(records: seq<Option<DetailedConjugation>>, i: nat)
    requires i < |records| && NoneNull(records[..i]) && records[i].Some?
    ensures NoneNull(records[..i + 1])
  {
    assert records[..i + 1][..i] == records[..i];
  }

  lemma {:induction false} NoneNullAllPresent(records: seq<Option<DetailedConjugation>>)
    requires NoneNull(records)
    ensures AllPresent(records)
  {
    if records != [] {
      NoneNullAllPresent(records[..|records| - 1]);
      assert forall j :: 0 <= j < |records| - 1 ==> records[..|records| - 1][j] == records[j];
    }
  }

  /** The rows of the records of an array, in array order. */
  function ChartRows(records: seq<Option<DetailedConjugation>>): seq<Row> {
    if records == [] then []
    else
      ChartRows(records[..|records| - 1])
      + match records[|records| - 1] { case None => [] case Some(d) => RecordRows(d) }
  }

  /** getChart: the records' rows in array order; a null record raises NullPointerException. */
  function DetailedChart(records: seq<Option<DetailedConjugation>>): (r: Result<seq<Row>>)
    ensures r.Ok? <==> AllPresent(records)
    ensures r.Ok? ==> r.value == ChartRows(records)
    ensures r.Fail? ==> r.fault == NullPointer
  {
    if AllPresent(records) then Ok(ChartRows(records)) else Fail(NullPointer)
  }

  /** Rows that tile the seven columns and whose vertical merges are anchored. */
  ghost predicate WellFormed(rows: seq<Row>) {
    AllTile(rows, NumOfColumns) && Anchored(rows)
  }

  lemma BlockWellFormed(rows: seq<Row>)
    requires Block(rows)
    ensures WellFormed(rows)
  {
    forall i, k | 0 <= i < |rows| && 0 <= k < |rows[i]| && rows[i][k].merge == Continue
      ensures 0 < i
      ensures MergesAt(rows[i - 1], rows[i][k].column, Restart) || MergesAt(rows[i - 1], rows[i][k].column, Continue)
    {
      assert 0 < i < |rows| - 1;
      assert rows[i][k].column == 3;
    }
  }

  lemma WellFormedConcat(a: seq<Row>, b: seq<Row>)
    requires WellFormed(a) && WellFormed(b)
    ensures WellFormed(a + b)
  {
    AllTileConcat(a, b, NumOfColumns);
    AnchoredConcat(a, b);
  }

  lemma TensePairWellFormed(pair: Option<VerbDetailedConjugationPair>)
    ensures WellFormed(TensePairRows(pair))
  {
    if pair.Some? {
      var p := pair.value;
      PairBlockIsBlock(VerbCaption(p.leftSideConjugations), VerbCaption(p.rightSideConjugations),
                       VerbTuples(p.leftSideConjugations), VerbTuples(p.rightSideConjugations));
      BlockWellFormed(TensePairRows(pair));
    }
  }

  lemma NounPairWellFormed(pair: Option<NounDetailedConjugationPair>)
    ensures WellFormed(NounPairRows(pair))
  {
    if pair.Some? {
      var p := pair.value;
      PairBlockIsBlock(NounCaption(p.leftSideConjugations), NounCaption(p.rightSideConjugations),
                       NounTuples(p.leftSideConjugations), NounTuples(p.rightSideConjugations));
      BlockWellFormed(NounPairRows(pair));
    }
  }

  lemma {:induction false} NounPairSeqWellFormed(pairs: seq<Option<NounDetailedConjugationPair>>)
    ensures WellFormed(NounPairSeqRows(pairs))
  {
    if pairs != [] {
      NounPairSeqWellFormed(pairs[..|pairs| - 1]);
      NounPairWellFormed(pairs[|pairs| - 1]);
      WellFormedConcat(NounPairSeqRows(pairs[..|pairs| - 1]), NounPairRows(pairs[|pairs| - 1]));
    }
  }

  lemma NounPairsWellFormed(pairs: Option<seq<Option<NounDetailedConjugationPair>>>)
    ensures WellFormed(NounPairsRows(pairs))
  {
    if OrEmpty(pairs) != [] {
      NounPairSeqWellFormed(pairs.value);
    }
  }

  /** Every row one record contributes tiles seven columns, and its merges are anchored. */
  lemma StepWellFormed(step: PairStep)
    ensures WellFormed(StepRows(step))
  {
    match step
    case TenseStep(p) => TensePairWellFormed(p);
    case NounStep(p) => NounPairWellFormed(p);
    case NounsStep(ps) => NounPairsWellFormed(ps);
  }

  lemma {:induction false} StepsWellFormed(steps: seq<PairStep>)
    ensures WellFormed(StepsRows(steps))
  {
    if steps != [] {
      StepsWellFormed(steps[..|steps| - 1]);
      StepWellFormed(steps[|steps| - 1]);
      WellFormedConcat(StepsRows(steps[..|steps| - 1]), StepRows(steps[|steps| - 1]));
    }
  }

  /** Every row one record contributes tiles seven columns, and its merges are anchored. */
  lemma RecordRowsWellFormed(d: DetailedConjugation)
    ensures WellFormed(RecordRows(d))
  {
    StepsWellFormed(RecordSteps(d));
  }

  /**
   * Every row of a detailed chart tiles the seven columns (so its spans sum
   * to 7) and every CONTINUE spacer belongs to a merge a RESTART began in an
   * earlier row of the same block.
   */
  lemma {:induction false} ChartRowsWellFormed(records: seq<Option<DetailedConjugation>>)
    ensures WellFormed(ChartRows(records))
  {
    if records != [] {
      var init := records[..|records| - 1];
      ChartRowsWellFormed(init);
      if records[|records| - 1].Some? {
        RecordRowsWellFormed(records[|records| - 1].value);
        WellFormedConcat(ChartRows(init), RecordRows(records[|records| - 1].value));
      } else {
        assert ChartRows(records) == ChartRows(init) + [];
      }
    }
  }

  lemma DetailedChartWellFormed(records: seq<Option<DetailedConjugation>>)
    requires DetailedChart(records).Ok?
    ensures WellFormed(DetailedChart(records).value)
  {
    ChartRowsWellFormed(records);
  }

  /** The spans of every row of a detailed chart sum to seven. */
  lemma DetailedChartSpans(records: seq<Option<DetailedConjugation>>, i: nat)
    requires DetailedChart(records).Ok? && i < |DetailedChart(records).value|
    ensures SpanSum(DetailedChart(records).value[i]) == NumOfColumns
  {
    DetailedChartWellFormed(records);
    TilesSpanSum(DetailedChart(records).value[i], NumOfColumns);
  }

  /** The steps the detailed adapter adds to a document: its table, or the exception. */
  function DetailedDocumentParts(priorRows: seq<Row>, records: seq<Option<DetailedConjugation>>): (b: Build)
    ensures b.thrown.None? <==> DetailedChart(records).Ok?
    ensures b.thrown.None? ==> b.parts == [DetailedTable(priorRows + DetailedChart(records).value)]
    ensures b.thrown.Some? ==> b.parts == [] && b.thrown == Some(NullPointer)
  {
    match DetailedChart(records)
    case Ok(rows) => Build([DetailedTable(priorRows + rows)], None)
    case Fail(f) => Build([], Some(f))
  }

  class DetailedConjugationAdapter {
    const detailedConjugations: seq<Option<DetailedConjugation>>
    const tableAdapter: TableAdapter

    /** A null or empty array becomes an empty one; the table gets the seven column widths. */
    constructor (detailedConjugations: Option<seq<Option<DetailedConjugation>>>)
      ensures this.detailedConjugations == OrEmpty(detailedConjugations)
      ensures fresh(tableAdapter)
      ensures tableAdapter.widths == ColumnWidths && |tableAdapter.widths| == NumOfColumns
      ensures tableAdapter.rows == [] && tableAdapter.open.None?
    {
      this.detailedConjugations := OrEmpty(detailedConjugations);
      tableAdapter := new TableAdapter.StartTable(ColumnWidths);
    }

    method AddCaptionRow(leftCaption: Option<string>, rightCaption: Option<string>)
      requires tableAdapter.open.None?
      modifies tableAdapter
      ensures tableAdapter.widths == old(tableAdapter.widths) && tableAdapter.open.None?
      ensures tableAdapter.rows == old(tableAdapter.rows) + [CaptionRow(leftCaption, rightCaption)]
    {
      var leftTcPr := ColumnProperties(leftCaption);
      var rightTcPr := ColumnProperties(rightCaption);
      tableAdapter.StartRow();
      tableAdapter.AddColumn(0, Some(3), NoMerge, leftTcPr, [CaptionP(leftCaption)]);
      tableAdapter.AddColumn(3, None, Restart, ColumnProperties<string>(None), [NoSpacingP]);
      tableAdapter.AddColumn(4, Some(3), NoMerge, rightTcPr, [CaptionP(rightCaption)]);
      assert tableAdapter.open.value == CaptionRow(leftCaption, rightCaption);
      tableAdapter.EndRow();
    }

    method AddConjugationRow(left: Option<ConjugationTuple>, right: Option<ConjugationTuple>)
      requires tableAdapter.open.None?
      modifies tableAdapter
      ensures tableAdapter.widths == old(tableAdapter.widths) && tableAdapter.open.None?
      ensures tableAdapter.rows == old(tableAdapter.rows) + ConjugationRows(left, right)
    {
      if left.None? && right.None? {
        return;
      }
      tableAdapter.StartRow();

      var empty := left.None?;
      var tcPr := empty;
      var rootWord := if empty then None else left.value.plural;
      tableAdapter.AddColumn(0, None, NoMerge, tcPr, [TextP(ValueOf(rootWord))]);
      rootWord := if empty then None else left.value.dual;
      tableAdapter.AddColumn(1, None, NoMerge, tcPr, [TextP(ValueOf(rootWord))]);
      rootWord := if empty then None else left.value.singular;
      tableAdapter.AddColumn(2, None, NoMerge, tcPr, [TextP(ValueOf(rootWord))]);
      assert tableAdapter.open.value == [SlotCell(left, 0, 0), SlotCell(left, 0, 1), SlotCell(left, 0, 2)];

      tcPr := true;
      tableAdapter.AddColumn(3, None, Continue, tcPr, [NoSpacingP]);
      ghost var leftHalf := tableAdapter.open.value;

      empty := right.None?;
      tcPr := empty;
      rootWord := if empty then None else right.value.plural;
      tableAdapter.AddColumn(4, None, NoMerge, tcPr, [TextP(ValueOf(rootWord))]);
      rootWord := if empty then None else right.value.dual;
      tableAdapter.AddColumn(5, None, NoMerge, tcPr, [TextP(ValueOf(rootWord))]);
      rootWord := if empty then None else right.value.singular;
      tableAdapter.AddColumn(6, None, NoMerge, tcPr, [TextP(ValueOf(rootWord))]);
      assert tableAdapter.open.value == leftHalf + [SlotCell(right, 4, 0), SlotCell(right, 4, 1), SlotCell(right, 4, 2)];

      assert tableAdapter.open.value == ConjugationRow(left, right);
      tableAdapter.EndRow();
    }

    method AddTensePair(pair: Option<VerbDetailedConjugationPair>)
      requires tableAdapter.open.None?
      modifies tableAdapter
      ensures tableAdapter.widths == old(tableAdapter.widths) && tableAdapter.open.None?
      ensures tableAdapter.rows == old(tableAdapter.rows) + TensePairRows(pair)
    {
      if pair.None? {
        return;
      }
      var left := pair.value.leftSideConjugations;
      var right := pair.value.rightSideConjugations;
      var noLeft := left.None?;
      var noRight := right.None?;
      AddCaptionRow(VerbCaption(left), VerbCaption(right));
      ghost var r0 := tableAdapter.rows;
      ghost var body: seq<Row>;
      var leftTuple, rightTuple;

      leftTuple := if noLeft then None else left.value.masculineThirdPerson;
      rightTuple := if noRight then None else right.value.masculineThirdPerson;
      AddConjugationRow(leftTuple, rightTuple);
      body := ConjugationRows(leftTuple, rightTuple);

      leftTuple := if noLeft then None else left.value.feminineThirdPerson;
      rightTuple := if noRight then None else right.value.feminineThirdPerson;
      AddConjugationRow(leftTuple, rightTuple);
      assert tableAdapter.rows == r0 + (body + ConjugationRows(leftTuple, rightTuple)) by {
        AppendAssoc(r0, body, ConjugationRows(leftTuple, rightTuple));
      }
      body := body + ConjugationRows(leftTuple, rightTuple);

      leftTuple := if noLeft then None else left.value.masculineSecondPerson;
      rightTuple := if noRight then None else right.value.masculineSecondPerson;
      AddConjugationRow(leftTuple, rightTuple);
      assert tableAdapter.rows == r0 + (body + ConjugationRows(leftTuple, rightTuple)) by {
        AppendAssoc(r0, body, ConjugationRows(leftTuple, rightTuple));
      }
      body := body + ConjugationRows(leftTuple, rightTuple);

      leftTuple := if noLeft then None else left.value.feminineSecondPerson;
      rightTuple := if noRight then None else right.value.feminineSecondPerson;
      AddConjugationRow(leftTuple, rightTuple);
      assert tableAdapter.rows == r0 + (body + ConjugationRows(leftTuple, rightTuple)) by {
        AppendAssoc(r0, body, ConjugationRows(leftTuple, rightTuple));
      }
      body := body + ConjugationRows(leftTuple, rightTuple);

      leftTuple := if noLeft then None else left.value.firstPerson;
      rightTuple := if noRight then None else right.value.firstPerson;
      AddConjugationRow(leftTuple, rightTuple);
      assert tableAdapter.rows == r0 + (body + ConjugationRows(leftTuple, rightTuple)) by {
        AppendAssoc(r0, body, ConjugationRows(leftTuple, rightTuple));
      }
      body := body + ConjugationRows(leftTuple, rightTuple);

      VerbBodyRows(left, right);
      AddSeparatorRow(tableAdapter, NumOfColumns);
      ghost var caption := [CaptionRow(VerbCaption(left), VerbCaption(right))];
      assert body == BodyRows(VerbTuples(left), VerbTuples(right));
      AppendAssoc(old(tableAdapter.rows), caption, body);
      AppendAssoc(old(tableAdapter.rows), caption + body, [SeparatorRow(NumOfColumns)]);
    }

    method AddNounPair(pair: Option<NounDetailedConjugationPair>)
      requires tableAdapter.open.None?
      modifies tableAdapter
      ensures tableAdapter.widths == old(tableAdapter.widths) && tableAdapter.open.None?
      ensures tableAdapter.rows == old(tableAdapter.rows) + NounPairRows(pair)
    {
      if pair.None? {
        return;
      }
      var left := pair.value.leftSideConjugations;
      var right := pair.value.rightSideConjugations;
      var noLeft := left.None?;
      var noRight := right.None?;
      AddCaptionRow(NounCaption(left), NounCaption(right));
      ghost var r0 := tableAdapter.rows;
      ghost var body: seq<Row>;
      var leftTuple, rightTuple;

      leftTuple := if noLeft then None else left.value.nominative;
      rightTuple := if noRight then None else right.value.nominative;
      AddConjugationRow(leftTuple, rightTuple);
      body := ConjugationRows(leftTuple, rightTuple);

      leftTuple := if noLeft then None else left.value.accusative;
      rightTuple := if noRight then None else right.value.accusative;
      AddConjugationRow(leftTuple, rightTuple);
      assert tableAdapter.rows == r0 + (body + ConjugationRows(leftTuple, rightTuple)) by {
        AppendAssoc(r0, body, ConjugationRows(leftTuple, rightTuple));
      }
      body := body + ConjugationRows(leftTuple, rightTuple);

      leftTuple := if noLeft then None else left.value.genitive;
      rightTuple := if noRight then None else right.value.genitive;
      AddConjugationRow(leftTuple, rightTuple);
      assert tableAdapter.rows == r0 + (body + ConjugationRows(leftTuple, rightTuple)) by {
        AppendAssoc(r0, body, ConjugationRows(leftTuple, rightTuple));
      }
      body := body + ConjugationRows(leftTuple, rightTuple);

      NounBodyRows(left, right);
      AddSeparatorRow(tableAdapter, NumOfColumns);
      ghost var caption := [CaptionRow(NounCaption(left), NounCaption(right))];
      assert body == BodyRows(NounTuples(left), NounTuples(right));
      AppendAssoc(old(tableAdapter.rows), caption, body);
      AppendAssoc(old(tableAdapter.rows), caption + body, [SeparatorRow(NumOfColumns)]);
    }

    method AddNounPairs(pairs: Option<seq<Option<NounDetailedConjugationPair>>>)
      requires tableAdapter.open.None?
      modifies tableAdapter
      ensures tableAdapter.widths == old(tableAdapter.widths) && tableAdapter.open.None?
      ensures tableAdapter.rows == old(tableAdapter.rows) + NounPairsRows(pairs)
    {
      if OrEmpty(pairs) == [] {
        return;
      }
      var ps := pairs.value;
      var i := 0;
      while i < |ps|
        invariant 0 <= i <= |ps|
        invariant tableAdapter.widths == old(tableAdapter.widths) && tableAdapter.open.None?
        invariant tableAdapter.rows == old(tableAdapter.rows) + NounPairSeqRows(ps[..i])
      {
        AddNounPair(ps[i]);
        NounPairSeqRowsSnoc(ps, i);
        AppendAssoc(old(tableAdapter.rows), NounPairSeqRows(ps[..i]), NounPairRows(ps[i]));
        i := i + 1;
      }
      assert ps[..i] == ps;
    }

    /** One pass of getChart's loop: the seven pair kinds of one record, in order. */
    method AddDetailedConjugation(d: DetailedConjugation)
      requires tableAdapter.open.None?
      modifies tableAdapter
      ensures tableAdapter.widths == old(tableAdapter.widths) && tableAdapter.open.None?
      ensures tableAdapter.rows == old(tableAdapter.rows) + RecordRows(d)
    {
      ghost var r0 := tableAdapter.rows;
      ghost var added: seq<Row>;
      AddTensePair(d.activeTensePair);
      added := TensePairRows(d.activeTensePair);
      AddNounPair(d.activeParticiplePair);
      assert tableAdapter.rows == r0 + (added + NounPairRows(d.activeParticiplePair)) by {
        AppendAssoc(r0, added, NounPairRows(d.activeParticiplePair));
      }
      added := added + NounPairRows(d.activeParticiplePair);
      AddNounPairs(d.verbalNounPairs);
      assert tableAdapter.rows == r0 + (added + NounPairsRows(d.verbalNounPairs)) by {
        AppendAssoc(r0, added, NounPairsRows(d.verbalNounPairs));
      }
      added := added + NounPairsRows(d.verbalNounPairs);
      AddTensePair(d.passiveTensePair);
      assert tableAdapter.rows == r0 + (added + TensePairRows(d.passiveTensePair)) by {
        AppendAssoc(r0, added, TensePairRows(d.passiveTensePair));
      }
      added := added + TensePairRows(d.passiveTensePair);
      AddNounPair(d.passiveParticiplePair);
      assert tableAdapter.rows == r0 + (added + NounPairRows(d.passiveParticiplePair)) by {
        AppendAssoc(r0, added, NounPairRows(d.passiveParticiplePair));
      }
      added := added + NounPairRows(d.passiveParticiplePair);
      AddTensePair(d.imperativeAndForbiddingPair);
      assert tableAdapter.rows == r0 + (added + TensePairRows(d.imperativeAndForbiddingPair)) by {
        AppendAssoc(r0, added, TensePairRows(d.imperativeAndForbiddingPair));
      }
      added := added + TensePairRows(d.imperativeAndForbiddingPair);
      AddNounPairs(d.adverbPairs);
      assert tableAdapter.rows == r0 + (added + NounPairsRows(d.adverbPairs)) by {
        AppendAssoc(r0, added, NounPairsRows(d.adverbPairs));
      }
      added := added + NounPairsRows(d.adverbPairs);
      RecordRowsUnfold(d);
    }

    /** One pass of getChart's loop over a non-null record: its rows follow those of the records before it. */
    method AddRecordAt(records: seq<Option<DetailedConjugation>>, i: nat, ghost prior: seq<Row>)
      requires i < |records| && records[i].Some?
      requires tableAdapter.open.None? && tableAdapter.rows == prior + ChartRows(records[..i])
      modifies tableAdapter
      ensures tableAdapter.widths == old(tableAdapter.widths) && tableAdapter.open.None?
      ensures tableAdapter.rows == prior + ChartRows(records[..i + 1])
    {
      ghost var before := tableAdapter.rows;
      AddDetailedConjugation(records[i].value);
      ChartRowsAppend(prior, records, i, before, tableAdapter.rows);
    }

    /** getChart's loop: each record's rows in array order, up to the first null record. */
    method AddRecordsUntilNull() returns (i: nat)
      requires tableAdapter.open.None?
      modifies tableAdapter
      ensures tableAdapter.widths == old(tableAdapter.widths) && tableAdapter.open.None?
      ensures i == FirstNull(detailedConjugations)
      ensures tableAdapter.rows == old(tableAdapter.rows) + ChartRows(detailedConjugations[..i])
    {
      var records := detailedConjugations;
      ghost var prior := tableAdapter.rows;
      i := 0;
      while i < |records| && records[i].Some?
        invariant 0 <= i <= |records|
        invariant tableAdapter.widths == old(tableAdapter.widths) && tableAdapter.open.None?
        invariant NoneNull(records[..i])
        invariant tableAdapter.rows == prior + ChartRows(records[..i])
      {
        AddRecordAt(records, i, prior);
        NoneNullSnoc(records, i);
        i := i + 1;
      }
      StopIsFirstNull(detailedConjugations, i);
    }

    method GetChart() returns (chart: Result<seq<Row>>)
      requires tableAdapter.open.None?
      modifies tableAdapter
      ensures tableAdapter.widths == old(tableAdapter.widths) && tableAdapter.open.None?
      ensures chart.Ok? <==> DetailedChart(detailedConjugations).Ok?
      ensures chart.Ok? ==> tableAdapter.rows == old(tableAdapter.rows) + DetailedChart(detailedConjugations).value
      ensures chart.Ok? ==> chart.value == tableAdapter.rows
      ensures chart.Fail? ==> chart == DetailedChart(detailedConjugations)
      ensures chart.Fail? ==> tableAdapter.rows == old(tableAdapter.rows) + ChartRows(detailedConjugations[..FirstNull(detailedConjugations)])
      ensures old(tableAdapter.rows) <= tableAdapter.rows
    {
      var i := AddRecordsUntilNull();
      AppendPrefix(old(tableAdapter.rows), ChartRows(detailedConjugations[..i]));
      if i < |detailedConjugations| {
        return Fail(NullPointer);
      }
      assert detailedConjugations[..i] == detailedConjugations;
      return Ok(tableAdapter.rows);
    }

    /** ChartAdapter.buildDocument: the chart's table is added to the document once getChart returns. */
    method BuildDocument(mdp: MainDocumentPart) returns (thrown: Option<Fault>)
      requires tableAdapter.open.None?
      modifies tableAdapter, mdp
      ensures mdp.content == old(mdp.content) + DetailedDocumentParts(old(tableAdapter.rows), detailedConjugations).parts
      ensures thrown == DetailedDocumentParts(old(tableAdapter.rows), detailedConjugations).thrown
    {
      var chart := GetChart();
      if chart.Fail? {
        return Some(chart.fault);
      }
      mdp.content := mdp.content + [DetailedTable(chart.value)];
      return None;
    }
  }

  lemma NounPairSeqRowsSnoc(ps: seq<Option<NounDetailedConjugationPair>>, i: nat)
    requires i < |ps|
    ensures NounPairSeqRows(ps[..i + 1]) == NounPairSeqRows(ps[..i]) + NounPairRows(ps[i])
  {
    assert ps[..i + 1][..i] == ps[..i];
  }

  lemma ChartRowsSnoc(records: seq<Option<DetailedConjugation>>, i: nat)
    requires i < |records| && records[i].Some?
    ensures ChartRows(records[..i + 1]) == ChartRows(records[..i]) + RecordRows(records[i].value)
  {
    assert records[..i + 1][..i] == records[..i];
  }

  /** The body rows of a tense pair, one candidate row per person, in row order. */
  lemma VerbBodyRows(left: Option<VerbConjugationGroup>, right: Option<VerbConjugationGroup>)
    ensures BodyRows(VerbTuples(left), VerbTuples(right))
         == ConjugationRows(if left.None? then None else left.value.masculineThirdPerson,
                            if right.None? then None else right.value.masculineThirdPerson)
          + ConjugationRows(if left.None? then None else left.value.feminineThirdPerson,
                            if right.None? then None else right.value.feminineThirdPerson)
          + ConjugationRows(if left.None? then None else left.value.masculineSecondPerson,
                            if right.None? then None else right.value.masculineSecondPerson)
          + ConjugationRows(if left.None? then None else left.value.feminineSecondPerson,
                            if right.None? then None else right.value.feminineSecondPerson)
          + ConjugationRows(if left.None? then None else left.value.firstPerson,
                            if right.None? then None else right.value.firstPerson)
  {
    BodyRowsOfFive(VerbTuples(left), VerbTuples(right));
  }

  /** The body rows of a noun pair, one candidate row per case, in row order. */
  lemma NounBodyRows(left: Option<NounConjugationGroup>, right: Option<NounConjugationGroup>)
    ensures BodyRows(NounTuples(left), NounTuples(right))
         == ConjugationRows(if left.None? then None else left.value.nominative,
                            if right.None? then None else right.value.nominative)
          + ConjugationRows(if left.None? then None else left.value.accusative,
                            if right.None? then None else right.value.accusative)
          + ConjugationRows(if left.None? then None else left.value.genitive,
                            if right.None? then None else right.value.genitive)
  {
    BodyRowsOfThree(NounTuples(left), NounTuples(right));
  }

  lemma BodyRowsOfThree(lefts: seq<Option<ConjugationTuple>>, rights: seq<Option<ConjugationTuple>>)
    requires |lefts| == |rights| == 3
    ensures BodyRows(lefts, rights)
         == ConjugationRows(lefts[0], rights[0]) + ConjugationRows(lefts[1], rights[1])
          + ConjugationRows(lefts[2], rights[2])
  {
    var a, b, c := ConjugationRows(lefts[0], rights[0]), ConjugationRows(lefts[1], rights[1]), ConjugationRows(lefts[2], rights[2]);
    assert BodyRows(lefts[..1], rights[..1]) == a by {
      assert lefts[..0] == [] && rights[..0] == [];
      BodyRowsSnoc(lefts, rights, 0);
    }
    assert BodyRows(lefts[..2], rights[..2]) == a + b by {
      BodyRowsSnoc(lefts, rights, 1);
    }
    assert BodyRows(lefts, rights) == BodyRows(lefts[..2], rights[..2]) + c;
  }

  lemma BodyRowsOfFive(lefts: seq<Option<ConjugationTuple>>, rights: seq<Option<ConjugationTuple>>)
    requires |lefts| == |rights| == 5
    ensures BodyRows(lefts, rights)
         == ConjugationRows(lefts[0], rights[0]) + ConjugationRows(lefts[1], rights[1])
          + ConjugationRows(lefts[2], rights[2]) + ConjugationRows(lefts[3], rights[3])
          + ConjugationRows(lefts[4], rights[4])
  {
    BodyRowsOfThree(lefts[..3], rights[..3]);
    BodyRowsSnoc(lefts, rights, 3);
    assert BodyRows(lefts, rights) == BodyRows(lefts[..4], rights[..4]) + ConjugationRows(lefts[4], rights[4]);
  }

  lemma StepsRowsSnoc(steps: seq<PairStep>, k: nat)
    requires k < |steps|
    ensures StepsRows(steps[..k + 1]) == StepsRows(steps[..k]) + StepRows(steps[k])
  {
    assert steps[..k + 1][..k] == steps[..k];
  }

  lemma RecordRowsUnfold(d: DetailedConjugation)
    ensures RecordRows(d)
         == TensePairRows(d.activeTensePair) + NounPairRows(d.activeParticiplePair) + NounPairsRows(d.verbalNounPairs)
          + TensePairRows(d.passiveTensePair) + NounPairRows(d.passiveParticiplePair)
          + TensePairRows(d.imperativeAndForbiddingPair) + NounPairsRows(d.adverbPairs)
  {
    var steps := RecordSteps(d);
    StepsRowsOfSeven(steps);
  }

  lemma StepsRowsOfSeven(steps: seq<PairStep>)
    requires |steps| == 7
    ensures StepsRows(steps)
         == StepRows(steps[0]) + StepRows(steps[1]) + StepRows(steps[2]) + StepRows(steps[3])
          + StepRows(steps[4]) + StepRows(steps[5]) + StepRows(steps[6])
  {
    assert steps[..0] == [];
    var a, b, c, e, f, g, h := StepRows(steps[0]), StepRows(steps[1]), StepRows(steps[2]), StepRows(steps[3]), StepRows(steps[4]), StepRows(steps[5]), StepRows(steps[6]);
    assert StepsRows(steps[..1]) == a by {
      StepsRowsSnoc(steps, 0);
    }
    assert StepsRows(steps[..2]) == a + b by {
      StepsRowsSnoc(steps, 1);
    }
    assert StepsRows(steps[..3]) == a + b + c by {
      StepsRowsSnoc(steps, 2);
    }
    assert StepsRows(steps[..4]) == a + b + c + e by {
      StepsRowsSnoc(steps, 3);
    }
    assert StepsRows(steps[..5]) == a + b + c + e + f by {
      StepsRowsSnoc(steps, 4);
    }
    assert StepsRows(steps[..6]) == a + b + c + e + f + g by {
      StepsRowsSnoc(steps, 5);
    }
    assert StepsRows(steps) == StepsRows(steps[..6]) + h;
  }

  lemma ChartRowsAppend(prior: seq<Row>, records: seq<Option<DetailedConjugation>>, i: nat, before: seq<Row>, after: seq<Row>)
    requires i < |records| && records[i].Some?
    requires before == prior + ChartRows(records[..i])
    requires after == before + RecordRows(records[i].value)
    ensures after == prior + ChartRows(records[..i + 1])
  {
    ChartRowsSnoc(records, i);
    AppendAssoc(prior, ChartRows(records[..i]), RecordRows(records[i].value));
  }

  lemma NullRecordFails(records: seq<Option<DetailedConjugation>>, i: nat)
    requires i < |records| && records[i].None?
    ensures DetailedChart(records) == Fail(NullPointer)
  {
  }

  lemma AllRecordsBuild(records: seq<Option<DetailedConjugation>>)
    requires NoneNull(records)
    ensures DetailedChart(records) == Ok(ChartRows(records))
  {
    NoneNullAllPresent(records);
  }

  /** getChart's loop stops at the first null record, or after the last record. */
  lemma StopIsFirstNull(records: seq<Option<DetailedConjugation>>, i: nat)
    requires i <= |records| && NoneNull(records[..i])
    requires i < |records| ==> records[i].None?
    ensures i == FirstNull(records)
  {
    NoneNullAllPresent(records[..i]);
    if i == |records| {
      assert records[..i] == records;
    }
  }
}
