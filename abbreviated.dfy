/**
 * AbbreviatedConjugationAdapter: the four-column summary chart. Per record it
 * writes an optional title row, an optional header row, one row per line that
 * is present (active, passive, command, adverb) and a separator row.
 */
module Abbreviated {
  import opened Wrappers
  import opened Content
  import opened Conjugation
  import opened Table
  import opened WmlHelper
  import opened Documents

  const NumOfColumns: nat := 4

  /** `startTable(25.0, 25.0, 25.0, 25.0)`. */
  const ColumnWidths: seq<real> := [25.0, 25.0, 25.0, 25.0]

  /** WmlAdapter.getEmptyPara: a paragraph with no style and no runs. */
  const EmptyPara := Para(None, [])

  /** 1 for a present line, 0 for a null one. */
  function Count<T>(o: Option<T>): nat {
    if o.Some? then 1 else 0
  }

  // ---------------------------------------------------------------- title

  /**
   * The title of createTitlePara: the header's title when the header and its
   * title are there, otherwise getTitleWord of the active line.
   */
  function TitleText(a: AbbreviatedConjugation): (w: Word)
    ensures a.conjugationHeader.Some? && a.conjugationHeader.value.title.Some? ==>
              w == Letters(a.conjugationHeader.value.title.value)
    ensures a.conjugationHeader.None? || a.conjugationHeader.value.title.None? ==> w == TitleWord(a.activeLine)
  {
    if a.conjugationHeader.Some? && a.conjugationHeader.value.title.Some? then
      Letters(a.conjugationHeader.value.title.value)
    else
      TitleWord(a.activeLine)
  }

  /** The heading paragraph holding the title, as one run. */
  function TitlePara(a: AbbreviatedConjugation): Para {
    Para(Some(ArabicHeadingStyle), [Run(None, TitleText(a), false)])
  }

  /** addTitleRow: one border-less cell across the four columns. */
  function TitleRow(a: AbbreviatedConjugation): Row {
    [Cell(0, NumOfColumns, NoMerge, true, [TitlePara(a)])]
  }

  // --------------------------------------------------------------- header

  /** getTranslationPara's text: a null translation is written as "". */
  function TranslationText(translation: Option<string>): (s: string)
    ensures translation.None? ==> s == ""
    ensures translation.Some? ==> s == translation.value
  {
    translation.GetOr("")
  }

  function TranslationPara(translation: Option<string>): Para {
    Para(None, [Run(None, Letters(TranslationText(translation)), false)])
  }

  /** The paragraph of one type label. */
  function LabelPara(typeLabel: string): Para {
    Para(Some(ArabicNormalStyle), [Run(None, Letters(typeLabel), false)])
  }

  /** getHeaderLabelPara: `label.toUnicode()` raises NullPointerException on a null label. */
  function HeaderLabelPara(typeLabel: Option<string>): (r: Result<Para>)
    ensures r.Ok? <==> typeLabel.Some?
    ensures r.Ok? ==> r.value == LabelPara(typeLabel.value)
    ensures r.Fail? ==> r.fault == NullPointer
  {
    match typeLabel
    case None => Fail(NullPointer)
    case Some(l) => Ok(LabelPara(l))
  }

  /** The three type labels of a header are all there. */
  predicate LabelsPresent(h: ConjugationHeader) {
    h.typeLabel1.Some? && h.typeLabel2.Some? && h.typeLabel3.Some?
  }

  /**
   * addHeaderRow: the empty paragraph and the translation across columns 0-1,
   * the three type labels across columns 2-3. A null header or a null label
   * raises NullPointerException before the row is started.
   */
  function HeaderRow(header: Option<ConjugationHeader>): (r: Result<Row>)
    ensures r.Ok? <==> header.Some? && LabelsPresent(header.value)
    ensures r.Fail? ==> r.fault == NullPointer
  {
    if header.None? then Fail(NullPointer)
    else
      var h := header.value;
      var p1 :- HeaderLabelPara(h.typeLabel1);
      var p2 :- HeaderLabelPara(h.typeLabel2);
      var p3 :- HeaderLabelPara(h.typeLabel3);
      Ok([Cell(0, 2, NoMerge, false, [EmptyPara, TranslationPara(h.translation)]),
          Cell(2, 2, NoMerge, false, [p1, p2, p3])])
  }

  /** The header row's two cells, and the three labels in order in the second. */
  lemma HeaderRowLayout(h: ConjugationHeader)
    requires LabelsPresent(h)
    ensures var row := HeaderRow(Some(h)).value;
      && |row| == 2
      && row[0].column == 0 && row[0].span == 2 && row[1].column == 2 && row[1].span == 2
      && row[0].content == [EmptyPara, TranslationPara(h.translation)]
      && row[1].content == [LabelPara(h.typeLabel1.value), LabelPara(h.typeLabel2.value), LabelPara(h.typeLabel3.value)]
      && Tiles(row, NumOfColumns) && NoMerges(row)
  {
  }

  // --------------------------------------------------------- root letters

  /** The labels of the radicals: three, and the fourth when there is one. */
  function RadicalLabels(first: string, second: string, third: string, fourth: Option<string>): seq<string> {
    [first, second, third] + if fourth.Some? then [fourth.value] else []
  }

  /**
   * getRootLetters: "" without a header or without root letters, otherwise
   * the radicals' labels joined with spaces; a null first, second or third
   * radical raises NullPointerException (the fourth is optional).
   */
  function RootLettersText(header: Option<ConjugationHeader>): (r: Result<Word>)
    ensures header.None? || header.value.rootLetters.None? ==> r == Ok(Letters(""))
    ensures header.Some? && header.value.rootLetters.Some? ==>
      var rl := header.value.rootLetters.value;
      && (r.Fail? <==> rl.firstRadical.None? || rl.secondRadical.None? || rl.thirdRadical.None?)
      && (r.Fail? ==> r.fault == NullPointer)
      && (r.Ok? ==>
        && r.value.SpaceJoined?
        && |r.value.parts| == (if rl.fourthRadical.Some? then 4 else 3)
        && r.value.parts[0] == Letters(rl.firstRadical.value)
        && r.value.parts[1] == Letters(rl.secondRadical.value)
        && r.value.parts[2] == Letters(rl.thirdRadical.value)
        && (rl.fourthRadical.Some? ==> r.value.parts[3] == Letters(rl.fourthRadical.value)))
  {
    if header.None? || header.value.rootLetters.None? then Ok(Letters(""))
    else
      var rl := header.value.rootLetters.value;
      if rl.firstRadical.None? || rl.secondRadical.None? || rl.thirdRadical.None? then Fail(NullPointer)
      else
        var labels := RadicalLabels(rl.firstRadical.value, rl.secondRadical.value, rl.thirdRadical.value, rl.fourthRadical);
        Ok(SpaceJoined(seq(|labels|, i requires 0 <= i < |labels| => Letters(labels[i]))))
  }

  // ---------------------------------------------------------------- lines

  /** A data cell of a line row: normal borders, no merge. */
  function LineCell(column: nat, span: nat, p: Para): Cell {
    Cell(column, span, NoMerge, false, [p])
  }

  /** The first cell of an active or passive row: the participle after its prefix. */
  function ParticipleCell(participle: Option<RootWord>): Cell {
    LineCell(0, 1, PrefixedTextP(Some(ParticiplePrefix), ValueOf(participle)))
  }

  /** Participle, joined verbal nouns, present tense, past tense: four span-1 cells. */
  function FourCellRow(participle: Option<RootWord>, verbalNouns: Word, present: Option<RootWord>, past: Option<RootWord>): Row {
    [ParticipleCell(participle),
     LineCell(1, 1, TextP(Some(verbalNouns))),
     LineCell(2, 1, TextP(ValueOf(present))),
     LineCell(3, 1, TextP(ValueOf(past)))]
  }

  /** addActiveLineRow: no row for a null line; getMultiWord may raise. */
  function ActiveLineRows(line: Option<ActiveLine>): (r: Result<seq<Row>>)
    ensures line.None? ==> r == Ok([])
    ensures line.Some? ==> (r.Ok? <==> MultiWord(line.value.verbalNouns).Ok?)
    ensures r.Ok? ==> |r.value| == Count(line)
    ensures r.Fail? ==> r.fault == NullPointer
  {
    match line
    case None => Ok([])
    case Some(l) =>
      var nouns :- MultiWord(l.verbalNouns);
      Ok([FourCellRow(l.activeParticipleMasculine, nouns, l.presentTense, l.pastTense)])
  }

  /** addPassiveLine: no row for a null line; getMultiWord may raise. */
  function PassiveLineRows(line: Option<PassiveLine>): (r: Result<seq<Row>>)
    ensures line.None? ==> r == Ok([])
    ensures line.Some? ==> (r.Ok? <==> MultiWord(line.value.verbalNouns).Ok?)
    ensures r.Ok? ==> |r.value| == Count(line)
    ensures r.Fail? ==> r.fault == NullPointer
  {
    match line
    case None => Ok([])
    case Some(l) =>
      var nouns :- MultiWord(l.verbalNouns);
      Ok([FourCellRow(l.passiveParticipleMasculine, nouns, l.presentPassiveTense, l.pastPassiveTense)])
  }

  /** The command row: forbidding across columns 0-1, imperative across 2-3, each after its prefix. */
  function CommandRow(l: ImperativeAndForbiddingLine): Row {
    [LineCell(0, 2, PrefixedTextP(Some(ForbiddingPrefix), ValueOf(l.forbidding))),
     LineCell(2, 2, PrefixedTextP(Some(CommandPrefix), ValueOf(l.imperative)))]
  }

  /** addCommandLine: one row iff the line is there. */
  function CommandLineRows(line: Option<ImperativeAndForbiddingLine>): (rows: seq<Row>)
    ensures |rows| == Count(line)
  {
    match line
    case None => []
    case Some(l) => [CommandRow(l)]
  }

  /** The adverb row: the joined adverbs after their prefix, across all four columns. */
  function AdverbRow(adverbs: Word): Row {
    [LineCell(0, NumOfColumns, PrefixedTextP(Some(AdverbPrefix), Some(adverbs)))]
  }

  /** addAdverbLine: no row for a null line; getMultiWord may raise. */
  function AdverbLineRows(line: Option<AdverbLine>): (r: Result<seq<Row>>)
    ensures line.None? ==> r == Ok([])
    ensures line.Some? ==> (r.Ok? <==> MultiWord(line.value.adverbs).Ok?)
    ensures r.Ok? ==> |r.value| == Count(line)
    ensures r.Fail? ==> r.fault == NullPointer
  {
    match line
    case None => Ok([])
    case Some(l) =>
      var adverbs :- MultiWord(l.adverbs);
      Ok([AdverbRow(adverbs)])
  }

  // ---------------------------------------------------------------- chart

  function TitleRows(cfg: ChartConfiguration, a: AbbreviatedConjugation): seq<Row> {
    if cfg.omitTitle then [] else [TitleRow(a)]
  }

  function HeaderRows(cfg: ChartConfiguration, header: Option<ConjugationHeader>): (r: Result<seq<Row>>)
    ensures r.Fail? ==> r.fault == NullPointer
  {
    if cfg.omitHeader then Ok([])
    else
      var row :- HeaderRow(header);
      Ok([row])
  }

  /** The rows of one record, in the order getChart writes them, or the exception. */
  function RecordRows(cfg: ChartConfiguration, a: AbbreviatedConjugation): (r: Result<seq<Row>>)
    ensures r.Fail? ==> r.fault == NullPointer
  {
    var header :- HeaderRows(cfg, a.conjugationHeader);
    var active :- ActiveLineRows(a.activeLine);
    var passive :- PassiveLineRows(a.passiveLine);
    var adverb :- AdverbLineRows(a.adverbLine);
    Ok(TitleRows(cfg, a) + header + active + passive + CommandLineRows(a.imperativeAndForbiddingLine) + adverb
       + [SeparatorRow(NumOfColumns)])
  }

  /** The records of an array, in array order; a null record raises NullPointerException. */
  function AbbreviatedChart(cfg: ChartConfiguration, records: seq<Option<AbbreviatedConjugation>>): (r: Result<seq<Row>>)
    ensures r.Fail? ==> r.fault == NullPointer
  {
    if records == [] then Ok([])
    else
      var prior :- AbbreviatedChart(cfg, records[..|records| - 1]);
      match records[|records| - 1]
      case None => Fail(NullPointer)
      case Some(a) =>
        var rows :- RecordRows(cfg, a);
        Ok(prior + rows)
  }

  // ------------------------------------------------------------- properties

  /** The header row is omitted, or its header and all three labels are there. */
  predicate HeaderWritable(cfg: ChartConfiguration, header: Option<ConjugationHeader>) {
    cfg.omitHeader || (header.Some? && LabelsPresent(header.value))
  }

  /**
   * A record raises exactly when its header row is due and the header or one
   * of its labels is null, or a present line has a null word to join.
   */
  lemma RecordRowsOk(cfg: ChartConfiguration, a: AbbreviatedConjugation)
    ensures RecordRows(cfg, a).Ok? <==>
      && HeaderWritable(cfg, a.conjugationHeader)
      && (a.activeLine.Some? ==> MultiWord(a.activeLine.value.verbalNouns).Ok?)
      && (a.passiveLine.Some? ==> MultiWord(a.passiveLine.value.verbalNouns).Ok?)
      && (a.adverbLine.Some? ==> MultiWord(a.adverbLine.value.adverbs).Ok?)
  {
  }

  /**
   * One row per part that is due: the title unless omitted, the header unless
   * omitted, one per line that is there, and the separator.
   */
  lemma RecordRowsCount(cfg: ChartConfiguration, a: AbbreviatedConjugation)
    requires RecordRows(cfg, a).Ok?
    ensures |RecordRows(cfg, a).value|
         == (if cfg.omitTitle then 0 else 1) + (if cfg.omitHeader then 0 else 1)
          + Count(a.activeLine) + Count(a.passiveLine) + Count(a.imperativeAndForbiddingLine) + Count(a.adverbLine) + 1
  {
  }

  /** Every record ends with the four-column separator. */
  lemma RecordRowsEndWithSeparator(cfg: ChartConfiguration, a: AbbreviatedConjugation)
    requires RecordRows(cfg, a).Ok?
    ensures var rows := RecordRows(cfg, a).value;
      |rows| > 0 && rows[|rows| - 1] == SeparatorRow(NumOfColumns)
  {
  }

  /** A successful record is its parts laid end to end, in getChart's order. */
  lemma RecordRowsSplit(cfg: ChartConfiguration, a: AbbreviatedConjugation)
    requires RecordRows(cfg, a).Ok?
    ensures HeaderRows(cfg, a.conjugationHeader).Ok? && ActiveLineRows(a.activeLine).Ok?
    ensures PassiveLineRows(a.passiveLine).Ok? && AdverbLineRows(a.adverbLine).Ok?
    ensures RecordRows(cfg, a).value
         == TitleRows(cfg, a) + HeaderRows(cfg, a.conjugationHeader).value + ActiveLineRows(a.activeLine).value
          + PassiveLineRows(a.passiveLine).value + CommandLineRows(a.imperativeAndForbiddingLine)
          + AdverbLineRows(a.adverbLine).value + [SeparatorRow(NumOfColumns)]
  {
  }

  /** What only a title row looks like: one border-less cell holding a heading paragraph. */
  ghost predicate TitleShaped(row: Row) {
    |row| == 1 && row[0].nilBorders && |row[0].content| == 1 && row[0].content[0].style == Some(ArabicHeadingStyle)
  }

  /** None of `rows` looks like a title row. */
  ghost predicate NoTitleShaped(rows: seq<Row>) {
    forall i :: 0 <= i < |rows| ==> !TitleShaped(rows[i])
  }

  lemma NoTitleShapedConcat(a: seq<Row>, b: seq<Row>)
    requires NoTitleShaped(a) && NoTitleShaped(b)
    ensures NoTitleShaped(a + b)
  {
    forall i | 0 <= i < |a + b| ensures !TitleShaped((a + b)[i]) {
      if i >= |a| {
        assert (a + b)[i] == b[i - |a|];
      }
    }
  }

  lemma FourCellRowNotTitleShaped(participle: Option<RootWord>, verbalNouns: Word, present: Option<RootWord>, past: Option<RootWord>)
    ensures NoTitleShaped([FourCellRow(participle, verbalNouns, present, past)])
  {
    assert |FourCellRow(participle, verbalNouns, present, past)| == 4;
  }

  /** The rows after the title: header, lines and separator never look like a title row. */
  lemma BodyNotTitleShaped(cfg: ChartConfiguration, a: AbbreviatedConjugation)
    requires HeaderRows(cfg, a.conjugationHeader).Ok? && ActiveLineRows(a.activeLine).Ok?
    requires PassiveLineRows(a.passiveLine).Ok? && AdverbLineRows(a.adverbLine).Ok?
    ensures NoTitleShaped(HeaderRows(cfg, a.conjugationHeader).value + ActiveLineRows(a.activeLine).value
          + PassiveLineRows(a.passiveLine).value + CommandLineRows(a.imperativeAndForbiddingLine)
          + AdverbLineRows(a.adverbLine).value + [SeparatorRow(NumOfColumns)])
  {
    var h := HeaderRows(cfg, a.conjugationHeader).value;
    var ac := ActiveLineRows(a.activeLine).value;
    var p := PassiveLineRows(a.passiveLine).value;
    var c := CommandLineRows(a.imperativeAndForbiddingLine);
    var ad := AdverbLineRows(a.adverbLine).value;
    assert NoTitleShaped(h) by {
      if !cfg.omitHeader {
        HeaderRowLayout(a.conjugationHeader.value);
      }
    }
    assert NoTitleShaped(ac) by {
      if a.activeLine.Some? {
        var l := a.activeLine.value;
        FourCellRowNotTitleShaped(l.activeParticipleMasculine, MultiWord(l.verbalNouns).value, l.presentTense, l.pastTense);
      }
    }
    assert NoTitleShaped(p) by {
      if a.passiveLine.Some? {
        var l := a.passiveLine.value;
        FourCellRowNotTitleShaped(l.passiveParticipleMasculine, MultiWord(l.verbalNouns).value, l.presentPassiveTense, l.pastPassiveTense);
      }
    }
    assert NoTitleShaped([SeparatorRow(NumOfColumns)]) by {
      assert SeparatorRow(NumOfColumns)[0].content[0].style == Some(NoSpacingStyle);
    }
    NoTitleShapedConcat(h, ac);
    NoTitleShapedConcat(h + ac, p);
    NoTitleShapedConcat(h + ac + p, c);
    NoTitleShapedConcat(h + ac + p + c, ad);
    NoTitleShapedConcat(h + ac + p + c + ad, [SeparatorRow(NumOfColumns)]);
  }

  /** A record's first row is its title row exactly when the title is not omitted. */
  lemma RecordRowsTitleFirst(cfg: ChartConfiguration, a: AbbreviatedConjugation)
    requires RecordRows(cfg, a).Ok?
    ensures RecordRows(cfg, a).value[0] == TitleRow(a) <==> !cfg.omitTitle
  {
    RecordRowsSplit(cfg, a);
    if cfg.omitTitle {
      BodyNotTitleShaped(cfg, a);
      assert TitleShaped(TitleRow(a));
    }
  }

  /** Rows that tile the four columns and never merge vertically. */
  ghost predicate WellFormed(rows: seq<Row>) {
    AllTile(rows, NumOfColumns) && forall i :: 0 <= i < |rows| ==> NoMerges(rows[i])
  }

  /** Rows without merges trivially keep every CONTINUE anchored. */
  lemma WellFormedAnchored(rows: seq<Row>)
    requires WellFormed(rows)
    ensures Anchored(rows)
  {
    forall i, k | 0 <= i < |rows| && 0 <= k < |rows[i]|
      ensures rows[i][k].merge != Continue
    {
      assert NoMerges(rows[i]);
    }
  }

  lemma WellFormedConcat(a: seq<Row>, b: seq<Row>)
    requires WellFormed(a) && WellFormed(b)
    ensures WellFormed(a + b)
  {
    AllTileConcat(a, b, NumOfColumns);
    forall i | 0 <= i < |a + b| ensures NoMerges((a + b)[i]) {
      if i >= |a| {
        assert (a + b)[i] == b[i - |a|];
      }
    }
  }

  /** One row that tiles four columns without merges. */
  lemma RowWellFormed(row: Row)
    requires Tiles(row, NumOfColumns) && NoMerges(row)
    ensures WellFormed([row])
  {
  }

  lemma HeaderRowsWellFormed(cfg: ChartConfiguration, header: Option<ConjugationHeader>)
    requires HeaderRows(cfg, header).Ok?
    ensures WellFormed(HeaderRows(cfg, header).value)
  {
    if !cfg.omitHeader {
      HeaderRowLayout(header.value);
      RowWellFormed(HeaderRow(header).value);
    }
  }

  lemma FourCellRowWellFormed(participle: Option<RootWord>, verbalNouns: Word, present: Option<RootWord>, past: Option<RootWord>)
    ensures WellFormed([FourCellRow(participle, verbalNouns, present, past)])
  {
    var row := FourCellRow(participle, verbalNouns, present, past);
    assert forall k :: 0 <= k < 4 ==> row[k].column == k && row[k].span == 1 && row[k].merge == NoMerge;
  }

  lemma ActiveLineRowsWellFormed(line: Option<ActiveLine>)
    requires ActiveLineRows(line).Ok?
    ensures WellFormed(ActiveLineRows(line).value)
  {
    if line.Some? {
      var l := line.value;
      FourCellRowWellFormed(l.activeParticipleMasculine, MultiWord(l.verbalNouns).value, l.presentTense, l.pastTense);
    }
  }

  lemma PassiveLineRowsWellFormed(line: Option<PassiveLine>)
    requires PassiveLineRows(line).Ok?
    ensures WellFormed(PassiveLineRows(line).value)
  {
    if line.Some? {
      var l := line.value;
      FourCellRowWellFormed(l.passiveParticipleMasculine, MultiWord(l.verbalNouns).value, l.presentPassiveTense, l.pastPassiveTense);
    }
  }

  lemma CommandLineRowsWellFormed(line: Option<ImperativeAndForbiddingLine>)
    ensures WellFormed(CommandLineRows(line))
  {
  }

  lemma AdverbLineRowsWellFormed(line: Option<AdverbLine>)
    requires AdverbLineRows(line).Ok?
    ensures WellFormed(AdverbLineRows(line).value)
  {
  }

  /** Every row of a record tiles the four columns and none merges. */
  lemma RecordRowsWellFormed(cfg: ChartConfiguration, a: AbbreviatedConjugation)
    requires RecordRows(cfg, a).Ok?
    ensures WellFormed(RecordRows(cfg, a).value)
  {
    RecordRowsSplit(cfg, a);
    var t := TitleRows(cfg, a);
    if !cfg.omitTitle {
      RowWellFormed(TitleRow(a));
    }
    HeaderRowsWellFormed(cfg, a.conjugationHeader);
    ActiveLineRowsWellFormed(a.activeLine);
    PassiveLineRowsWellFormed(a.passiveLine);
    CommandLineRowsWellFormed(a.imperativeAndForbiddingLine);
    AdverbLineRowsWellFormed(a.adverbLine);
    var h := HeaderRows(cfg, a.conjugationHeader).value;
    var ac := ActiveLineRows(a.activeLine).value;
    var p := PassiveLineRows(a.passiveLine).value;
    var c := CommandLineRows(a.imperativeAndForbiddingLine);
    var ad := AdverbLineRows(a.adverbLine).value;
    WellFormedConcat(t, h);
    WellFormedConcat(t + h, ac);
    WellFormedConcat(t + h + ac, p);
    WellFormedConcat(t + h + ac + p, c);
    WellFormedConcat(t + h + ac + p + c, ad);
    WellFormedConcat(t + h + ac + p + c + ad, [SeparatorRow(NumOfColumns)]);
  }

  /** Every row of an abbreviated chart tiles the four columns and none merges. */
  lemma {:induction false} AbbreviatedChartWellFormed(cfg: ChartConfiguration, records: seq<Option<AbbreviatedConjugation>>)
    requires AbbreviatedChart(cfg, records).Ok?
    ensures WellFormed(AbbreviatedChart(cfg, records).value)
    ensures Anchored(AbbreviatedChart(cfg, records).value)
  {
    if records != [] {
      var init := records[..|records| - 1];
      AbbreviatedChartWellFormed(cfg, init);
      var a := records[|records| - 1].value;
      RecordRowsWellFormed(cfg, a);
      WellFormedConcat(AbbreviatedChart(cfg, init).value, RecordRows(cfg, a).value);
    }
    WellFormedAnchored(AbbreviatedChart(cfg, records).value);
  }

  /** The spans of every row of an abbreviated chart sum to four. */
  lemma AbbreviatedChartSpans(cfg: ChartConfiguration, records: seq<Option<AbbreviatedConjugation>>, i: nat)
    requires AbbreviatedChart(cfg, records).Ok? && i < |AbbreviatedChart(cfg, records).value|
    ensures SpanSum(AbbreviatedChart(cfg, records).value[i]) == NumOfColumns
  {
    AbbreviatedChartWellFormed(cfg, records);
    TilesSpanSum(AbbreviatedChart(cfg, records).value[i], NumOfColumns);
  }

  /** Once a prefix of the records raises, so does every longer prefix. */
  lemma {:induction false} AbbreviatedChartFailsOn(cfg: ChartConfiguration, records: seq<Option<AbbreviatedConjugation>>, k: nat)
    requires k <= |records| && AbbreviatedChart(cfg, records[..k]).Fail?
    ensures AbbreviatedChart(cfg, records).Fail?
    decreases |records|
  {
    if k < |records| {
      var init := records[..|records| - 1];
      assert init[..k] == records[..k];
      AbbreviatedChartFailsOn(cfg, init, k);
    } else {
      assert records[..k] == records;
    }
  }

  /** A null record anywhere in the array makes getChart raise NullPointerException. */
  lemma NullRecordFails(cfg: ChartConfiguration, records: seq<Option<AbbreviatedConjugation>>, i: nat)
    requires i < |records| && records[i].None?
    ensures AbbreviatedChart(cfg, records) == Fail(NullPointer)
  {
    var prefix := records[..i + 1];
    assert prefix[..|prefix| - 1] == records[..i] && prefix[|prefix| - 1] == records[i];
    AbbreviatedChartFailsOn(cfg, records, i + 1);
  }

  /**
   * A record with only an adverb line, title and header omitted, gives exactly
   * two rows: the adverb row and the separator.
   */
  lemma AdverbOnlyRecord(cfg: ChartConfiguration, adverbs: AdverbLine)
    requires cfg.omitTitle && cfg.omitHeader && MultiWord(adverbs.adverbs).Ok?
    ensures var a := AbbreviatedConjugation(None, None, None, None, Some(adverbs));
      RecordRows(cfg, a) == Ok([AdverbRow(MultiWord(adverbs.adverbs).value), SeparatorRow(NumOfColumns)])
  {
    var a := AbbreviatedConjugation(None, None, None, None, Some(adverbs));
    var adverb := AdverbLineRows(a.adverbLine).value;
    assert adverb == [AdverbRow(MultiWord(adverbs.adverbs).value)];
    assert RecordRows(cfg, a).Ok? by {
      RecordRowsOk(cfg, a);
    }
    RecordRowsSplit(cfg, a);
    assert RecordRows(cfg, a).value == [] + [] + [] + [] + [] + adverb + [SeparatorRow(NumOfColumns)];
    assert [] + [] + [] + [] + [] + adverb + [SeparatorRow(NumOfColumns)]
        == [AdverbRow(MultiWord(adverbs.adverbs).value), SeparatorRow(NumOfColumns)];
  }

  /** The snoc step of AbbreviatedChart for a record that raises nothing. */
  lemma AbbreviatedChartSnoc(cfg: ChartConfiguration, records: seq<Option<AbbreviatedConjugation>>, i: nat)
    requires i < |records| && records[i].Some? && AbbreviatedChart(cfg, records[..i]).Ok?
    requires RecordRows(cfg, records[i].value).Ok?
    ensures AbbreviatedChart(cfg, records[..i + 1])
         == Ok(AbbreviatedChart(cfg, records[..i]).value + RecordRows(cfg, records[i].value).value)
  {
    assert records[..i + 1][..i] == records[..i];
  }

  /** The snoc step of AbbreviatedChart for a record that raises. */
  lemma AbbreviatedChartSnocFails(cfg: ChartConfiguration, records: seq<Option<AbbreviatedConjugation>>, i: nat)
    requires i < |records| && records[i].Some? && AbbreviatedChart(cfg, records[..i]).Ok?
    requires RecordRows(cfg, records[i].value).Fail?
    ensures AbbreviatedChart(cfg, records) == Fail(NullPointer)
  {
    assert records[..i + 1][..i] == records[..i];
    AbbreviatedChartFailsOn(cfg, records, i + 1);
  }

  /** A record that is there and whose rows are made. */
  predicate RecordBuilds(cfg: ChartConfiguration, record: Option<AbbreviatedConjugation>) {
    record.Some? && RecordRows(cfg, record.value).Ok?
  }

  /** The chart is made exactly when no record is null and every record's rows are made. */
  lemma AbbreviatedChartOk(cfg: ChartConfiguration, records: seq<Option<AbbreviatedConjugation>>)
    ensures AbbreviatedChart(cfg, records).Ok? <==> forall i :: 0 <= i < |records| ==> RecordBuilds(cfg, records[i])
  {
    if k :| 0 <= k < |records| && !RecordBuilds(cfg, records[k]) {
      if AbbreviatedChart(cfg, records[..k]).Fail? {
        AbbreviatedChartFailsOn(cfg, records, k);
      } else if records[k].None? {
        NullRecordFails(cfg, records, k);
      } else {
        AbbreviatedChartSnocFails(cfg, records, k);
      }
    } else {
      AllRecordsBuild(cfg, records);
    }
  }

  /** Records that all build make the chart. */
  lemma {:induction false} AllRecordsBuild(cfg: ChartConfiguration, records: seq<Option<AbbreviatedConjugation>>)
    requires forall i :: 0 <= i < |records| ==> RecordBuilds(cfg, records[i])
    ensures AbbreviatedChart(cfg, records).Ok?
  {
    if records != [] {
      var n := |records| - 1;
      assert forall i :: 0 <= i < n ==> records[..n][i] == records[i];
      AllRecordsBuild(cfg, records[..n]);
      AbbreviatedChartSnoc(cfg, records, n);
      assert records[..n + 1] == records;
    }
  }

  /** getChart went through every record: the chart is the rows it added. */
  lemma AllRecordsAdded(cfg: ChartConfiguration, records: seq<Option<AbbreviatedConjugation>>, i: nat)
    requires i == |records|
    ensures AbbreviatedChart(cfg, records) == AbbreviatedChart(cfg, records[..i])
  {
    assert records[..i] == records;
  }

  /** The steps the abbreviated adapter adds to a document: its table, or the exception. */
  function AbbreviatedDocumentParts(priorRows: seq<Row>, cfg: ChartConfiguration, records: seq<Option<AbbreviatedConjugation>>): (b: Build)
    ensures b.thrown.None? <==> AbbreviatedChart(cfg, records).Ok?
    ensures b.thrown.None? ==> b.parts == [AbbreviatedTable(priorRows + AbbreviatedChart(cfg, records).value)]
    ensures b.thrown.Some? ==> b.parts == [] && b.thrown == Some(NullPointer)
  {
    match AbbreviatedChart(cfg, records)
    case Ok(rows) => Build([AbbreviatedTable(priorRows + rows)], None)
    case Fail(f) => Build([], Some(f))
  }

  class AbbreviatedConjugationAdapter {
    const chartConfiguration: ChartConfiguration
    const abbreviatedConjugations: seq<Option<AbbreviatedConjugation>>
    const tableAdapter: TableAdapter

    /** A null configuration is the default one, a null or empty array an empty one; four columns. */
    constructor (chartConfiguration: Option<ChartConfiguration>, abbreviatedConjugations: Option<seq<Option<AbbreviatedConjugation>>>)
      ensures this.chartConfiguration == ConfigurationOrDefault(chartConfiguration)
      ensures this.abbreviatedConjugations == OrEmpty(abbreviatedConjugations)
      ensures fresh(tableAdapter)
      ensures tableAdapter.widths == ColumnWidths && |tableAdapter.widths| == NumOfColumns
      ensures tableAdapter.rows == [] && tableAdapter.open.None?
    {
      this.chartConfiguration := ConfigurationOrDefault(chartConfiguration);
      this.abbreviatedConjugations := OrEmpty(abbreviatedConjugations);
      tableAdapter := new TableAdapter.StartTable(ColumnWidths);
    }

    method AddTitleRow(a: AbbreviatedConjugation)
      requires tableAdapter.open.None?
      modifies tableAdapter
      ensures tableAdapter.widths == old(tableAdapter.widths) && tableAdapter.open.None?
      ensures tableAdapter.rows == old(tableAdapter.rows) + [TitleRow(a)]
    {
      tableAdapter.StartRow();
      tableAdapter.AddColumn(0, Some(NumOfColumns), NoMerge, true, [TitlePara(a)]);
      assert tableAdapter.open.value == TitleRow(a);
      tableAdapter.EndRow();
    }

    /** addHeaderRow: the paragraphs are made before the row is started, so a fault leaves the table as it was. */
    method AddHeaderRow(header: Option<ConjugationHeader>) returns (thrown: Option<Fault>)
      requires tableAdapter.open.None?
      modifies tableAdapter
      ensures tableAdapter.widths == old(tableAdapter.widths) && tableAdapter.open.None?
      ensures thrown == Thrown(HeaderRow(header))
      ensures thrown.None? ==> tableAdapter.rows == old(tableAdapter.rows) + [HeaderRow(header).value]
      ensures thrown.Some? ==> tableAdapter.rows == old(tableAdapter.rows)
    {
      if header.None? {
        return Some(NullPointer);
      }
      var h := header.value;
      var translationPara := TranslationPara(h.translation);
      var labelP1 := HeaderLabelPara(h.typeLabel1);
      if labelP1.Fail? {
        return Some(labelP1.fault);
      }
      var labelP2 := HeaderLabelPara(h.typeLabel2);
      if labelP2.Fail? {
        return Some(labelP2.fault);
      }
      var labelP3 := HeaderLabelPara(h.typeLabel3);
      if labelP3.Fail? {
        return Some(labelP3.fault);
      }
      tableAdapter.StartRow();
      tableAdapter.AddColumn(0, Some(2), NoMerge, false, [EmptyPara, translationPara]);
      tableAdapter.AddColumn(2, Some(2), NoMerge, false, [labelP1.value, labelP2.value, labelP3.value]);
      assert tableAdapter.open.value == HeaderRow(header).value;
      tableAdapter.EndRow();
      return None;
    }

    /**
     * addActiveLineRow. The row is started and its first cell added before
     * getMultiWord runs, so a fault leaves that partial row open.
     */
    method AddActiveLineRow(a: AbbreviatedConjugation) returns (thrown: Option<Fault>)
      requires tableAdapter.open.None?
      modifies tableAdapter
      ensures tableAdapter.widths == old(tableAdapter.widths)
      ensures thrown == Thrown(ActiveLineRows(a.activeLine))
      ensures thrown.None? ==> tableAdapter.rows == old(tableAdapter.rows) + ActiveLineRows(a.activeLine).value
      ensures thrown.None? ==> tableAdapter.open.None?
      ensures thrown.Some? ==> tableAdapter.rows == old(tableAdapter.rows)
      ensures thrown.Some? ==> tableAdapter.open == Some([ParticipleCell(a.activeLine.value.activeParticipleMasculine)])
    {
      var activeLine := a.activeLine;
      if activeLine.None? {
        return None;
      }
      var line := activeLine.value;
      tableAdapter.StartRow();
      tableAdapter.AddColumn(0, None, NoMerge, false, [PrefixedTextP(Some(ParticiplePrefix), ValueOf(line.activeParticipleMasculine))]);
      assert tableAdapter.open.value == [ParticipleCell(line.activeParticipleMasculine)];
      var nouns := GetMultiWord(line.verbalNouns);
      if nouns.Fail? {
        return Some(nouns.fault);
      }
      tableAdapter.AddColumn(1, None, NoMerge, false, [TextP(Some(nouns.value))]);
      tableAdapter.AddColumn(2, None, NoMerge, false, [TextP(ValueOf(line.presentTense))]);
      tableAdapter.AddColumn(3, None, NoMerge, false, [TextP(ValueOf(line.pastTense))]);
      assert tableAdapter.open.value == FourCellRow(line.activeParticipleMasculine, nouns.value, line.presentTense, line.pastTense);
      tableAdapter.EndRow();
      return None;
    }

    /** addPassiveLine, with the same partial row on a fault as the active line. */
    method AddPassiveLine(a: AbbreviatedConjugation) returns (thrown: Option<Fault>)
      requires tableAdapter.open.None?
      modifies tableAdapter
      ensures tableAdapter.widths == old(tableAdapter.widths)
      ensures thrown == Thrown(PassiveLineRows(a.passiveLine))
      ensures thrown.None? ==> tableAdapter.rows == old(tableAdapter.rows) + PassiveLineRows(a.passiveLine).value
      ensures thrown.None? ==> tableAdapter.open.None?
      ensures thrown.Some? ==> tableAdapter.rows == old(tableAdapter.rows)
      ensures thrown.Some? ==> tableAdapter.open == Some([ParticipleCell(a.passiveLine.value.passiveParticipleMasculine)])
    {
      var passiveLine := a.passiveLine;
      if passiveLine.None? {
        return None;
      }
      var line := passiveLine.value;
      tableAdapter.StartRow();
      tableAdapter.AddColumn(0, None, NoMerge, false, [PrefixedTextP(Some(ParticiplePrefix), ValueOf(line.passiveParticipleMasculine))]);
      assert tableAdapter.open.value == [ParticipleCell(line.passiveParticipleMasculine)];
      var nouns := GetMultiWord(line.verbalNouns);
      if nouns.Fail? {
        return Some(nouns.fault);
      }
      tableAdapter.AddColumn(1, None, NoMerge, false, [TextP(Some(nouns.value))]);
      tableAdapter.AddColumn(2, None, NoMerge, false, [TextP(ValueOf(line.presentPassiveTense))]);
      tableAdapter.AddColumn(3, None, NoMerge, false, [TextP(ValueOf(line.pastPassiveTense))]);
      assert tableAdapter.open.value == FourCellRow(line.passiveParticipleMasculine, nouns.value, line.presentPassiveTense, line.pastPassiveTense);
      tableAdapter.EndRow();
      return None;
    }

    method AddCommandLine(a: AbbreviatedConjugation)
      requires tableAdapter.open.None?
      modifies tableAdapter
      ensures tableAdapter.widths == old(tableAdapter.widths) && tableAdapter.open.None?
      ensures tableAdapter.rows == old(tableAdapter.rows) + CommandLineRows(a.imperativeAndForbiddingLine)
    {
      var commandLine := a.imperativeAndForbiddingLine;
      if commandLine.None? {
        return;
      }
      var line := commandLine.value;
      tableAdapter.StartRow();
      tableAdapter.AddColumn(0, Some(2), NoMerge, false, [PrefixedTextP(Some(ForbiddingPrefix), ValueOf(line.forbidding))]);
      tableAdapter.AddColumn(2, Some(2), NoMerge, false, [PrefixedTextP(Some(CommandPrefix), ValueOf(line.imperative))]);
      assert tableAdapter.open.value == CommandRow(line);
      tableAdapter.EndRow();
    }

    /** addAdverbLine: getMultiWord runs after the row is started, so a fault leaves an empty row open. */
    method AddAdverbLine(a: AbbreviatedConjugation) returns (thrown: Option<Fault>)
      requires tableAdapter.open.None?
      modifies tableAdapter
      ensures tableAdapter.widths == old(tableAdapter.widths)
      ensures thrown == Thrown(AdverbLineRows(a.adverbLine))
      ensures thrown.None? ==> tableAdapter.rows == old(tableAdapter.rows) + AdverbLineRows(a.adverbLine).value
      ensures thrown.None? ==> tableAdapter.open.None?
      ensures thrown.Some? ==> tableAdapter.rows == old(tableAdapter.rows) && tableAdapter.open == Some([])
    {
      var adverbLine := a.adverbLine;
      if adverbLine.None? {
        return None;
      }
      tableAdapter.StartRow();
      var adverbs := GetMultiWord(adverbLine.value.adverbs);
      if adverbs.Fail? {
        return Some(adverbs.fault);
      }
      tableAdapter.AddColumn(0, Some(NumOfColumns), NoMerge, false, [PrefixedTextP(Some(AdverbPrefix), Some(adverbs.value))]);
      assert tableAdapter.open.value == AdverbRow(adverbs.value);
      tableAdapter.EndRow();
      return None;
    }

    /**
     * One pass of getChart's loop for a record that is not null. Rows are
     * only appended, whether or not a step raises.
     */
    method AddRecord(a: AbbreviatedConjugation) returns (thrown: Option<Fault>)
      requires tableAdapter.open.None?
      modifies tableAdapter
      ensures tableAdapter.widths == old(tableAdapter.widths)
      ensures thrown == Thrown(RecordRows(chartConfiguration, a))
      ensures thrown.None? ==> tableAdapter.rows == old(tableAdapter.rows) + RecordRows(chartConfiguration, a).value
      ensures thrown.None? ==> tableAdapter.open.None?
      ensures old(tableAdapter.rows) <= tableAdapter.rows
    {
      var cfg := chartConfiguration;
      ghost var r0 := tableAdapter.rows;
      if !cfg.omitTitle {
        AddTitleRow(a);
      }
      ghost var title := TitleRows(cfg, a);
      assert tableAdapter.rows == r0 + title;
      if !cfg.omitHeader {
        thrown := AddHeaderRow(a.conjugationHeader);
        if thrown.Some? {
          return;
        }
      }
      ghost var header := HeaderRows(cfg, a.conjugationHeader).value;
      assert tableAdapter.rows == r0 + (title + header) by {
        AppendAssoc(r0, title, header);
      }
      thrown := AddActiveLineRow(a);
      if thrown.Some? {
        return;
      }
      ghost var active := ActiveLineRows(a.activeLine).value;
      assert tableAdapter.rows == r0 + (title + header + active) by {
        AppendAssoc(r0, title + header, active);
      }
      thrown := AddPassiveLine(a);
      if thrown.Some? {
        return;
      }
      ghost var passive := PassiveLineRows(a.passiveLine).value;
      assert tableAdapter.rows == r0 + (title + header + active + passive) by {
        AppendAssoc(r0, title + header + active, passive);
      }
      AddCommandLine(a);
      ghost var command := CommandLineRows(a.imperativeAndForbiddingLine);
      assert tableAdapter.rows == r0 + (title + header + active + passive + command) by {
        AppendAssoc(r0, title + header + active + passive, command);
      }
      thrown := AddAdverbLine(a);
      if thrown.Some? {
        return;
      }
      ghost var adverb := AdverbLineRows(a.adverbLine).value;
      assert tableAdapter.rows == r0 + (title + header + active + passive + command + adverb) by {
        AppendAssoc(r0, title + header + active + passive + command, adverb);
      }
      AddSeparatorRow(tableAdapter, NumOfColumns);
      assert tableAdapter.rows == r0 + (title + header + active + passive + command + adverb + [SeparatorRow(NumOfColumns)]) by {
        AppendAssoc(r0, title + header + active + passive + command + adverb, [SeparatorRow(NumOfColumns)]);
      }
    }

    /**
     * getChart: the records in array order. On success the table holds the
     * prior rows followed by the chart's rows; on an exception rows have only
     * been appended.
     */
    method GetChart() returns (chart: Result<seq<Row>>)
      requires tableAdapter.open.None?
      modifies tableAdapter
      ensures tableAdapter.widths == old(tableAdapter.widths)
      ensures chart.Ok? <==> AbbreviatedChart(chartConfiguration, abbreviatedConjugations).Ok?
      ensures chart.Ok? ==> tableAdapter.rows == old(tableAdapter.rows) + AbbreviatedChart(chartConfiguration, abbreviatedConjugations).value
      ensures chart.Ok? ==> chart.value == tableAdapter.rows && tableAdapter.open.None?
      ensures chart.Fail? ==> chart == AbbreviatedChart(chartConfiguration, abbreviatedConjugations)
      ensures old(tableAdapter.rows) <= tableAdapter.rows
    {
      var records := abbreviatedConjugations;
      var i := 0;
      while i < |records|
        invariant 0 <= i <= |records|
        invariant tableAdapter.widths == old(tableAdapter.widths) && tableAdapter.open.None?
        invariant AbbreviatedChart(chartConfiguration, records[..i]).Ok?
        invariant tableAdapter.rows == old(tableAdapter.rows) + AbbreviatedChart(chartConfiguration, records[..i]).value
      {
        if records[i].None? {
          NullRecordFails(chartConfiguration, abbreviatedConjugations, i);
          AppendPrefix(old(tableAdapter.rows), AbbreviatedChart(chartConfiguration, records[..i]).value);
          if !chartConfiguration.omitTitle {
            // addTitleRow starts its row before createTitlePara dereferences the record
            tableAdapter.StartRow();
          }
          return Fail(NullPointer);
        }
        var a := records[i].value;
        ghost var before := tableAdapter.rows;
        var thrown := AddRecord(a);
        if thrown.Some? {
          AbbreviatedChartSnocFails(chartConfiguration, abbreviatedConjugations, i);
          AppendPrefix(old(tableAdapter.rows), AbbreviatedChart(chartConfiguration, records[..i]).value);
          return Fail(thrown.value);
        }
        AbbreviatedChartSnoc(chartConfiguration, records, i);
        AppendAssoc(old(tableAdapter.rows), AbbreviatedChart(chartConfiguration, records[..i]).value, RecordRows(chartConfiguration, a).value);
        i := i + 1;
      }
      AllRecordsAdded(chartConfiguration, abbreviatedConjugations, i);
      return Ok(tableAdapter.rows);
    }

    /** ChartAdapter.buildDocument: the table is added to the document unless getChart raised. */
    method BuildDocument(mdp: MainDocumentPart) returns (thrown: Option<Fault>)
      requires tableAdapter.open.None?
      modifies tableAdapter, mdp
      ensures mdp.content == old(mdp.content) + AbbreviatedDocumentParts(old(tableAdapter.rows), chartConfiguration, abbreviatedConjugations).parts
      ensures thrown == AbbreviatedDocumentParts(old(tableAdapter.rows), chartConfiguration, abbreviatedConjugations).thrown
    {
      var chart := GetChart();
      if chart.Fail? {
        return Some(chart.fault);
      }
      mdp.content := mdp.content + [AbbreviatedTable(chart.value)];
      return None;
    }
  }
}
