/**
 * WmlHelper: the style names and prefix words the charts use, the text of a
 * cell (null replaced by a space word, an optional prefix run), the word
 * joiners and the full-width separator row.
 */
module WmlHelper {
  import opened Wrappers
  import opened Content
  import opened Conjugation
  import opened Table

  const ArabicHeadingStyle := "Arabic-Heading1"
  const ArabicNormalStyle := "Arabic-Normal"
  const ArabicCaptionStyle := "Arabic-Caption"
  const ArabicTableCenterStyle := "Arabic-Table-Center"
  const ArabicPrefixStyle := "Arabic-PrefixChar"
  const NoSpacingStyle := "NoSpacing"

  /** FA HA WAW */
  const ParticiplePrefix: Word := Letters("\U{0641}\U{0647}\U{0648}")
  /** ALIF LAM ALIF_HAMZA_ABOVE MEEM RA, SPACE, MEEM NOON HA */
  const CommandPrefix: Word := Letters("\U{0627}\U{0644}\U{0623}\U{0645}\U{0631} \U{0645}\U{0646}\U{0647}")
  /** WAW NOON HA YA, SPACE, AIN NOON HA */
  const ForbiddingPrefix: Word := Letters("\U{0648}\U{0646}\U{0647}\U{064A} \U{0639}\U{0646}\U{0647}")
  /** WAW ALIF LAM DTHA RA FA, SPACE, MEEM NOON HA */
  const AdverbPrefix: Word := Letters("\U{0648}\U{0627}\U{0644}\U{0638}\U{0631}\U{0641} \U{0645}\U{0646}\U{0647}")

  /** ArabicLetters.WORD_SPACE: the one-space word that stands in for a missing value. */
  const WordSpace: Word := Letters(" ")

  /** createNoSpacingStyleP: an empty paragraph in the NoSpacing style. */
  const NoSpacingP: Para := Para(Some(NoSpacingStyle), [])

  /** The label of a conjugated word (`toLabel()`). */
  function LabelOf(w: RootWord): Word {
    Letters(w.labelText)
  }

  /** A nullable conjugated word as the value of a cell: null stays null. */
  function ValueOf(w: Option<RootWord>): (v: Option<Word>)
    ensures v.None? <==> w.None?
  {
    match w
    case None => None
    case Some(rw) => Some(LabelOf(rw))
  }

  /** The full-width separator row that `addSeparatorRow(table, gridSpan)` appends. */
  function SeparatorRow(gridSpan: nat): (row: Row)
    ensures |row| == 1 && row[0].column == 0 && row[0].span == gridSpan
    ensures row[0].nilBorders && NoMerges(row)
    ensures gridSpan > 0 ==> Tiles(row, gridSpan)
  {
    [Cell(0, gridSpan, NoMerge, true, [NoSpacingP])]
  }

  /** addSeparatorRow: appends exactly one row, the separator, and leaves the row closed. */
  method AddSeparatorRow(tableAdapter: TableAdapter, gridSpan: nat)
    requires tableAdapter.open.None?
    modifies tableAdapter
    ensures tableAdapter.widths == old(tableAdapter.widths)
    ensures tableAdapter.rows == old(tableAdapter.rows) + [SeparatorRow(gridSpan)]
    ensures tableAdapter.open.None?
  {
    tableAdapter.StartRow();
    tableAdapter.AddColumn(0, Some(gridSpan), NoMerge, true, [NoSpacingP]);
    assert tableAdapter.open.value == SeparatorRow(gridSpan);
    tableAdapter.EndRow();
  }

  /** The root word of a tense, or WORD_SPACE when the tense or its root word is null. */
  function RootWordOrSpace(w: Option<RootWord>): (r: Word)
    ensures w.Some? && w.value.rootWord.Some? ==> r == Letters(w.value.rootWord.value)
    ensures w.None? || w.value.rootWord.None? ==> r == WordSpace
  {
    if w.Some? && w.value.rootWord.Some? then Letters(w.value.rootWord.value) else WordSpace
  }

  /**
   * getTitleWord: the past tense, a space, then the present tense of the
   * active line; each missing piece reads as WORD_SPACE.
   */
  function TitleWord(activeLine: Option<ActiveLine>): (w: Word)
    ensures w.SpaceJoined? && |w.parts| == 2
    ensures activeLine.None? ==> w.parts == [WordSpace, WordSpace]
    ensures activeLine.Some? ==> w.parts[0] == RootWordOrSpace(activeLine.value.pastTense)
    ensures activeLine.Some? ==> w.parts[1] == RootWordOrSpace(activeLine.value.presentTense)
  {
    match activeLine
    case None => SpaceJoined([WordSpace, WordSpace])
    case Some(line) => SpaceJoined([RootWordOrSpace(line.pastTense), RootWordOrSpace(line.presentTense)])
  }

  /** The words an "and"-chain joins, left to right. */
  function Leaves(w: Word): seq<Word> {
    match w
    case AndJoined(first, second) => Leaves(first) + Leaves(second)
    case _ => [w]
  }

  /**
   * The loop of getMultiWord on a non-empty array: the first label, then each
   * further label joined with "and". A null element raises NullPointerException.
   */
  function AndChain(words: seq<Option<RootWord>>): (r: Result<Word>)
    requires |words| > 0
    ensures r.Ok? <==> forall i :: 0 <= i < |words| ==> words[i].Some?
    ensures r.Ok? ==> |Leaves(r.value)| == |words|
    ensures r.Ok? ==> forall i :: 0 <= i < |words| ==> Leaves(r.value)[i] == LabelOf(words[i].value)
    ensures r.Fail? ==> r.fault == NullPointer
  {
    if |words| == 1 then
      match words[0]
      case None => Fail(NullPointer)
      case Some(w) => Ok(LabelOf(w))
    else
      match AndChain(words[..|words| - 1])
      case Fail(f) => Fail(f)
      case Ok(prefix) =>
        match words[|words| - 1]
        case None => Fail(NullPointer)
        case Some(w) => Ok(AndJoined(prefix, LabelOf(w)))
  }

  /**
   * getMultiWord: WORD_SPACE for a null or empty array, otherwise the labels
   * joined with "and" in array order.
   */
  function MultiWord(words: Option<seq<Option<RootWord>>>): (r: Result<Word>)
    ensures OrEmpty(words) == [] ==> r == Ok(WordSpace)
    ensures |OrEmpty(words)| == 1 && words.value[0].Some? ==> r == Ok(LabelOf(words.value[0].value))
  {
    if OrEmpty(words) == [] then Ok(WordSpace) else AndChain(words.value)
  }

  /** The joined words read back, in order, give exactly the labels of the array. */
  lemma MultiWordLeaves(words: seq<Option<RootWord>>)
    requires |words| > 0 && forall i :: 0 <= i < |words| ==> words[i].Some?
    ensures MultiWord(Some(words)).Ok?
    ensures Leaves(MultiWord(Some(words)).value) == seq(|words|, i requires 0 <= i < |words| => LabelOf(words[i].value))
  {
    var r := AndChain(words);
    assert MultiWord(Some(words)) == r;
  }

  /** getMultiWord as the Java loop computes it. */
  method GetMultiWord(words: Option<seq<Option<RootWord>>>) returns (r: Result<Word>)
    ensures r == MultiWord(words)
  {
    var w := WordSpace;
    if words.Some? && |words.value| > 0 {
      var ws := words.value;
      if ws[0].None? {
        return Fail(NullPointer);
      }
      w := LabelOf(ws[0].value);
      var i := 1;
      while i < |ws|
        invariant 1 <= i <= |ws|
        invariant AndChain(ws[..i]) == Ok(w)
      {
        assert ws[..i + 1][..i] == ws[..i];
        if ws[i].None? {
          return Fail(NullPointer);
        }
        w := AndJoined(w, LabelOf(ws[i].value));
        assert ws[..i + 1][i] == ws[i];
        assert AndChain(ws[..i + 1]) == Ok(w);
        i := i + 1;
      }
      assert ws[..i] == ws;
    }
    return Ok(w);
  }

  /**
   * getArabicTextP(value, pStyle): one paragraph in `pStyle` holding exactly
   * one run; a null value is written as WORD_SPACE.
   */
  function ArabicTextP(value: Option<Word>, pStyle: string): (p: Para)
    ensures p.style == Some(pStyle) && |p.runs| == 1
    ensures p.runs[0].charStyle.None? && !p.runs[0].trailingSpace
    ensures value.Some? ==> p.runs[0].text == value.value
    ensures value.None? ==> p.runs[0].text == WordSpace
  {
    Para(Some(pStyle), [Run(None, value.GetOr(WordSpace), false)])
  }

  /**
   * getArabicTextP(prefix, value, pStyle, prefixStyle): without a prefix, the
   * unprefixed paragraph; with one, a prefix run (prefix and a space, in the
   * prefix style) followed by the very run the unprefixed paragraph holds.
   */
  function PrefixedArabicTextP(prefix: Option<Word>, value: Option<Word>, pStyle: string, prefixStyle: string): (p: Para)
    ensures prefix.None? ==> p == ArabicTextP(value, pStyle)
    ensures prefix.Some? ==> p.style == Some(pStyle) && |p.runs| == 2
    ensures prefix.Some? ==> p.runs[0] == Run(Some(prefixStyle), prefix.value, true)
    ensures prefix.Some? ==> p.runs[1] == ArabicTextP(value, pStyle).runs[0]
  {
    match prefix
    case None => ArabicTextP(value, pStyle)
    case Some(w) => Para(Some(pStyle), [Run(Some(prefixStyle), w, true), Run(None, value.GetOr(WordSpace), false)])
  }

  /** getArabicTextP(value): the table-centre style. */
  function TextP(value: Option<Word>): Para {
    ArabicTextP(value, ArabicTableCenterStyle)
  }

  /** getArabicTextP(prefix, value): table-centre paragraph, prefix in the prefix character style. */
  function PrefixedTextP(prefix: Option<Word>, value: Option<Word>): Para {
    PrefixedArabicTextP(prefix, value, ArabicTableCenterStyle, ArabicPrefixStyle)
  }
}
