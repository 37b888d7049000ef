/**
 * The records the conjugation builder hands to the chart code. Every field the
 * Java code may find null is an Option; arrays that may be null are
 * Option<seq<...>> and their elements are Options too.
 */
module Conjugation {
  import opened Wrappers

  /** A conjugated word: `getRootWord()` and `toLabel()`. */
  datatype RootWord = RootWord(rootWord: Option<string>, labelText: string)

  /** The plural, dual and singular forms of one person or case. */
  datatype ConjugationTuple = ConjugationTuple(
    plural: Option<RootWord>,
    dual: Option<RootWord>,
    singular: Option<RootWord>)

  /** One tense: a caption and the five person slots. */
  datatype VerbConjugationGroup = VerbConjugationGroup(
    termType: Option<string>,
    masculineThirdPerson: Option<ConjugationTuple>,
    feminineThirdPerson: Option<ConjugationTuple>,
    masculineSecondPerson: Option<ConjugationTuple>,
    feminineSecondPerson: Option<ConjugationTuple>,
    firstPerson: Option<ConjugationTuple>)

  /** One noun form: a caption and the three case slots. */
  datatype NounConjugationGroup = NounConjugationGroup(
    termType: Option<string>,
    nominative: Option<ConjugationTuple>,
    accusative: Option<ConjugationTuple>,
    genitive: Option<ConjugationTuple>)

  datatype VerbDetailedConjugationPair = VerbDetailedConjugationPair(
    leftSideConjugations: Option<VerbConjugationGroup>,
    rightSideConjugations: Option<VerbConjugationGroup>)

  datatype NounDetailedConjugationPair = NounDetailedConjugationPair(
    leftSideConjugations: Option<NounConjugationGroup>,
    rightSideConjugations: Option<NounConjugationGroup>)

  /** Everything the detailed chart of one root shows. */
  datatype DetailedConjugation = DetailedConjugation(
    activeTensePair: Option<VerbDetailedConjugationPair>,
    activeParticiplePair: Option<NounDetailedConjugationPair>,
    verbalNounPairs: Option<seq<Option<NounDetailedConjugationPair>>>,
    passiveTensePair: Option<VerbDetailedConjugationPair>,
    passiveParticiplePair: Option<NounDetailedConjugationPair>,
    imperativeAndForbiddingPair: Option<VerbDetailedConjugationPair>,
    adverbPairs: Option<seq<Option<NounDetailedConjugationPair>>>)

  datatype ActiveLine = ActiveLine(
    activeParticipleMasculine: Option<RootWord>,
    verbalNouns: Option<seq<Option<RootWord>>>,
    presentTense: Option<RootWord>,
    pastTense: Option<RootWord>)

  datatype PassiveLine = PassiveLine(
    passiveParticipleMasculine: Option<RootWord>,
    verbalNouns: Option<seq<Option<RootWord>>>,
    presentPassiveTense: Option<RootWord>,
    pastPassiveTense: Option<RootWord>)

  datatype ImperativeAndForbiddingLine = ImperativeAndForbiddingLine(
    imperative: Option<RootWord>,
    forbidding: Option<RootWord>)

  datatype AdverbLine = AdverbLine(adverbs: Option<seq<Option<RootWord>>>)

  /** The labels of the three or four radicals; any of them may be null. */
  datatype RootLetters = RootLetters(
    firstRadical: Option<string>,
    secondRadical: Option<string>,
    thirdRadical: Option<string>,
    fourthRadical: Option<string>)

  datatype ConjugationHeader = ConjugationHeader(
    title: Option<string>,
    translation: Option<string>,
    typeLabel1: Option<string>,
    typeLabel2: Option<string>,
    typeLabel3: Option<string>,
    rootLetters: Option<RootLetters>)

  /** Everything the abbreviated chart of one root shows. */
  datatype AbbreviatedConjugation = AbbreviatedConjugation(
    conjugationHeader: Option<ConjugationHeader>,
    activeLine: Option<ActiveLine>,
    passiveLine: Option<PassiveLine>,
    imperativeAndForbiddingLine: Option<ImperativeAndForbiddingLine>,
    adverbLine: Option<AdverbLine>)

  datatype MorphologicalChart = MorphologicalChart(
    abbreviatedConjugation: Option<AbbreviatedConjugation>,
    detailedConjugation: Option<DetailedConjugation>)

  /** The rendering switches of ChartConfiguration that the chart code reads. */
  datatype ChartConfiguration = ChartConfiguration(
    omitToc: bool,
    omitTitle: bool,
    omitHeader: bool,
    omitAbbreviatedConjugation: bool,
    omitDetailedConjugation: bool)

  /** `new ChartConfiguration()`: no part of the document is omitted. */
  const DefaultChartConfiguration := ChartConfiguration(false, false, false, false, false)

  /** A configuration argument, with null replaced by the default. */
  function ConfigurationOrDefault(c: Option<ChartConfiguration>): (r: ChartConfiguration)
    ensures c.Some? ==> r == c.value
    ensures c.None? ==> r == DefaultChartConfiguration
  {
    c.GetOr(DefaultChartConfiguration)
  }

  /** One entry of a conjugation template; only the supplier looks inside it. */
  datatype ConjugationData = ConjugationData(template: string, rootLetters: Option<RootLetters>)

  datatype ConjugationTemplate = ConjugationTemplate(
    chartConfiguration: Option<ChartConfiguration>,
    data: seq<ConjugationData>)
}
