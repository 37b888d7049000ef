/**
 * MorphologicalChartEngine: builds the document of a conjugation template.
 * The table of contents comes first when the abbreviated charts and the
 * table of contents are both wanted; then, per chart the supplier makes from
 * a data item, the abbreviated table and after it the detailed table, each
 * only when its conjugation is there and not omitted.
 */
module ChartEngine {
  import opened Wrappers
  import opened Conjugation
  import opened Table
  import opened Documents
  import Abbreviated
  import Detailed

  /**
   * What MorphologicalChartSupplier.get() returns for a configuration and a
   * data item. The conjugation builder behind it is not part of this model.
   */
  type Supplier = (Option<ChartConfiguration>, ConjugationData) -> Option<MorphologicalChart>

  /** The charts createMorphologicalCharts collects: one per data item, in data order. */
  function SuppliedCharts(template: ConjugationTemplate, supply: Supplier): (charts: seq<Option<MorphologicalChart>>)
    ensures |charts| == |template.data|
  {
    seq(|template.data|, i requires 0 <= i < |template.data| => supply(template.chartConfiguration, template.data[i]))
  }

  /** The abbreviated half of addToDocument: a fresh adapter over the one conjugation, unless it is null or omitted. */
  function AbbreviatedStep(cfg: ChartConfiguration, a: Option<AbbreviatedConjugation>): (b: Build)
    ensures a.None? || cfg.omitAbbreviatedConjugation ==> b == Nothing
    ensures |b.parts| <= 1 && (b.parts != [] ==> b.parts[0].AbbreviatedTable?)
  {
    if a.None? || cfg.omitAbbreviatedConjugation then Nothing
    else Abbreviated.AbbreviatedDocumentParts([], cfg, [a])
  }

  /** The detailed half of addToDocument: a fresh adapter over the one conjugation, unless it is null or omitted. */
  function DetailedStep(cfg: ChartConfiguration, d: Option<DetailedConjugation>): (b: Build)
    ensures d.None? || cfg.omitDetailedConjugation ==> b == Nothing
    ensures |b.parts| <= 1 && (b.parts != [] ==> b.parts[0].DetailedTable?)
  {
    if d.None? || cfg.omitDetailedConjugation then Nothing
    else Detailed.DetailedDocumentParts([], [d])
  }

  /** addToDocument for one chart; a null chart raises NullPointerException. */
  function ChartStep(cfg: ChartConfiguration, chart: Option<MorphologicalChart>): Build {
    match chart
    case None => Build([], Some(NullPointer))
    case Some(mc) => Then(AbbreviatedStep(cfg, mc.abbreviatedConjugation), DetailedStep(cfg, mc.detailedConjugation))
  }

  /**
   * buildDocument: nothing for a null template; NullPointerException for a
   * null configuration; otherwise the table of contents when it is due,
   * then each chart's step in order, stopping at the first exception.
   */
  function EngineDocument(template: Option<ConjugationTemplate>, supply: Supplier): Build {
    match template
    case None => Nothing
    case Some(t) =>
      match t.chartConfiguration
      case None => Build([], Some(NullPointer))
      case Some(cfg) => Then(Build(TableOfContentsParts(cfg), None), Sequence(Steps(ChartStep, cfg, SuppliedCharts(t, supply))))
  }

  /** A chart adds at most its two tables, never a table of contents, and the abbreviated one first. */
  lemma ChartStepParts(cfg: ChartConfiguration, chart: Option<MorphologicalChart>)
    ensures var parts := ChartStep(cfg, chart).parts;
      && |parts| <= 2
      && TableOfContents !in parts
      && (forall j, k :: 0 <= j < |parts| && 0 <= k < |parts| && parts[j].AbbreviatedTable? && parts[k].DetailedTable? ==> j < k)
  {
    if chart.Some? {
      var mc := chart.value;
      var a := AbbreviatedStep(cfg, mc.abbreviatedConjugation);
      var d := DetailedStep(cfg, mc.detailedConjugation);
      if a.thrown.None? {
        assert ChartStep(cfg, chart).parts == a.parts + d.parts;
      }
    }
  }

  /**
   * A chart's abbreviated table is added exactly when its abbreviated
   * conjugation is there, not omitted, and its chart raises nothing.
   */
  lemma ChartStepAbbreviated(cfg: ChartConfiguration, mc: MorphologicalChart)
    ensures var parts := ChartStep(cfg, Some(mc)).parts;
      (exists k :: 0 <= k < |parts| && parts[k].AbbreviatedTable?)
      <==> (&& mc.abbreviatedConjugation.Some?
            && !cfg.omitAbbreviatedConjugation
            && Abbreviated.AbbreviatedChart(cfg, [mc.abbreviatedConjugation]).Ok?)
  {
    var a := AbbreviatedStep(cfg, mc.abbreviatedConjugation);
    var d := DetailedStep(cfg, mc.detailedConjugation);
    var parts := ChartStep(cfg, Some(mc)).parts;
    if a.thrown.None? {
      assert parts == a.parts + d.parts;
      if a.parts != [] {
        assert parts[0].AbbreviatedTable?;
      }
    }
  }

  /**
   * A chart's detailed table is added exactly when the abbreviated step
   * raised nothing and the detailed conjugation is there, not omitted, and
   * its chart raises nothing.
   */
  lemma ChartStepDetailed(cfg: ChartConfiguration, mc: MorphologicalChart)
    ensures var parts := ChartStep(cfg, Some(mc)).parts;
      (exists k :: 0 <= k < |parts| && parts[k].DetailedTable?)
      <==> (&& AbbreviatedStep(cfg, mc.abbreviatedConjugation).thrown.None?
            && mc.detailedConjugation.Some?
            && !cfg.omitDetailedConjugation
            && Detailed.DetailedChart([mc.detailedConjugation]).Ok?)
  {
    var a := AbbreviatedStep(cfg, mc.abbreviatedConjugation);
    var d := DetailedStep(cfg, mc.detailedConjugation);
    var parts := ChartStep(cfg, Some(mc)).parts;
    if a.thrown.None? {
      assert parts == a.parts + d.parts;
      if d.parts != [] {
        assert parts[|a.parts|].DetailedTable?;
      }
    }
  }

  /**
   * The table of contents is in the document exactly when there is a
   * template with a configuration that omits neither the abbreviated charts
   * nor the table of contents; it is then the first part.
   */
  lemma EngineTableOfContents(template: Option<ConjugationTemplate>, supply: Supplier)
    ensures var parts := EngineDocument(template, supply).parts;
      TableOfContents in parts
      <==> (&& template.Some? && template.value.chartConfiguration.Some?
            && !template.value.chartConfiguration.value.omitAbbreviatedConjugation
            && !template.value.chartConfiguration.value.omitToc)
    ensures TableOfContents in EngineDocument(template, supply).parts ==> EngineDocument(template, supply).parts[0] == TableOfContents
  {
    if template.Some? && template.value.chartConfiguration.Some? {
      var cfg := template.value.chartConfiguration.value;
      var steps := Steps(ChartStep, cfg, SuppliedCharts(template.value, supply));
      forall i | 0 <= i < |steps| ensures TableOfContents !in steps[i].parts {
        ChartStepParts(cfg, SuppliedCharts(template.value, supply)[i]);
      }
      SequenceAddsNoToc(steps);
      assert EngineDocument(template, supply).parts == TableOfContentsParts(cfg) + Sequence(steps).parts;
    }
  }

  /** A chart that adds two parts and raises nothing adds its abbreviated table, then its detailed table. */
  lemma ChartStepPair(cfg: ChartConfiguration, chart: Option<MorphologicalChart>)
    requires ChartStep(cfg, chart).thrown.None? && |ChartStep(cfg, chart).parts| == 2
    ensures ChartStep(cfg, chart).parts[0].AbbreviatedTable? && ChartStep(cfg, chart).parts[1].DetailedTable?
  {
    var mc := chart.value;
    var a := AbbreviatedStep(cfg, mc.abbreviatedConjugation);
    var d := DetailedStep(cfg, mc.detailedConjugation);
    assert ChartStep(cfg, chart).parts == a.parts + d.parts;
  }

  /**
   * When every chart adds both tables without raising, the document is the
   * table of contents (when due) followed, chart by chart in data order, by
   * the chart's abbreviated table and then its detailed table.
   */
  lemma EngineDocumentOrder(t: ConjugationTemplate, supply: Supplier)
    requires t.chartConfiguration.Some?
    requires var cfg := t.chartConfiguration.value; var charts := SuppliedCharts(t, supply);
      forall i :: 0 <= i < |charts| ==> ChartStep(cfg, charts[i]).thrown.None? && |ChartStep(cfg, charts[i]).parts| == 2
    ensures var cfg := t.chartConfiguration.value;
      var charts := SuppliedCharts(t, supply);
      var doc := EngineDocument(Some(t), supply);
      var n := |TableOfContentsParts(cfg)|;
      && doc.thrown.None?
      && |doc.parts| == n + 2 * |charts|
      && forall i :: 0 <= i < |charts| ==>
           && doc.parts[n + 2 * i] == ChartStep(cfg, charts[i]).parts[0]
           && doc.parts[n + 2 * i].AbbreviatedTable?
           && doc.parts[n + 2 * i + 1] == ChartStep(cfg, charts[i]).parts[1]
           && doc.parts[n + 2 * i + 1].DetailedTable?
  {
    var cfg := t.chartConfiguration.value;
    var charts := SuppliedCharts(t, supply);
    var steps := Steps(ChartStep, cfg, charts);
    SequenceOfPairs(steps);
    var doc := EngineDocument(Some(t), supply);
    var n := |TableOfContentsParts(cfg)|;
    assert doc.parts == TableOfContentsParts(cfg) + Sequence(steps).parts;
    forall i | 0 <= i < |charts|
      ensures doc.parts[n + 2 * i].AbbreviatedTable? && doc.parts[n + 2 * i + 1].DetailedTable?
    {
      assert steps[i] == ChartStep(cfg, charts[i]);
      ChartStepPair(cfg, charts[i]);
    }
  }

  class MorphologicalChartEngine {
    const path: Option<string>
    const conjugationTemplate: Option<ConjugationTemplate>
    const supply: Supplier

    /** `MorphologicalChartEngine(path, template)`; the one-argument form passes a null path. */
    constructor (path: Option<string>, conjugationTemplate: Option<ConjugationTemplate>, supply: Supplier)
      ensures this.path == path && this.conjugationTemplate == conjugationTemplate && this.supply == supply
    {
      this.path := path;
      this.conjugationTemplate := conjugationTemplate;
      this.supply := supply;
    }

    /**
     * call: IllegalArgumentException for a null path; otherwise the document
     * is built into a fresh main document part and true is returned, unless
     * building raised.
     */
    method Call() returns (r: Result<bool>)
      ensures path.None? ==> r == Fail(IllegalArgument("Path cannot be null."))
      ensures path.Some? && EngineDocument(conjugationTemplate, supply).thrown.None? ==> r == Ok(true)
      ensures path.Some? && EngineDocument(conjugationTemplate, supply).thrown.Some? ==>
                r == Fail(EngineDocument(conjugationTemplate, supply).thrown.value)
    {
      if path.None? {
        return Fail(IllegalArgument("Path cannot be null."));
      }
      var mdp := new MainDocumentPart();
      var thrown := BuildDocument(mdp);
      if thrown.Some? {
        return Fail(thrown.value);
      }
      return Ok(true);
    }

    /** buildDocument: appends EngineDocument's parts to the document and raises what it raises. */
    method BuildDocument(mdp: MainDocumentPart) returns (thrown: Option<Fault>)
      modifies mdp
      ensures mdp.content == old(mdp.content) + EngineDocument(conjugationTemplate, supply).parts
      ensures thrown == EngineDocument(conjugationTemplate, supply).thrown
    {
      if conjugationTemplate.None? {
        return None;
      }
      var template := conjugationTemplate.value;
      if template.chartConfiguration.None? {
        return Some(NullPointer);
      }
      var cfg := template.chartConfiguration.value;
      if !cfg.omitAbbreviatedConjugation && !cfg.omitToc {
        mdp.content := mdp.content + [TableOfContents];
      }
      ghost var c0 := mdp.content;
      assert c0 == old(mdp.content) + TableOfContentsParts(cfg);
      var charts := CreateMorphologicalCharts();
      assert charts.value == SuppliedCharts(template, supply);
      thrown := AddCharts(mdp, cfg, charts.value);
      AppendAssoc(old(mdp.content), TableOfContentsParts(cfg), Sequence(Steps(ChartStep, cfg, charts.value)).parts);
    }

    /** The loop of buildDocument: addToDocument for each chart in order, stopping at the first exception. */
    method AddCharts(mdp: MainDocumentPart, cfg: ChartConfiguration, charts: seq<Option<MorphologicalChart>>) returns (thrown: Option<Fault>)
      modifies mdp
      ensures mdp.content == old(mdp.content) + Sequence(Steps(ChartStep, cfg, charts)).parts
      ensures thrown == Sequence(Steps(ChartStep, cfg, charts)).thrown
    {
      ghost var steps := Steps(ChartStep, cfg, charts);
      var i := 0;
      while i < |charts|
        invariant 0 <= i <= |charts|
        invariant Sequence(steps[..i]).thrown.None?
        invariant mdp.content == old(mdp.content) + Sequence(steps[..i]).parts
      {
        thrown := AddToDocument(mdp, cfg, charts[i]);
        assert steps[i] == ChartStep(cfg, charts[i]);
        SequenceStep(steps, i, old(mdp.content));
        if thrown.Some? {
          return;
        }
        i := i + 1;
      }
      assert steps[..i] == steps;
      return None;
    }

    /** addToDocument: the abbreviated table, then the detailed table, each unless null or omitted. */
    method AddToDocument(mdp: MainDocumentPart, cfg: ChartConfiguration, chart: Option<MorphologicalChart>) returns (thrown: Option<Fault>)
      modifies mdp
      ensures mdp.content == old(mdp.content) + ChartStep(cfg, chart).parts
      ensures thrown == ChartStep(cfg, chart).thrown
    {
      if chart.None? {
        return Some(NullPointer);
      }
      var mc := chart.value;
      var abbreviatedConjugation := mc.abbreviatedConjugation;
      var omitAbbreviatedConjugation := abbreviatedConjugation.None? || cfg.omitAbbreviatedConjugation;
      if !omitAbbreviatedConjugation {
        var aca := new Abbreviated.AbbreviatedConjugationAdapter(Some(cfg), Some([abbreviatedConjugation]));
        thrown := aca.BuildDocument(mdp);
        if thrown.Some? {
          return;
        }
      }
      ghost var c1 := mdp.content;
      assert c1 == old(mdp.content) + AbbreviatedStep(cfg, abbreviatedConjugation).parts;
      assert AbbreviatedStep(cfg, abbreviatedConjugation).thrown.None?;
      var detailedConjugation := mc.detailedConjugation;
      var omitDetailedConjugation := detailedConjugation.None? || cfg.omitDetailedConjugation;
      if !omitDetailedConjugation {
        var dca := new Detailed.DetailedConjugationAdapter(Some([detailedConjugation]));
        thrown := dca.BuildDocument(mdp);
      } else {
        thrown := None;
      }
      assert mdp.content == c1 + DetailedStep(cfg, detailedConjugation).parts;
    }

    /** createMorphologicalCharts: one chart per data item, in data order; a null template raises. */
    method CreateMorphologicalCharts() returns (charts: Result<seq<Option<MorphologicalChart>>>)
      ensures charts.Ok? <==> conjugationTemplate.Some?
      ensures charts.Fail? ==> charts.fault == NullPointer
      ensures charts.Ok? ==> |charts.value| == |conjugationTemplate.value.data|
      ensures charts.Ok? ==> forall i :: 0 <= i < |charts.value| ==>
                charts.value[i] == supply(conjugationTemplate.value.chartConfiguration, conjugationTemplate.value.data[i])
    {
      if conjugationTemplate.None? {
        return Fail(NullPointer);
      }
      var chartConfiguration := conjugationTemplate.value.chartConfiguration;
      var data := conjugationTemplate.value.data;
      var morphologicalCharts: seq<Option<MorphologicalChart>> := [];
      var i := 0;
      while i < |data|
        invariant 0 <= i <= |data|
        invariant |morphologicalCharts| == i
        invariant forall j :: 0 <= j < i ==> morphologicalCharts[j] == supply(chartConfiguration, data[j])
      {
        morphologicalCharts := morphologicalCharts + [supply(chartConfiguration, data[i])];
        i := i + 1;
      }
      return Ok(morphologicalCharts);
    }
  }
}
