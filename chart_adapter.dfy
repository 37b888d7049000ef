/**
 * MorphologicalChartAdapter: builds a document from charts that are already
 * made. Nothing is added for a null or empty chart array; otherwise the table
 * of contents comes first when it is due, then per chart the abbreviated
 * table (unless null or omitted) and the detailed table. The detailed table
 * is added whatever the configuration says, and a null detailed conjugation
 * raises NullPointerException.
 */
module ChartAdapter {
  import opened Wrappers
  import opened Conjugation
  import opened Documents
  import ChartEngine
  import Abbreviated
  import Detailed

  /**
   * buildMorphologicalChart exactly as written: the detailed adapter is made
   * from `mc.getDetailedConjugation()` even when that is null, and the array
   * `[null]` it then holds makes its getChart raise NullPointerException.
   */
  function AsWrittenChartStep(cfg: ChartConfiguration, chart: Option<MorphologicalChart>): Build {
    match chart
    case None => Build([], Some(NullPointer))
    case Some(mc) =>
      Then(ChartEngine.AbbreviatedStep(cfg, mc.abbreviatedConjugation),
           Detailed.DetailedDocumentParts([], [mc.detailedConjugation]))
  }

  /**
   * buildMorphologicalChart as evidently intended: as written, except that a
   * null detailed conjugation adds nothing instead of raising. The omit flag
   * for detailed conjugations is still not consulted.
   */
  function ChartStep(cfg: ChartConfiguration, chart: Option<MorphologicalChart>): Build {
    match chart
    case None => Build([], Some(NullPointer))
    case Some(mc) =>
      Then(ChartEngine.AbbreviatedStep(cfg, mc.abbreviatedConjugation),
           if mc.detailedConjugation.None? then Nothing
           else Detailed.DetailedDocumentParts([], [mc.detailedConjugation]))
  }

  /** buildDocument with the steps of `chartSteps`: nothing for an empty array, else the TOC when due, then each chart. */
  function DocumentOf(cfg: ChartConfiguration, charts: Option<seq<Option<MorphologicalChart>>>, chartSteps: seq<Build>): Build
    requires |chartSteps| == |OrEmpty(charts)|
  {
    if OrEmpty(charts) == [] then Nothing
    else Then(Build(TableOfContentsParts(cfg), None), Sequence(chartSteps))
  }

  /** The document buildDocument makes as written. */
  function AsWrittenDocument(cfg: ChartConfiguration, charts: Option<seq<Option<MorphologicalChart>>>): Build {
    DocumentOf(cfg, charts, Steps(AsWrittenChartStep, cfg, OrEmpty(charts)))
  }

  /** The document buildDocument makes with the corrected chart step. */
  function AdapterDocument(cfg: ChartConfiguration, charts: Option<seq<Option<MorphologicalChart>>>): Build {
    DocumentOf(cfg, charts, Steps(ChartStep, cfg, OrEmpty(charts)))
  }

  /** A null or empty chart array adds nothing and raises nothing. */
  lemma EmptyChartsAddNothing(cfg: ChartConfiguration, charts: Option<seq<Option<MorphologicalChart>>>)
    ensures OrEmpty(charts) == [] ==> AsWrittenDocument(cfg, charts) == Nothing
    ensures OrEmpty(charts) == [] ==> AdapterDocument(cfg, charts) == Nothing
  {
  }

  /**
   * The table of contents is in the document exactly when there is at least
   * one chart and neither the abbreviated charts nor the table of contents
   * is omitted; it is then the first part.
   */
  lemma AdapterTableOfContents(cfg: ChartConfiguration, charts: Option<seq<Option<MorphologicalChart>>>)
    ensures var parts := AsWrittenDocument(cfg, charts).parts;
      TableOfContents in parts <==> (OrEmpty(charts) != [] && !cfg.omitAbbreviatedConjugation && !cfg.omitToc)
    ensures TableOfContents in AsWrittenDocument(cfg, charts).parts ==> AsWrittenDocument(cfg, charts).parts[0] == TableOfContents
    ensures var parts := AdapterDocument(cfg, charts).parts;
      TableOfContents in parts <==> (OrEmpty(charts) != [] && !cfg.omitAbbreviatedConjugation && !cfg.omitToc)
    ensures TableOfContents in AdapterDocument(cfg, charts).parts ==> AdapterDocument(cfg, charts).parts[0] == TableOfContents
  {
    var written := Steps(AsWrittenChartStep, cfg, OrEmpty(charts));
    var corrected := Steps(ChartStep, cfg, OrEmpty(charts));
    forall i | 0 <= i < |corrected| ensures TableOfContents !in written[i].parts && TableOfContents !in corrected[i].parts {
      ChartStepParts(cfg, OrEmpty(charts)[i]);
      ChartStepCorrects(cfg, OrEmpty(charts)[i]);
    }
    SequenceAddsNoToc(written);
    SequenceAddsNoToc(corrected);
    if OrEmpty(charts) != [] {
      assert AsWrittenDocument(cfg, charts).parts == TableOfContentsParts(cfg) + Sequence(written).parts;
      assert AdapterDocument(cfg, charts).parts == TableOfContentsParts(cfg) + Sequence(corrected).parts;
    }
  }

  /** A chart adds at most its two tables, never a table of contents, and the abbreviated one first. */
  lemma ChartStepParts(cfg: ChartConfiguration, chart: Option<MorphologicalChart>)
    ensures var parts := ChartStep(cfg, chart).parts;
      && |parts| <= 2
      && TableOfContents !in parts
      && (forall j, k :: 0 <= j < |parts| && 0 <= k < |parts| && parts[j].AbbreviatedTable? && parts[k].DetailedTable? ==> j < k)
  {
    if chart.Some? {
      var mc := chart.value;
      var a := ChartEngine.AbbreviatedStep(cfg, mc.abbreviatedConjugation);
      var d := if mc.detailedConjugation.None? then Nothing else Detailed.DetailedDocumentParts([], [mc.detailedConjugation]);
      if a.thrown.None? {
        assert ChartStep(cfg, chart).parts == a.parts + d.parts;
      }
    }
  }

  /**
   * A chart's abbreviated table is added exactly when its abbreviated
   * conjugation is there, not omitted, and its chart raises nothing; this
   * holds for the step as written and for the corrected one.
   */
  lemma ChartStepAbbreviated(cfg: ChartConfiguration, mc: MorphologicalChart)
    ensures var parts := AsWrittenChartStep(cfg, Some(mc)).parts;
      (exists k :: 0 <= k < |parts| && parts[k].AbbreviatedTable?)
      <==> (&& mc.abbreviatedConjugation.Some?
            && !cfg.omitAbbreviatedConjugation
            && Abbreviated.AbbreviatedChart(cfg, [mc.abbreviatedConjugation]).Ok?)
    ensures AsWrittenChartStep(cfg, Some(mc)).parts == ChartStep(cfg, Some(mc)).parts
  {
    ChartStepCorrects(cfg, Some(mc));
    var a := ChartEngine.AbbreviatedStep(cfg, mc.abbreviatedConjugation);
    var d := Detailed.DetailedDocumentParts([], [mc.detailedConjugation]);
    var parts := AsWrittenChartStep(cfg, Some(mc)).parts;
    if a.thrown.None? {
      assert parts == a.parts + d.parts;
      if a.parts != [] {
        assert parts[0].AbbreviatedTable?;
      }
    }
  }

  /**
   * A chart's detailed table is added exactly when its abbreviated step
   * raised nothing and its detailed conjugation is there and builds; the
   * omit flag for detailed conjugations plays no part.
   */
  lemma ChartStepDetailed(cfg: ChartConfiguration, mc: MorphologicalChart)
    ensures var parts := ChartStep(cfg, Some(mc)).parts;
      (exists k :: 0 <= k < |parts| && parts[k].DetailedTable?)
      <==> (&& ChartEngine.AbbreviatedStep(cfg, mc.abbreviatedConjugation).thrown.None?
            && mc.detailedConjugation.Some?
            && Detailed.DetailedChart([mc.detailedConjugation]).Ok?)
  {
    var a := ChartEngine.AbbreviatedStep(cfg, mc.abbreviatedConjugation);
    var d := if mc.detailedConjugation.None? then Nothing else Detailed.DetailedDocumentParts([], [mc.detailedConjugation]);
    var parts := ChartStep(cfg, Some(mc)).parts;
    if a.thrown.None? {
      assert parts == a.parts + d.parts;
      if d.parts != [] {
        assert parts[|a.parts|].DetailedTable?;
      }
    }
  }

  /**
   * Where the configuration does not omit detailed conjugations, this
   * adapter lays a chart out exactly as the chart engine does.
   */
  lemma AgreesWithEngine(cfg: ChartConfiguration, charts: seq<Option<MorphologicalChart>>)
    requires !cfg.omitDetailedConjugation
    ensures Steps(ChartStep, cfg, charts) == Steps(ChartEngine.ChartStep, cfg, charts)
  {
    forall i | 0 <= i < |charts| ensures Steps(ChartStep, cfg, charts)[i] == Steps(ChartEngine.ChartStep, cfg, charts)[i] {
      if charts[i].Some? && charts[i].value.detailedConjugation.None? {
        assert ChartEngine.DetailedStep(cfg, None) == Nothing;
      }
    }
  }

  /** As written, a chart whose abbreviated step succeeds but whose detailed conjugation is null raises NullPointerException. */
  lemma AsWrittenNullDetailedRaises(cfg: ChartConfiguration, mc: MorphologicalChart)
    requires mc.detailedConjugation.None?
    requires ChartEngine.AbbreviatedStep(cfg, mc.abbreviatedConjugation).thrown.None?
    ensures AsWrittenChartStep(cfg, Some(mc)).thrown == Some(NullPointer)
    ensures ChartStep(cfg, Some(mc)).thrown.None?
  {
    Detailed.NullRecordFails([mc.detailedConjugation], 0);
  }

  /**
   * The smallest such input: one chart with neither conjugation, under the
   * default configuration. As written the build raises NullPointerException
   * after the table of contents; corrected it adds the table of contents only.
   */
  lemma AsWrittenEmptyChartRaises()
    ensures var charts := Some([Some(MorphologicalChart(None, None))]);
      && AsWrittenDocument(DefaultChartConfiguration, charts) == Build([TableOfContents], Some(NullPointer))
      && AdapterDocument(DefaultChartConfiguration, charts) == Build([TableOfContents], None)
  {
    var mc := MorphologicalChart(None, None);
    AsWrittenNullDetailedRaises(DefaultChartConfiguration, mc);
    var steps := Steps(AsWrittenChartStep, DefaultChartConfiguration, [Some(mc)]);
    assert steps[..0] == [];
    assert Sequence(steps) == Then(Nothing, steps[0]);
    var fixedSteps := Steps(ChartStep, DefaultChartConfiguration, [Some(mc)]);
    assert fixedSteps[..0] == [];
    assert Sequence(fixedSteps) == Then(Nothing, fixedSteps[0]);
  }

  /**
   * The corrected step differs from the written one only where the written
   * one raises on a null detailed conjugation; both add the same parts.
   */
  lemma ChartStepCorrects(cfg: ChartConfiguration, chart: Option<MorphologicalChart>)
    ensures AsWrittenChartStep(cfg, chart).parts == ChartStep(cfg, chart).parts
    ensures chart.None? || chart.value.detailedConjugation.Some? ==> ChartStep(cfg, chart) == AsWrittenChartStep(cfg, chart)
    ensures ChartStep(cfg, chart) != AsWrittenChartStep(cfg, chart) ==> AsWrittenChartStep(cfg, chart).thrown == Some(NullPointer)
    ensures chart.Some? && chart.value.detailedConjugation.None? ==>
              ChartStep(cfg, chart) == ChartEngine.AbbreviatedStep(cfg, chart.value.abbreviatedConjugation)
  {
    if chart.Some? && chart.value.detailedConjugation.None? {
      Detailed.NullRecordFails([chart.value.detailedConjugation], 0);
    }
  }

  /**
   * The document as written is cut short at the first chart whose detailed
   * conjugation is null: it holds a prefix of the corrected document's
   * parts, it is the corrected document whenever it raises nothing, and it
   * is that document whenever no chart has a null detailed conjugation.
   */
  lemma AsWrittenDocumentCorrects(cfg: ChartConfiguration, charts: Option<seq<Option<MorphologicalChart>>>)
    ensures AsWrittenDocument(cfg, charts).parts <= AdapterDocument(cfg, charts).parts
    ensures AsWrittenDocument(cfg, charts).thrown.None? ==> AsWrittenDocument(cfg, charts) == AdapterDocument(cfg, charts)
    ensures (forall i :: 0 <= i < |OrEmpty(charts)| && OrEmpty(charts)[i].Some? ==> OrEmpty(charts)[i].value.detailedConjugation.Some?) ==>
              AsWrittenDocument(cfg, charts) == AdapterDocument(cfg, charts)
  {
    var written := Steps(AsWrittenChartStep, cfg, OrEmpty(charts));
    var corrected := Steps(ChartStep, cfg, OrEmpty(charts));
    forall i | 0 <= i < |written|
      ensures written[i].parts == corrected[i].parts && (written[i] != corrected[i] ==> written[i].thrown.Some?)
    {
      ChartStepCorrects(cfg, OrEmpty(charts)[i]);
    }
    SequenceOfCorrections(written, corrected);
    if forall i :: 0 <= i < |OrEmpty(charts)| && OrEmpty(charts)[i].Some? ==> OrEmpty(charts)[i].value.detailedConjugation.Some? {
      forall i | 0 <= i < |written| ensures written[i] == corrected[i] {
        ChartStepCorrects(cfg, OrEmpty(charts)[i]);
      }
      assert written == corrected;
    }
  }

  class MorphologicalChartAdapter {
    const path: Option<string>
    const chartConfiguration: ChartConfiguration
    const charts: Option<seq<Option<MorphologicalChart>>>

    /**
     * `MorphologicalChartAdapter(path, chartConfiguration, charts...)`. The
     * one-argument form passes a null path and a null configuration, the
     * two-argument form a null path and its configuration. A null
     * configuration becomes the default one.
     */
    constructor (path: Option<string>, chartConfiguration: Option<ChartConfiguration>, charts: Option<seq<Option<MorphologicalChart>>>)
      ensures this.path == path && this.charts == charts
      ensures this.chartConfiguration == ConfigurationOrDefault(chartConfiguration)
    {
      this.path := path;
      this.chartConfiguration := ConfigurationOrDefault(chartConfiguration);
      this.charts := charts;
    }

    /**
     * call: IllegalArgumentException for a null path; otherwise the document
     * is built into a fresh main document part and true is returned, unless
     * building raised.
     */
    method Call() returns (r: Result<bool>)
      ensures path.None? ==> r == Fail(IllegalArgument("Path cannot be null."))
      ensures path.Some? && AsWrittenDocument(chartConfiguration, charts).thrown.None? ==> r == Ok(true)
      ensures path.Some? && AsWrittenDocument(chartConfiguration, charts).thrown.Some? ==>
                r == Fail(AsWrittenDocument(chartConfiguration, charts).thrown.value)
    {
      if path.None? {
        return Fail(IllegalArgument("Path cannot be null."));
      }
      var mdp := new MainDocumentPart();
      var thrown := BuildDocument(mdp);
      if thrown.Some? {
        return Fail(thrown.value);
      }
      return Ok(true);
    }

    /** buildDocument: appends AsWrittenDocument's parts to the document and raises what it raises. */
    method BuildDocument(mdp: MainDocumentPart) returns (thrown: Option<Fault>)
      modifies mdp
      ensures mdp.content == old(mdp.content) + AsWrittenDocument(chartConfiguration, charts).parts
      ensures thrown == AsWrittenDocument(chartConfiguration, charts).thrown
    {
      if charts.None? || |charts.value| == 0 {
        return None;
      }
      var cfg := chartConfiguration;
      if !cfg.omitAbbreviatedConjugation && !cfg.omitToc {
        mdp.content := mdp.content + [TableOfContents];
      }
      ghost var c0 := mdp.content;
      assert c0 == old(mdp.content) + TableOfContentsParts(cfg);
      ghost var chartsBuild := Sequence(Steps(AsWrittenChartStep, cfg, charts.value));
      assert AsWrittenDocument(cfg, charts) == Then(Build(TableOfContentsParts(cfg), None), chartsBuild);
      thrown := AddCharts(mdp, charts.value);
      AppendAssoc(old(mdp.content), TableOfContentsParts(cfg), chartsBuild.parts);
    }

    /** The loop of buildDocument: buildMorphologicalChart for each chart in order, stopping at the first exception. */
    method AddCharts(mdp: MainDocumentPart, charts: seq<Option<MorphologicalChart>>) returns (thrown: Option<Fault>)
      modifies mdp
      ensures mdp.content == old(mdp.content) + Sequence(Steps(AsWrittenChartStep, chartConfiguration, charts)).parts
      ensures thrown == Sequence(Steps(AsWrittenChartStep, chartConfiguration, charts)).thrown
    {
      ghost var steps := Steps(AsWrittenChartStep, chartConfiguration, charts);
      var i := 0;
      while i < |charts|
        invariant 0 <= i <= |charts|
        invariant Sequence(steps[..i]).thrown.None?
        invariant mdp.content == old(mdp.content) + Sequence(steps[..i]).parts
      {
        thrown := BuildMorphologicalChart(mdp, charts[i]);
        assert steps[i] == AsWrittenChartStep(chartConfiguration, charts[i]);
        SequenceStep(steps, i, old(mdp.content));
        if thrown.Some? {
          return;
        }
        i := i + 1;
      }
      assert steps[..i] == steps;
      return None;
    }

    /**
     * buildMorphologicalChart: the abbreviated table unless null or omitted,
     * then a detailed adapter over the one detailed conjugation, null or not.
     */
    method BuildMorphologicalChart(mdp: MainDocumentPart, chart: Option<MorphologicalChart>) returns (thrown: Option<Fault>)
      modifies mdp
      ensures mdp.content == old(mdp.content) + AsWrittenChartStep(chartConfiguration, chart).parts
      ensures thrown == AsWrittenChartStep(chartConfiguration, chart).thrown
    {
      if chart.None? {
        return Some(NullPointer);
      }
      var mc := chart.value;
      var abbreviatedConjugation := mc.abbreviatedConjugation;
      var omitAbbreviatedConjugation := abbreviatedConjugation.None? || chartConfiguration.omitAbbreviatedConjugation;
      if !omitAbbreviatedConjugation {
        var aca := new Abbreviated.AbbreviatedConjugationAdapter(Some(chartConfiguration), Some([abbreviatedConjugation]));
        thrown := aca.BuildDocument(mdp);
        if thrown.Some? {
          return;
        }
      }
      ghost var c1 := mdp.content;
      var detailedConjugation := mc.detailedConjugation;
      var dca := new Detailed.DetailedConjugationAdapter(Some([detailedConjugation]));
      thrown := dca.BuildDocument(mdp);
      assert mdp.content == c1 + Detailed.DetailedDocumentParts([], [detailedConjugation]).parts;
    }
  }
}
