/**
 * The main document part the charts are added to, and the bookkeeping of a
 * document build that stops at the first exception.
 */
module Documents {
  import opened Wrappers
  import opened Conjugation
  import opened Table

  /** What the chart code adds to a document: a table of contents or a chart table. */
  datatype Part = TableOfContents | AbbreviatedTable(rows: seq<Row>) | DetailedTable(rows: seq<Row>)

  /** MainDocumentPart: its content list, appended to in place. */
  class MainDocumentPart {
    var content: seq<Part>

    constructor ()
      ensures content == []
    {
      content := [];
    }
  }

  /** The parts a build step adds, and the exception that ended it, if one did. */
  datatype Build = Build(parts: seq<Part>, thrown: Option<Fault>)

  /** A step that adds nothing and raises nothing. */
  const Nothing := Build([], None)

  /** Run `first`, then `next` only if `first` raised nothing. */
  function Then(first: Build, next: Build): (b: Build)
    ensures first.thrown.Some? ==> b == first
    ensures first.thrown.None? ==> b.parts == first.parts + next.parts && b.thrown == next.thrown
  {
    if first.thrown.Some? then first else Build(first.parts + next.parts, next.thrown)
  }

  /** Run the steps in order, stopping at the first that raises. */
  function Sequence(steps: seq<Build>): Build {
    if steps == [] then Nothing else Then(Sequence(steps[..|steps| - 1]), steps[|steps| - 1])
  }

  /** The build step of each chart, in chart order. */
  function Steps(step: (ChartConfiguration, Option<MorphologicalChart>) -> Build, cfg: ChartConfiguration,
                 charts: seq<Option<MorphologicalChart>>): (steps: seq<Build>)
    ensures |steps| == |charts|
    ensures forall i :: 0 <= i < |charts| ==> steps[i] == step(cfg, charts[i])
  {
    seq(|charts|, i requires 0 <= i < |charts| => step(cfg, charts[i]))
  }

  /** `addTableOfContent` runs iff neither the abbreviated chart nor the TOC is omitted. */
  function TableOfContentsParts(cfg: ChartConfiguration): (parts: seq<Part>)
    ensures |parts| <= 1
    ensures TableOfContents in parts <==> !cfg.omitAbbreviatedConjugation && !cfg.omitToc
  {
    if !cfg.omitAbbreviatedConjugation && !cfg.omitToc then [TableOfContents] else []
  }

  /** Chart steps never add a table of contents, so neither does their sequence. */
  lemma {:induction false} SequenceAddsNoToc(steps: seq<Build>)
    requires forall i :: 0 <= i < |steps| ==> TableOfContents !in steps[i].parts
    ensures TableOfContents !in Sequence(steps).parts
  {
    if steps != [] {
      SequenceAddsNoToc(steps[..|steps| - 1]);
    }
  }

  /**
   * When every step adds two parts and raises nothing, the sequence raises
   * nothing and lays the steps' parts side by side in step order.
   */
  lemma {:induction false} SequenceOfPairs(steps: seq<Build>)
    requires forall i :: 0 <= i < |steps| ==> steps[i].thrown.None? && |steps[i].parts| == 2
    ensures Sequence(steps).thrown.None?
    ensures |Sequence(steps).parts| == 2 * |steps|
    ensures forall i :: 0 <= i < |steps| ==>
      Sequence(steps).parts[2 * i] == steps[i].parts[0] && Sequence(steps).parts[2 * i + 1] == steps[i].parts[1]
  {
    if steps != [] {
      var init := steps[..|steps| - 1];
      SequenceOfPairs(init);
      var s := Sequence(steps);
      assert s.parts == Sequence(init).parts + steps[|steps| - 1].parts;
      forall i | 0 <= i < |steps|
        ensures s.parts[2 * i] == steps[i].parts[0] && s.parts[2 * i + 1] == steps[i].parts[1]
      {
        if i < |steps| - 1 {
          assert init[i] == steps[i];
        }
      }
    }
  }

  /** Running one more step extends the sequence by that step. */
  lemma SequenceSnoc(steps: seq<Build>, i: nat)
    requires i < |steps|
    ensures Sequence(steps[..i + 1]) == Then(Sequence(steps[..i]), steps[i])
  {
    assert steps[..i + 1][..i] == steps[..i];
  }

  /** Once a prefix of the steps has raised, the later steps change nothing. */
  lemma {:induction false} SequenceStops(steps: seq<Build>, k: nat)
    requires k <= |steps| && Sequence(steps[..k]).thrown.Some?
    ensures Sequence(steps) == Sequence(steps[..k])
    decreases |steps|
  {
    if k < |steps| {
      var init := steps[..|steps| - 1];
      assert init[..k] == steps[..k];
      SequenceStops(init, k);
    } else {
      assert steps[..k] == steps;
    }
  }

  /**
   * One iteration of a build loop: after the parts built so far, step `i`
   * adds its parts and raises what it raises; if it raises, the remaining
   * steps change nothing.
   */
  lemma SequenceStep(steps: seq<Build>, i: nat, prior: seq<Part>)
    requires i < |steps| && Sequence(steps[..i]).thrown.None?
    ensures Sequence(steps[..i + 1]).thrown == steps[i].thrown
    ensures prior + Sequence(steps[..i]).parts + steps[i].parts == prior + Sequence(steps[..i + 1]).parts
    ensures steps[i].thrown.Some? ==> Sequence(steps) == Sequence(steps[..i + 1])
  {
    SequenceSnoc(steps, i);
    AppendAssoc(prior, Sequence(steps[..i]).parts, steps[i].parts);
    if steps[i].thrown.Some? {
      SequenceStops(steps, i + 1);
    }
  }

  /**
   * Steps that differ from corrected ones only by raising where the
   * corrected step does not, with the same parts: their sequence adds a
   * prefix of the corrected parts, and is the corrected sequence whenever it
   * raises nothing.
   */
  lemma {:induction false} SequenceOfCorrections(written: seq<Build>, corrected: seq<Build>)
    requires |written| == |corrected|
    requires forall i :: 0 <= i < |written| ==>
      written[i].parts == corrected[i].parts && (written[i] != corrected[i] ==> written[i].thrown.Some?)
    ensures Sequence(written).parts <= Sequence(corrected).parts
    ensures Sequence(written).thrown.None? ==> Sequence(written) == Sequence(corrected)
  {
    if written != [] {
      var n := |written| - 1;
      SequenceOfCorrections(written[..n], corrected[..n]);
      var w, c := Sequence(written[..n]), Sequence(corrected[..n]);
      assert Sequence(written) == Then(w, written[n]);
      assert Sequence(corrected) == Then(c, corrected[n]);
      if w.thrown.None? {
        assert w == c;
      }
    }
  }
}
