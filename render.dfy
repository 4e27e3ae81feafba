/**
 * The text form of a dataset: the relation line, one line per feature, the class
 * feature, `@data`, then the training rows under a `%Training` marker and the test
 * rows under a `%Testing` marker. How one feature or one row is written is a
 * parameter (the features' and instances' own `toString`).
 */
module Render {
  import opened Results
  import opened TextUtil
  import opened LineReader
  import opened Schema

  function FeatureLines(fs: seq<Feature>, featureText: Feature -> string): seq<string>
  {
    seq(|fs|, i requires 0 <= i < |fs| => featureText(fs[i]))
  }

  function InstanceLines(rows: seq<Instance>, md: Metadata, instanceText: (Instance, Metadata) -> string): seq<string>
  {
    seq(|rows|, i requires 0 <= i < |rows| => instanceText(rows[i], md))
  }

  const TrainingMarker := "%Training"
  const TestingMarker := "%Testing"

  /** The lines of the text form; none when there is no class feature to write. */
  function Layout(c: Contents, featureText: Feature -> string, instanceText: (Instance, Metadata) -> string)
    : Option<seq<string>>
    requires c.metadata.numOfFeatures <= |c.metadata.featureList|
  {
    var md := c.metadata;
    match md.classVariable
    case None => None
    case Some(cls) =>
      Some(["@relation " + md.name] + FeatureLines(md.featureList[..md.numOfFeatures], featureText) +
           [featureText(cls), "@data", TrainingMarker] + InstanceLines(c.trainSet, md, instanceText) +
           [TestingMarker] + InstanceLines(c.testSet, md, instanceText))
  }

  lemma {:induction false} JoinedAppend(ls: seq<string>, l: string, eol: string)
    ensures Joined(ls + [l], eol) == Joined(ls, eol) + l + eol
    decreases |ls|
  {
    if ls == [] {
      assert [] + [l] == [l];
      assert Joined([l], eol) == l + eol + Joined([], eol);
    } else {
      assert (ls + [l])[0] == ls[0] && (ls + [l])[1..] == ls[1..] + [l];
      JoinedAppend(ls[1..], l, eol);
    }
  }

  predicate AllWithoutLineEnds(ls: seq<string>) { forall i :: 0 <= i < |ls| ==> NoLineEnds(ls[i]) }

  /**
   * The text form has numOfFeatures + |trainSet| + |testSet| + 5 lines: the relation
   * line, the features, the class feature and `@data` in this order, the training rows
   * after the `%Training` marker and the test rows after the `%Testing` marker.
   */
  lemma LayoutShape(c: Contents, featureText: Feature -> string, instanceText: (Instance, Metadata) -> string)
    requires c.metadata.numOfFeatures <= |c.metadata.featureList| && c.metadata.classVariable.Some?
    ensures var ls := Layout(c, featureText, instanceText).value;
            var md, n, tr := c.metadata, c.metadata.numOfFeatures, |c.trainSet|;
            |ls| == n + tr + |c.testSet| + 5 &&
            ls[0] == "@relation " + md.name &&
            (forall i :: 0 <= i < n ==> ls[1 + i] == featureText(md.featureList[i])) &&
            ls[n + 1] == featureText(md.classVariable.value) && ls[n + 2] == "@data" &&
            ls[n + 3] == TrainingMarker &&
            (forall i :: 0 <= i < tr ==> ls[n + 4 + i] == instanceText(c.trainSet[i], md)) &&
            ls[n + 4 + tr] == TestingMarker &&
            (forall i :: 0 <= i < |c.testSet| ==> ls[n + 5 + tr + i] == instanceText(c.testSet[i], md))
  {
  }

  /** The section markers are comments, so reading the text form again skips them. */
  lemma MarkersAreComments()
    ensures RemoveComment(TrainingMarker) == [] && RemoveComment(TestingMarker) == []
  {
    CommentLineIsEmpty(TrainingMarker);
    CommentLineIsEmpty(TestingMarker);
  }

  /**
   * When neither the relation name nor any feature or row text contains a line end,
   * reading the text form back line by line gives exactly the lines written.
   */
  lemma TextReadsBack(c: Contents, featureText: Feature -> string, instanceText: (Instance, Metadata) -> string)
    requires c.metadata.numOfFeatures <= |c.metadata.featureList| && c.metadata.classVariable.Some?
    requires NoLineEnds(c.metadata.name)
    requires forall f :: NoLineEnds(featureText(f))
    requires forall row, md :: NoLineEnds(instanceText(row, md))
    ensures Lines(Joined(Layout(c, featureText, instanceText).value, "\n")) == Layout(c, featureText, instanceText).value
  {
    var ls := Layout(c, featureText, instanceText).value;
    LayoutShape(c, featureText, instanceText);
    var n, tr := c.metadata.numOfFeatures, |c.trainSet|;
    assert NoLineEnds("@relation ");
    assert NoLineEnds(ls[0]);
    assert NoLineEnds(TrainingMarker) && NoLineEnds(TestingMarker) && NoLineEnds("@data");
    forall i | 0 <= i < |ls|
      ensures NoLineEnds(ls[i])
    {
      if 1 <= i <= n {
        assert ls[1 + (i - 1)] == featureText(c.metadata.featureList[i - 1]);
      } else if n + 4 <= i < n + 4 + tr {
        assert ls[n + 4 + (i - n - 4)] == instanceText(c.trainSet[i - n - 4], c.metadata);
      } else if n + 5 + tr <= i {
        assert ls[n + 5 + tr + (i - n - 5 - tr)] == instanceText(c.testSet[i - n - 5 - tr], c.metadata);
      }
    }
    LinesRoundTrip(ls, "\n");
  }
}
