/**
 * The dataset object: its metadata and its train and test instances, filled in
 * place by the two loaders, which read a file line by line, and written out by ToText.
 */
module Datasets {
  import opened Results
  import opened TextUtil
  import opened Tokenizer
  import opened LineReader
  import opened Schema
  import opened Loader
  import opened LoaderProperties
  import opened Render

  /** Fills an n-value feature vector with tokens[0..n) converted through features[0..n). */
  method ConvertFeatures(features: seq<Feature>, tokens: seq<string>, n: nat, conv: Converter) returns (v: seq<real>)
    requires n <= |features| && n <= |tokens|
    ensures |v| == n
    ensures forall j :: 0 <= j < n ==> v[j] == conv(features[j], tokens[j])
  {
    var vec := new real[n];
    for i := 0 to n
      invariant forall j :: 0 <= j < i ==> vec[j] == conv(features[j], tokens[j])
    {
      vec[i] := conv(features[i], tokens[i]);
    }
    v := vec[..];
  }

  /** Reads one data row: its first numOfFeatures tokens are the features, the next one the class. */
  method ReadRow(md: Metadata, k: nat, tokens: seq<string>, conv: Converter) returns (r: Result<Instance, LoadError>)
    requires md.numOfFeatures <= |md.featureList|
    ensures r == DataRow(md, k, tokens, conv)
  {
    var n := md.numOfFeatures;
    if md.classVariable.None? {
      return Failure(NoClassAttribute(k));
    }
    if |tokens| <= n {
      return Failure(MalformedRow(k));
    }
    var vec := ConvertFeatures(md.featureList, tokens, n, conv);
    var classInternal := conv(md.classVariable.value, tokens[n]);
    assert vec == seq(n, j requires 0 <= j < n => conv(md.featureList[j], tokens[j]));
    return Success(Instance(vec, classInternal));
  }

  class Dataset {
    var metadata: Metadata
    var trainSet: seq<Instance>
    var testSet: seq<Instance>

    constructor ()
      ensures metadata == EmptyMetadata && trainSet == [] && testSet == []
    {
      metadata := EmptyMetadata;
      trainSet := [];
      testSet := [];
    }

    function Snapshot(): Contents
      reads this
    {
      Contents(metadata, trainSet, testSet)
    }

    /** Loads a train file, given as its text or as None when it cannot be opened. */
    static method LoadDataset(trainFile: Option<string>, conv: Converter) returns (r: Result<Dataset, LoadError>)
      ensures r.Success? <==> LoadTrain(trainFile, conv).Success?
      ensures r.Success? ==> fresh(r.value) && r.value.Snapshot() == LoadTrain(trainFile, conv).value
      ensures r.Failure? ==> r.error == LoadTrain(trainFile, conv).error
    {
      if trainFile.None? {
        return Failure(CannotOpen);
      }
      var lines := ReadLines(trainFile.value);
      var dataset := new Dataset();
      var numOfFeatures := 0;
      var header := true;
      var k := 0;
      while k < |lines|
        invariant k <= |lines|
        invariant fresh(dataset)
        invariant TrainRun(lines[..k], conv) == Success(Reading(dataset.metadata, header, dataset.trainSet))
        invariant numOfFeatures == |dataset.metadata.featureList|
        invariant dataset.testSet == []
      {
        assert lines[..k + 1] == lines[..k] + [lines[k]];
        TrainRunStep(lines[..k], lines[k], conv);
        var line := RemoveComment(lines[k]);
        if line == [] {
          k := k + 1;
          continue;
        }
        var tokens := Tokenize(line);
        if header {
          if |tokens| == 0 {
            FirstErrorDecides(lines, k + 1, conv);
            return Failure(NoDirective(k));
          }
          var lineType := ToLower(tokens[0]);
          if lineType == "@relation" {
            if |tokens| < 2 {
              FirstErrorDecides(lines, k + 1, conv);
              return Failure(MissingField(k));
            }
            dataset.metadata := dataset.metadata.(name := tokens[1]);
          } else if lineType == "@attribute" {
            if |tokens| < 3 {
              FirstErrorDecides(lines, k + 1, conv);
              return Failure(MissingField(k));
            }
            var featureName := tokens[1];
            var featureType := ToLower(tokens[2]);
            if ToLower(featureName) == "class" {
              var vals := tokens[2..];
              dataset.metadata := dataset.metadata.(classVariable := Some(Nominal(ClassIndex, featureName, vals)));
            } else if featureType == "numeric" || featureType == "integer" || featureType == "real" {
              var f := Numeric(numOfFeatures, featureName);
              numOfFeatures := numOfFeatures + 1;
              dataset.metadata := dataset.metadata.(featureList := dataset.metadata.featureList + [f]);
            } else {
              var vals := tokens[2..];
              var f := Nominal(numOfFeatures, featureName, vals);
              numOfFeatures := numOfFeatures + 1;
              dataset.metadata := dataset.metadata.(featureList := dataset.metadata.featureList + [f]);
            }
          } else if lineType == "@data" {
            header := false;
            if dataset.metadata.classVariable.None? {
              FirstErrorDecides(lines, k + 1, conv);
              return Failure(NoClassAttribute(k));
            }
            // the class feature, when declared, is always nominal
            var domain := dataset.metadata.classVariable.value.domain;
            dataset.metadata := dataset.metadata.(numOfClasses := |domain|, numOfFeatures := numOfFeatures);
          }
        } else {
          // numOfFeatures, the counter, is the frozen metadata.numOfFeatures here
          var row := ReadRow(dataset.metadata, k, tokens, conv);
          if row.Failure? {
            FirstErrorDecides(lines, k + 1, conv);
            return Failure(row.error);
          }
          dataset.trainSet := dataset.trainSet + [row.value];
        }
        k := k + 1;
      }
      assert lines[..k] == lines;
      return Success(dataset);
    }

    /**
     * Loads a train file and then a test file with the train file's schema. A test
     * file that cannot be opened leaves the train-only dataset.
     */
    static method LoadDatasetWithTest(trainFile: Option<string>, testFile: Option<string>, conv: Converter)
      returns (r: Result<Dataset, LoadError>)
      ensures r.Success? <==> LoadTrainTest(trainFile, testFile, conv).Success?
      ensures r.Success? ==> fresh(r.value) && r.value.Snapshot() == LoadTrainTest(trainFile, testFile, conv).value
      ensures r.Failure? ==> r.error == LoadTrainTest(trainFile, testFile, conv).error
    {
      r := LoadDataset(trainFile, conv);
      if r.Failure? || testFile.None? {
        return;
      }
      var dataset := r.value;
      var lines := ReadLines(testFile.value);
      var md := dataset.metadata;
      var header := true;
      var k := 0;
      while k < |lines|
        invariant k <= |lines|
        invariant dataset.metadata == md && dataset.Snapshot().trainSet == LoadTrain(trainFile, conv).value.trainSet
        invariant TestRun(md, lines[..k], conv) == Success(Scanning(header, dataset.testSet))
      {
        assert lines[..k + 1] == lines[..k] + [lines[k]];
        TestRunStep(md, lines[..k], lines[k], conv);
        var line := RemoveComment(lines[k]);
        if line == [] {
          k := k + 1;
          continue;
        }
        var tokens := Tokenize(line);
        if header {
          if |tokens| == 0 {
            TestFirstErrorDecides(md, lines, k + 1, conv);
            return Failure(NoDirective(k));
          }
          var lineType := ToLower(tokens[0]);
          if lineType == "@data" {
            header := false;
          }
        } else {
          var row := ReadRow(md, k, tokens, conv);
          if row.Failure? {
            TestFirstErrorDecides(md, lines, k + 1, conv);
            return Failure(row.error);
          }
          dataset.testSet := dataset.testSet + [row.value];
        }
        k := k + 1;
      }
      assert lines[..k] == lines;
      return Success(dataset);
    }

    /** The text form of the dataset; None when there is no class feature to write. */
    method ToText(featureText: Feature -> string, instanceText: (Instance, Metadata) -> string)
      returns (r: Option<string>)
      requires metadata.numOfFeatures <= |metadata.featureList|
      ensures r == match Layout(Snapshot(), featureText, instanceText)
                   case None => None
                   case Some(ls) => Some(Joined(ls, "\n"))
    {
      var md := metadata;
      var n := md.numOfFeatures;
      var written := ["@relation " + md.name];
      var ss := Joined(written, "\n");
      for i := 0 to n
        invariant written == ["@relation " + md.name] + FeatureLines(md.featureList[..i], featureText)
        invariant ss == Joined(written, "\n")
      {
        JoinedAppend(written, featureText(md.featureList[i]), "\n");
        ss := ss + featureText(md.featureList[i]) + "\n";
        written := written + [featureText(md.featureList[i])];
        assert md.featureList[..i + 1] == md.featureList[..i] + [md.featureList[i]];
      }
      if md.classVariable.None? {
        return None;
      }
      ghost var header := written;
      var fixed := [featureText(md.classVariable.value), "@data", TrainingMarker];
      for j := 0 to 3
        invariant written == header + fixed[..j]
        invariant ss == Joined(written, "\n")
      {
        JoinedAppend(written, fixed[j], "\n");
        ss := ss + fixed[j] + "\n";
        written := written + [fixed[j]];
        assert fixed[..j + 1] == fixed[..j] + [fixed[j]];
      }
      assert fixed[..3] == fixed;
      ghost var beforeTrain := written;
      for i := 0 to |trainSet|
        invariant written == beforeTrain + InstanceLines(trainSet[..i], md, instanceText)
        invariant ss == Joined(written, "\n")
      {
        JoinedAppend(written, instanceText(trainSet[i], md), "\n");
        ss := ss + instanceText(trainSet[i], md) + "\n";
        written := written + [instanceText(trainSet[i], md)];
        assert trainSet[..i + 1] == trainSet[..i] + [trainSet[i]];
      }
      assert trainSet[..|trainSet|] == trainSet;
      JoinedAppend(written, TestingMarker, "\n");
      ss := ss + TestingMarker + "\n";
      written := written + [TestingMarker];
      ghost var beforeTest := written;
      for i := 0 to |testSet|
        invariant written == beforeTest + InstanceLines(testSet[..i], md, instanceText)
        invariant ss == Joined(written, "\n")
      {
        JoinedAppend(written, instanceText(testSet[i], md), "\n");
        ss := ss + instanceText(testSet[i], md) + "\n";
        written := written + [instanceText(testSet[i], md)];
        assert testSet[..i + 1] == testSet[..i] + [testSet[i]];
      }
      assert testSet[..|testSet|] == testSet;
      assert written == Layout(Snapshot(), featureText, instanceText).value;
      return Some(ss);
    }
  }
}
