/**
 * Properties of the dataset reader. The reader is related to a declarative
 * description of a file: the attribute lines before the first `@data` line give the
 * features, in order, and the last `class` attribute among them gives the class
 * feature; every non-empty line after it is one row.
 */
module LoaderProperties {
  import opened Results
  import opened TextUtil
  import opened Tokenizer
  import opened LineReader
  import opened Schema
  import opened Loader

  /** The tokens of a raw line once its comment is cut. */
  function LineTokens(l: string): seq<string> { Tokens(RemoveComment(l)) }

  predicate IsDataDirective(l: string)
  {
    var t := LineTokens(l); t != [] && ToLower(t[0]) == "@data"
  }

  predicate IsAttribute(l: string)
  {
    var t := LineTokens(l); |t| >= 3 && ToLower(t[0]) == "@attribute"
  }

  predicate HasDataLine(ls: seq<string>)
  {
    exists i :: 0 <= i < |ls| && IsDataDirective(ls[i])
  }

  /** The feature an ordinary attribute line declares, given its position among the features. */
  function FeatureOf(l: string, index: nat): Feature
    requires IsAttribute(l)
  {
    var t := LineTokens(l);
    if IsNumericType(ToLower(t[2])) then Numeric(index, t[1]) else Nominal(index, t[1], t[2..])
  }

  /** The ordinary features declared before the first `@data` line, indexed in declaration order. */
  function DeclaredFeatures(ls: seq<string>): seq<Feature>
    decreases |ls|
  {
    if ls == [] then []
    else
      var init, last := ls[..|ls| - 1], ls[|ls| - 1];
      if !HasDataLine(init) && IsAttribute(last) && !IsClassName(LineTokens(last)[1]) then
        DeclaredFeatures(init) + [FeatureOf(last, |DeclaredFeatures(init)|)]
      else DeclaredFeatures(init)
  }

  /** The declared features are numbered 0, 1, 2, ... in declaration order; the class is not among them. */
  lemma {:induction false} DeclaredFeaturesIndexed(ls: seq<string>)
    ensures forall i :: 0 <= i < |DeclaredFeatures(ls)| ==>
              DeclaredFeatures(ls)[i].index == i && !IsClassName(DeclaredFeatures(ls)[i].name)
    decreases |ls|
  {
    if ls != [] {
      DeclaredFeaturesIndexed(ls[..|ls| - 1]);
    }
  }

  /** The last class attribute declared before the first `@data` line. */
  function DeclaredClass(ls: seq<string>): Option<Feature>
    decreases |ls|
  {
    if ls == [] then None
    else
      var init, last := ls[..|ls| - 1], ls[|ls| - 1];
      if !HasDataLine(init) && IsAttribute(last) && IsClassName(LineTokens(last)[1]) then
        Some(Nominal(ClassIndex, LineTokens(last)[1], LineTokens(last)[2..]))
      else DeclaredClass(init)
  }

  /** The lines after the first `@data` line that are not empty once the comment is cut. */
  function RowLines(ls: seq<string>): seq<string>
    decreases |ls|
  {
    if ls == [] then []
    else
      var init, last := ls[..|ls| - 1], ls[|ls| - 1];
      if HasDataLine(init) && RemoveComment(last) != [] then RowLines(init) + [last] else RowLines(init)
  }

  /** Row `rows[i]` was read, with metadata `md`, into instance `insts[i]`. */
  predicate RowsRead(md: Metadata, rows: seq<string>, insts: seq<Instance>, conv: Converter)
    requires md.numOfFeatures <= |md.featureList|
  {
    |insts| == |rows| &&
    forall i :: 0 <= i < |rows| ==> DataRow(md, 0, LineTokens(rows[i]), conv) == Success(insts[i])
  }

  lemma HasDataLineAppend(ls: seq<string>, l: string)
    ensures HasDataLine(ls + [l]) <==> HasDataLine(ls) || IsDataDirective(l)
  {
    var ls' := ls + [l];
    if HasDataLine(ls) {
      var i :| 0 <= i < |ls| && IsDataDirective(ls[i]);
      assert ls'[i] == ls[i];
    }
    if IsDataDirective(l) {
      assert ls'[|ls|] == l;
    }
    if HasDataLine(ls') {
      var i :| 0 <= i < |ls'| && IsDataDirective(ls'[i]);
      if i < |ls| {
        assert ls'[i] == ls[i];
      }
    }
  }

  /** Before any `@data` line no line is a row. */
  lemma {:induction false} NoRowsBeforeData(ls: seq<string>)
    requires !HasDataLine(ls)
    ensures RowLines(ls) == []
    decreases |ls|
  {
    if ls != [] {
      var init := ls[..|ls| - 1];
      HasDataLineAppend(init, ls[|ls| - 1]);
      assert init + [ls[|ls| - 1]] == ls;
      NoRowsBeforeData(init);
    }
  }

  lemma TrainRunStep(ls: seq<string>, l: string, conv: Converter)
    ensures TrainRun(ls + [l], conv) ==
            match TrainRun(ls, conv)
            case Failure(e) => Failure(e)
            case Success(st) => TrainLine(st, |ls|, l, conv)
  {
    assert (ls + [l])[..|ls|] == ls;
  }

  /** Once a line fails, the reader's result is that failure, whatever follows. */
  lemma {:induction false} FirstErrorDecides(ls: seq<string>, k: nat, conv: Converter)
    requires k <= |ls| && TrainRun(ls[..k], conv).Failure?
    ensures TrainRun(ls, conv) == TrainRun(ls[..k], conv)
    decreases |ls|
  {
    if k == |ls| {
      assert ls[..k] == ls;
    } else {
      var init := ls[..|ls| - 1];
      assert init[..k] == ls[..k];
      FirstErrorDecides(init, k, conv);
    }
  }

  /** A line that is empty once its comment is cut changes nothing. */
  lemma SkippedLine(ls: seq<string>, l: string, conv: Converter)
    requires RemoveComment(l) == []
    ensures TrainRun(ls + [l], conv) == TrainRun(ls, conv)
  {
    TrainRunStep(ls, l, conv);
  }

  /** In the header, a line whose first token is none of the three directives changes nothing. */
  lemma IgnoredHeaderLine(ls: seq<string>, l: string, conv: Converter)
    requires TrainRun(ls, conv).Success? && TrainRun(ls, conv).value.header
    requires LineTokens(l) != []
    requires ToLower(LineTokens(l)[0]) != "@relation" && ToLower(LineTokens(l)[0]) != "@attribute"
    requires ToLower(LineTokens(l)[0]) != "@data"
    ensures TrainRun(ls + [l], conv) == TrainRun(ls, conv)
  {
    TrainRunStep(ls, l, conv);
  }

  /** `@relation` names the dataset; without a second token the line is an error. */
  lemma RelationLine(ls: seq<string>, l: string, conv: Converter)
    requires TrainRun(ls, conv).Success? && TrainRun(ls, conv).value.header
    requires LineTokens(l) != [] && ToLower(LineTokens(l)[0]) == "@relation"
    ensures |LineTokens(l)| < 2 ==> TrainRun(ls + [l], conv) == Failure(MissingField(|ls|))
    ensures |LineTokens(l)| >= 2 ==>
              var st := TrainRun(ls, conv).value;
              TrainRun(ls + [l], conv) == Success(st.(metadata := st.metadata.(name := LineTokens(l)[1])))
  {
    TrainRunStep(ls, l, conv);
  }

  /** `@attribute` needs a name and a type: with fewer than three tokens the line is an error. */
  lemma ShortAttributeLine(ls: seq<string>, l: string, conv: Converter)
    requires TrainRun(ls, conv).Success? && TrainRun(ls, conv).value.header
    requires LineTokens(l) != [] && ToLower(LineTokens(l)[0]) == "@attribute" && |LineTokens(l)| < 3
    ensures TrainRun(ls + [l], conv) == Failure(MissingField(|ls|))
  {
    TrainRunStep(ls, l, conv);
  }

  /** In the header, a line that is not empty but has no token fails with NoDirective. */
  lemma TokenlessHeaderLine(ls: seq<string>, l: string, conv: Converter)
    requires TrainRun(ls, conv).Success? && TrainRun(ls, conv).value.header
    requires RemoveComment(l) != [] && LineTokens(l) == []
    ensures TrainRun(ls + [l], conv) == Failure(NoDirective(|ls|))
  {
    TrainRunStep(ls, l, conv);
  }

  /** An indented comment is such a line: only the spaces before the `%` are left, and they are no token. */
  lemma IndentedComment(l: string)
    requires l == "  % note"
    ensures RemoveComment(l) == "  " && LineTokens(l) == []
  {
    assert l[..2] == "  " && l[2] == '%';
    assert CommentStart(l) == 2;
    ScanDelimiter([], ' ', [' ']);
    ScanDelimiter([], ' ', []);
    assert "  " == [' '] + [' '] && [' '] == [' '] + [];
  }

  /** `@data` without a declared class feature is an error. */
  lemma DataWithoutClass(ls: seq<string>, l: string, conv: Converter)
    requires TrainRun(ls, conv).Success? && TrainRun(ls, conv).value.header
    requires TrainRun(ls, conv).value.metadata.classVariable.None?
    requires IsDataDirective(l)
    ensures TrainRun(ls + [l], conv) == Failure(NoClassAttribute(|ls|))
  {
    TrainRunStep(ls, l, conv);
  }

  /** After `@data`, a row with at most numOfFeatures tokens is an error. */
  lemma ShortRow(ls: seq<string>, l: string, conv: Converter)
    requires TrainRun(ls, conv).Success? && !TrainRun(ls, conv).value.header
    requires RemoveComment(l) != [] && |LineTokens(l)| <= TrainRun(ls, conv).value.metadata.numOfFeatures
    ensures TrainRun(ls + [l], conv) == Failure(MalformedRow(|ls|))
  {
    TrainRunStep(ls, l, conv);
  }

  /** One line of the induction below, for a line read in the header. */
  lemma HeaderStepShape(ls: seq<string>, l: string, conv: Converter)
    requires TrainRun(ls, conv).Success? && TrainRun(ls, conv).value.header && !HasDataLine(ls)
    requires RemoveComment(l) != []
    requires TrainRun(ls + [l], conv).Success?
    ensures var st, st' := TrainRun(ls, conv).value, TrainRun(ls + [l], conv).value;
            var t := LineTokens(l);
            (st'.header <==> !IsDataDirective(l)) &&
            st'.instances == [] &&
            st'.metadata.featureList ==
              (if IsAttribute(l) && !IsClassName(t[1]) then
                 st.metadata.featureList + [FeatureOf(l, |st.metadata.featureList|)]
               else st.metadata.featureList) &&
            st'.metadata.classVariable ==
              (if IsAttribute(l) && IsClassName(t[1]) then Some(Nominal(ClassIndex, t[1], t[2..]))
               else st.metadata.classVariable)
  {
    TrainRunStep(ls, l, conv);
  }

  /** One line of the induction below, for a line read after `@data`. */
  lemma DataStepShape(ls: seq<string>, l: string, conv: Converter)
    requires TrainRun(ls, conv).Success? && !TrainRun(ls, conv).value.header
    requires RemoveComment(l) != []
    requires TrainRun(ls + [l], conv).Success?
    ensures var st, st' := TrainRun(ls, conv).value, TrainRun(ls + [l], conv).value;
            !st'.header && st'.metadata == st.metadata &&
            st'.instances == st.instances + [DataRow(st.metadata, 0, LineTokens(l), conv).value] &&
            DataRow(st.metadata, 0, LineTokens(l), conv).Success?
  {
    TrainRunStep(ls, l, conv);
  }

  /**
   * What the train-file reader builds: it stays in the header exactly until the first
   * `@data` line; its features are the ordinary attributes declared before that line,
   * in order and indexed by position; its class feature is the last class attribute
   * among them; and its instances are the rows after that line, one per row, in order.
   */
  lemma {:induction false} TrainRunShape(ls: seq<string>, conv: Converter)
    requires TrainRun(ls, conv).Success?
    ensures var st := TrainRun(ls, conv).value;
            (st.header <==> !HasDataLine(ls)) &&
            st.metadata.featureList == DeclaredFeatures(ls) &&
            st.metadata.classVariable == DeclaredClass(ls) &&
            RowsRead(st.metadata, RowLines(ls), st.instances, conv)
    decreases |ls|
  {
    if ls != [] {
      var init, last := ls[..|ls| - 1], ls[|ls| - 1];
      assert init + [last] == ls;
      TrainRunStep(init, last, conv);
      HasDataLineAppend(init, last);
      TrainRunShape(init, conv);
      var st := TrainRun(init, conv).value;
      if RemoveComment(last) == [] {
        assert LineTokens(last) == [];
      } else if st.header {
        HeaderStepShape(init, last, conv);
        NoRowsBeforeData(init);
      } else {
        DataStepShape(init, last, conv);
      }
    }
  }

  /** After `@data`, numOfFeatures counts the ordinary attributes and numOfClasses the class values. */
  lemma FrozenSchema(ls: seq<string>, conv: Converter)
    requires TrainRun(ls, conv).Success? && HasDataLine(ls)
    ensures var md := TrainRun(ls, conv).value.metadata;
            md.numOfFeatures == |DeclaredFeatures(ls)| &&
            DeclaredClass(ls).Some? && DeclaredClass(ls).value.Nominal? &&
            md.numOfClasses == |DeclaredClass(ls).value.domain|
  {
    TrainRunShape(ls, conv);
  }

  lemma TestRunStep(md: Metadata, ls: seq<string>, l: string, conv: Converter)
    requires md.numOfFeatures <= |md.featureList|
    ensures TestRun(md, ls + [l], conv) ==
            match TestRun(md, ls, conv)
            case Failure(e) => Failure(e)
            case Success(sc) => TestLine(md, sc, |ls|, l, conv)
  {
    assert (ls + [l])[..|ls|] == ls;
  }

  /** Once a line of the test file fails, the result is that failure, whatever follows. */
  lemma {:induction false} TestFirstErrorDecides(md: Metadata, ls: seq<string>, k: nat, conv: Converter)
    requires md.numOfFeatures <= |md.featureList|
    requires k <= |ls| && TestRun(md, ls[..k], conv).Failure?
    ensures TestRun(md, ls, conv) == TestRun(md, ls[..k], conv)
    decreases |ls|
  {
    if k == |ls| {
      assert ls[..k] == ls;
    } else {
      var init := ls[..|ls| - 1];
      assert init[..k] == ls[..k];
      TestFirstErrorDecides(md, init, k, conv);
    }
  }

  /** Before its `@data` line, the test file's lines change nothing, `@attribute` lines included. */
  lemma TestHeaderLineIgnored(md: Metadata, ls: seq<string>, l: string, conv: Converter)
    requires md.numOfFeatures <= |md.featureList|
    requires TestRun(md, ls, conv).Success? && TestRun(md, ls, conv).value.header
    requires LineTokens(l) != [] && !IsDataDirective(l)
    ensures TestRun(md, ls + [l], conv) == TestRun(md, ls, conv)
  {
    TestRunStep(md, ls, l, conv);
  }

  /** Before its `@data`, a test line that is not empty but has no token fails with NoDirective. */
  lemma TestTokenlessHeaderLine(md: Metadata, ls: seq<string>, l: string, conv: Converter)
    requires md.numOfFeatures <= |md.featureList|
    requires TestRun(md, ls, conv).Success? && TestRun(md, ls, conv).value.header
    requires RemoveComment(l) != [] && LineTokens(l) == []
    ensures TestRun(md, ls + [l], conv) == Failure(NoDirective(|ls|))
  {
    TestRunStep(md, ls, l, conv);
  }

  /** The test-file reader: header until the first `@data` line, then one instance per row, in order. */
  lemma {:induction false} TestRunShape(md: Metadata, ls: seq<string>, conv: Converter)
    requires md.numOfFeatures <= |md.featureList|
    requires TestRun(md, ls, conv).Success?
    ensures var sc := TestRun(md, ls, conv).value;
            (sc.header <==> !HasDataLine(ls)) && RowsRead(md, RowLines(ls), sc.instances, conv)
    decreases |ls|
  {
    if ls != [] {
      var init, last := ls[..|ls| - 1], ls[|ls| - 1];
      assert init + [last] == ls;
      TestRunStep(md, init, last, conv);
      HasDataLineAppend(init, last);
      TestRunShape(md, init, conv);
      if RemoveComment(last) == [] {
        assert LineTokens(last) == [];
      } else if TestRun(md, init, conv).value.header {
        NoRowsBeforeData(init);
      }
    }
  }

  /** A test file that cannot be opened leaves the train-only dataset. */
  lemma MissingTestFile(trainFile: Option<string>, conv: Converter)
    ensures LoadTrainTest(trainFile, None, conv) == LoadTrain(trainFile, conv)
  {
  }

  /** Loading a test file changes neither the metadata nor the training rows. */
  lemma TestFileKeepsTrain(trainFile: Option<string>, testFile: Option<string>, conv: Converter)
    requires LoadTrainTest(trainFile, testFile, conv).Success?
    ensures LoadTrain(trainFile, conv).Success?
    ensures LoadTrainTest(trainFile, testFile, conv).value.metadata == LoadTrain(trainFile, conv).value.metadata
    ensures LoadTrainTest(trainFile, testFile, conv).value.trainSet == LoadTrain(trainFile, conv).value.trainSet
  {
  }

  /**
   * A loaded dataset, described by its files: the features and the class feature
   * declared in the train file's header, the rows after its `@data` line as training
   * instances and the rows after the test file's `@data` line as test instances.
   */
  lemma LoadedDataset(train: string, testFile: Option<string>, conv: Converter)
    requires LoadTrainTest(Some(train), testFile, conv).Success?
    ensures var c := LoadTrainTest(Some(train), testFile, conv).value;
            var md := c.metadata;
            md.featureList == DeclaredFeatures(Lines(train)) &&
            md.classVariable == DeclaredClass(Lines(train)) &&
            RowsRead(md, RowLines(Lines(train)), c.trainSet, conv) &&
            (testFile.None? ==> c.testSet == []) &&
            (testFile.Some? ==> RowsRead(md, RowLines(Lines(testFile.value)), c.testSet, conv))
  {
    TrainRunShape(Lines(train), conv);
    if testFile.Some? {
      var md := TrainRun(Lines(train), conv).value.metadata;
      TestRunShape(md, Lines(testFile.value), conv);
    }
  }
}
