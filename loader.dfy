/**
 * What the dataset reader computes, line by line. The train file is read by a
 * two-state machine: header lines declare the relation, the attributes and the class,
 * the `@data` line freezes the schema, and every later line is one instance. The test
 * file only looks in its header for `@data`, then reads instances with the train
 * file's schema. Lines are first cut at their comment; lines that are then empty
 * are skipped.
 */
module Loader {
  import opened Results
  import opened TextUtil
  import opened Tokenizer
  import opened LineReader
  import opened Schema

  /** The train-file reader after some lines: the metadata so far, whether it is in the header, the rows read. */
  datatype Reading = Reading(metadata: Metadata, header: bool, instances: seq<Instance>)

  const Start := Reading(EmptyMetadata, true, [])

  predicate IsNumericType(t: string) { t == "numeric" || t == "integer" || t == "real" }

  /** The attribute named `class`, in any case, is the class feature. */
  predicate IsClassName(name: string) { ToLower(name) == "class" }

  /** The effect of `@attribute name type-or-values...` on the metadata. */
  function Declare(md: Metadata, name: string, typeAndValues: seq<string>): Metadata
    requires typeAndValues != []
  {
    if IsClassName(name) then
      md.(classVariable := Some(Nominal(ClassIndex, name, typeAndValues)))
    else if IsNumericType(ToLower(typeAndValues[0])) then
      md.(featureList := md.featureList + [Numeric(|md.featureList|, name)])
    else
      md.(featureList := md.featureList + [Nominal(|md.featureList|, name, typeAndValues)])
  }

  /** A header line with tokens `tokens`, line `k` of the file. */
  function HeaderLine(st: Reading, k: nat, tokens: seq<string>): Result<Reading, LoadError>
  {
    if tokens == [] then Failure(NoDirective(k))
    else
      var lineType := ToLower(tokens[0]);
      if lineType == "@relation" then
        if |tokens| < 2 then Failure(MissingField(k))
        else Success(st.(metadata := st.metadata.(name := tokens[1])))
      else if lineType == "@attribute" then
        if |tokens| < 3 then Failure(MissingField(k))
        else Success(st.(metadata := Declare(st.metadata, tokens[1], tokens[2..])))
      else if lineType == "@data" then
        match st.metadata.classVariable
        case Some(Nominal(_, _, domain)) =>
          Success(Reading(st.metadata.(numOfFeatures := |st.metadata.featureList|, numOfClasses := |domain|),
                          false, st.instances))
        case _ => Failure(NoClassAttribute(k))
      else Success(st)
  }

  /** The instance a data row with tokens `tokens` stands for. */
  function DataRow(md: Metadata, k: nat, tokens: seq<string>, conv: Converter): Result<Instance, LoadError>
    requires md.numOfFeatures <= |md.featureList|
  {
    match md.classVariable
    case None => Failure(NoClassAttribute(k))
    case Some(cls) =>
      if |tokens| <= md.numOfFeatures then Failure(MalformedRow(k))
      else
        var n := md.numOfFeatures;
        Success(Instance(seq(n, j requires 0 <= j < n => conv(md.featureList[j], tokens[j])),
                         conv(cls, tokens[n])))
  }

  /** Ordinary features carry their own position in the list as index. */
  predicate IndexedFeatures(fl: seq<Feature>)
  {
    forall i :: 0 <= i < |fl| ==> fl[i].index == i
  }

  /** The class feature, when declared, is nominal and has the class index. */
  predicate ClassFeatureOk(md: Metadata)
  {
    md.classVariable.Some? ==> md.classVariable.value.Nominal? && md.classVariable.value.index == ClassIndex
  }

  predicate RowsFit(rows: seq<Instance>, n: nat)
  {
    forall i :: 0 <= i < |rows| ==> |rows[i].featureVector| == n
  }

  /** What holds of the reader's state after every line. */
  predicate Consistent(st: Reading)
  {
    var md := st.metadata;
    IndexedFeatures(md.featureList) && ClassFeatureOk(md) && RowsFit(st.instances, md.numOfFeatures) &&
    (st.header ==> md.numOfFeatures == 0 && md.numOfClasses == 0 && st.instances == []) &&
    (!st.header ==> md.numOfFeatures == |md.featureList| && md.classVariable.Some? &&
                    md.numOfClasses == |md.classVariable.value.domain|)
  }

  /** Line `k` of the train file. */
  function TrainLine(st: Reading, k: nat, raw: string, conv: Converter): (r: Result<Reading, LoadError>)
    requires Consistent(st)
    ensures r.Success? ==> Consistent(r.value)
  {
    var line := RemoveComment(raw);
    if line == [] then Success(st)
    else
      var tokens := Tokens(line);
      if st.header then HeaderLine(st, k, tokens)
      else
        match DataRow(st.metadata, k, tokens, conv)
        case Failure(e) => Failure(e)
        case Success(inst) => Success(st.(instances := st.instances + [inst]))
  }

  /** The train file's lines read in order; the first failing line decides the error. */
  function TrainRun(lines: seq<string>, conv: Converter): (r: Result<Reading, LoadError>)
    ensures r.Success? ==> Consistent(r.value)
    decreases |lines|
  {
    if lines == [] then Success(Start)
    else
      match TrainRun(lines[..|lines| - 1], conv)
      case Failure(e) => Failure(e)
      case Success(st) => TrainLine(st, |lines| - 1, lines[|lines| - 1], conv)
  }

  /** The test-file reader after some lines: whether it is still before `@data`, the rows read. */
  datatype Scanning = Scanning(header: bool, instances: seq<Instance>)

  predicate ScanFits(md: Metadata, sc: Scanning)
  {
    (sc.header ==> sc.instances == []) && RowsFit(sc.instances, md.numOfFeatures)
  }

  /** Line `k` of the test file, read with the train file's metadata `md`. */
  function TestLine(md: Metadata, sc: Scanning, k: nat, raw: string, conv: Converter): (r: Result<Scanning, LoadError>)
    requires md.numOfFeatures <= |md.featureList|
    requires ScanFits(md, sc)
    ensures r.Success? ==> ScanFits(md, r.value)
  {
    var line := RemoveComment(raw);
    if line == [] then Success(sc)
    else
      var tokens := Tokens(line);
      if sc.header then
        if tokens == [] then Failure(NoDirective(k))
        else if ToLower(tokens[0]) == "@data" then Success(sc.(header := false))
        else Success(sc)
      else
        match DataRow(md, k, tokens, conv)
        case Failure(e) => Failure(e)
        case Success(inst) => Success(sc.(instances := sc.instances + [inst]))
  }

  function TestRun(md: Metadata, lines: seq<string>, conv: Converter): (r: Result<Scanning, LoadError>)
    requires md.numOfFeatures <= |md.featureList|
    ensures r.Success? ==> ScanFits(md, r.value)
    decreases |lines|
  {
    if lines == [] then Success(Scanning(true, []))
    else
      match TestRun(md, lines[..|lines| - 1], conv)
      case Failure(e) => Failure(e)
      case Success(sc) => TestLine(md, sc, |lines| - 1, lines[|lines| - 1], conv)
  }

  /**
   * The schema invariant of a loaded dataset: features are indexed by position, every
   * instance has one value per feature, and once the schema is frozen it counts all
   * ordinary features and the classes of the declared class feature.
   */
  predicate WellFormed(c: Contents)
  {
    var md := c.metadata;
    IndexedFeatures(md.featureList) && ClassFeatureOk(md) &&
    RowsFit(c.trainSet, md.numOfFeatures) && RowsFit(c.testSet, md.numOfFeatures) &&
    ((md.numOfFeatures == |md.featureList| && md.classVariable.Some? &&
      md.numOfClasses == |md.classVariable.value.domain|) ||
     (md.numOfFeatures == 0 && md.numOfClasses == 0 && c.trainSet == []))
  }

  /** Loading the train file alone; `None` stands for a file that cannot be opened. */
  function LoadTrain(trainFile: Option<string>, conv: Converter): (r: Result<Contents, LoadError>)
    ensures trainFile.None? ==> r == Failure(CannotOpen)
    ensures r.Success? ==> WellFormed(r.value) && r.value.testSet == []
  {
    match trainFile
    case None => Failure(CannotOpen)
    case Some(text) =>
      match TrainRun(Lines(text), conv)
      case Failure(e) => Failure(e)
      case Success(st) => Success(Contents(st.metadata, st.instances, []))
  }

  /** Loading the train file, then the test file with the train file's schema. */
  function LoadTrainTest(trainFile: Option<string>, testFile: Option<string>, conv: Converter): (r: Result<Contents, LoadError>)
    ensures r.Success? ==> WellFormed(r.value)
  {
    match LoadTrain(trainFile, conv)
    case Failure(e) => Failure(e)
    case Success(c) =>
      match testFile
      case None => Success(c)
      case Some(text) =>
        match TestRun(c.metadata, Lines(text), conv)
        case Failure(e) => Failure(e)
        case Success(sc) => Success(c.(testSet := sc.instances))
  }
}
