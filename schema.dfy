/** The entities the dataset reader builds: features, instances, the metadata and the whole dataset. */
module Schema {
  import opened Results

  /** Index given to the class feature, which is not part of the feature vector. */
  const ClassIndex: int := -1

  /** One declared attribute: a numeric one, or a nominal one with its ordered value domain. */
  datatype Feature =
    | Numeric(index: int, name: string)
    | Nominal(index: int, name: string, domain: seq<string>)

  /**
   * Turns one token into the internal value of a feature (the features' own
   * `convertValueToInternal`); it is a parameter of the reader and never inspected.
   */
  type Converter = (Feature, string) -> real

  /** One data row: the converted feature values and the converted class label. */
  datatype Instance = Instance(featureVector: seq<real>, classLabel: real)

  /** The schema read from the header. */
  datatype Metadata = Metadata(
    name: string,
    featureList: seq<Feature>,
    classVariable: Option<Feature>,
    numOfFeatures: nat,
    numOfClasses: nat)

  /** Metadata of a newly made dataset: nothing declared yet. */
  const EmptyMetadata := Metadata("", [], None, 0, 0)

  /** What a dataset holds. */
  datatype Contents = Contents(metadata: Metadata, trainSet: seq<Instance>, testSet: seq<Instance>)

  /**
   * Why loading failed. Every case but CannotOpen is a line (numbered from 0) on which
   * the reader would index past its tokens or use a class feature that was never declared.
   */
  datatype LoadError =
    | CannotOpen
    | NoDirective(line: nat)       // a header line without any token
    | MissingField(line: nat)      // `@relation` without a name, `@attribute` without name and type
    | NoClassAttribute(line: nat)  // `@data` or a data row while no class attribute is declared
    | MalformedRow(line: nat)      // a data row with fewer than numOfFeatures + 1 tokens
}
