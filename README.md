# Dataset reader of cs760-neuralnet, modelled in Dafny

The repository trains a logistic-regression classifier on data held in an ARFF-like
text format. A train file (and optionally a test file) declares a relation with
`@relation`, features and a class feature with `@attribute`, and then lists rows of
feature values after `@data`. `%` starts a comment. This project models the reader of
that format in `Dataset.cpp` and the shape of the text the dataset writes back:

- **the line helpers**: `toLower`, and `removeComment`, which cuts a line at its first `%`;
- **the tokenizer** `tokenize`: space, `,`, `{` and `}` end a token, and `'` or `"` open a quoted span. Because a `break` is missing, the opening quote falls through and also ends the token before it. The next quote closes the span, and an empty span is still a token. Trailing text becomes the last token;
- **the line splitter** `safeGetline`: lines end at `\n`, `\r` or `\r\n`. A last line without a terminator is still delivered, and the loop in `loadDataset` stops on the first empty read at end of input;
- **both `Dataset::loadDataset` overloads**: a header/data state machine over the train file, then the test file read with the train file's schema;
- **`Dataset::toString`**: the written lines, with the per-feature and per-row renderers as parameters.

Three modules follow the source's imperative code: `Tokenizer`, `LineReader` and
`Datasets`. Each of their loops is proved equal to a reference definition. The rest are
stated differently:

- `TextUtil` states what `ToLower` and `RemoveComment` return in their own contracts. `RemoveComment` returns the cut line, where the source overwrites its argument in place.
- `Loader` holds the reference definitions of the two loaders, as pure folds over lines.
- `LoaderProperties` states properties of those folds.
- `Scenario` is a worked example.

In detail:

- `Tokenizer.Tokenize` is the C++ loop, with its `start` index, its `quote` flag and its fall-through. It is proved equal to `Tokens`, a recursive scanner.
- `LineReader.GetLine` and `ReadLines` are the character loop of `safeGetline` and the loop that calls it. They are proved equal to `Lines`.
- `Datasets.Dataset` is a class with the fields `metadata`, `trainSet` and `testSet`. Its static loaders walk the lines with a `header` flag and a `numOfFeatures` counter and update those fields in place. They are proved to build exactly what the left folds `Loader.TrainRun` and `Loader.TestRun` compute.
- `LoaderProperties` relates those folds to a declarative description of a file: the attributes declared before the first `@data` line, the last class attribute there, and the rows after it.
- `Scenario` works a six-line file through the reader line by line.

Modules:

- `Results`: Option and Result types.
- `TextUtil`: ToLower and RemoveComment.
- `Tokenizer`.
- `LineReader`.
- `Schema`: feature, instance, metadata and error types.
- `Loader`: the reader as folds over lines.
- `LoaderProperties`.
- `Render`: the text form.
- `Datasets`: the class and its methods.
- `Scenario`.

Error handling. Several source inputs are undefined behaviour in C++:

- `tokens[0]` is read on a header line that is not empty but has no token: a line of delimiters only, such as `,,`, or an indented comment such as `  % note`, which leaves only its leading spaces once the comment is cut;
- `tokens[1]` and `tokens[2]` are read on short directive lines;
- `tokens[numOfFeatures]` is read on a short data row;
- a null `classVariable` is dereferenced at `@data`, or in a row of a test file whose train file had no `@data`.

The model handles each of these cases as an explicit failure result (`Schema.LoadError`): `NoDirective`, `MissingField`, `NoClassAttribute` and `MalformedRow`, each with its line number. It does not use preconditions for them. The first failing line decides the result. A train file that cannot be opened gives `CannotOpen`, where the source returns a null pointer.

## Model

| member | source | states |
|---|---|---|
| TextUtil.ToLower | Dataset.cpp:7-11 | the result has the input's length and no capital letter; each capital becomes the letter 32 code points above it, and every other character is kept |
| TextUtil.ToLowerIdempotent | Dataset.cpp:7-11 | lowering twice is lowering once |
| TextUtil.NoUpperUnchanged | Dataset.cpp:7-11 | text without capitals is unchanged, so lower-case keywords compare as written |
| TextUtil.CommentStart | Dataset.cpp:14 | the position `find('%')` returns: no `%` before it, and a `%` at it unless it is the length (npos) |
| TextUtil.RemoveComment | Dataset.cpp:13-17 | the result is a prefix of the line, contains no `%`, and is the whole line or stops just before a `%` |
| TextUtil.NoCommentUnchanged | Dataset.cpp:15 | a line without `%` is unchanged |
| TextUtil.RemoveCommentIdempotent | Dataset.cpp:13-17 | cutting twice is cutting once |
| TextUtil.CommentLineIsEmpty | Dataset.cpp:13-17 | a line starting with `%` becomes empty |
| Tokenizer.Tokenize | Dataset.cpp:19-49 | the loop, with its `start` index, its `quote` flag and the quote's fall-through into the delimiter case, returns exactly `Tokens(s)` |
| Tokenizer.TokenizeStep | Dataset.cpp:23-45 | one step of the loop: pushing the closed token and moving `start` keeps the tokens so far plus the rest of the scan equal to `Tokens(s)` |
| Tokenizer.TextsAppend | Dataset.cpp:20 | token texts of concatenated spans are the concatenated texts |
| Tokenizer.TextsAt | Dataset.cpp:20 | there is one token text per span, and token `k` is span `k`'s text |
| Tokenizer.ScanShape | Dataset.cpp:24-44 | no scanned span contains a quote; a span read outside quotes is non-empty and has no delimiter |
| Tokenizer.SpanShape | Dataset.cpp:24-44 | the same for the spans of a whole line |
| Tokenizer.TokensHaveNoQuotes | Dataset.cpp:24-44 | no token of a line contains `'` or `"` |
| Tokenizer.ClosingQuote | Dataset.cpp:24-29 | inside a quote, all text up to the next quote is one quoted token, and scanning then resumes outside quotes |
| Tokenizer.QuotedSpanIsOneToken | Dataset.cpp:24-42 | an opening quote closes the pending token, then the quoted text up to the closing quote is one token, even when it is empty |
| Tokenizer.EmptyQuotes | Dataset.cpp:25-28 | `''` gives the one empty token |
| Tokenizer.ScanOrdinary | Dataset.cpp:23-45 | an ordinary character outside quotes joins the pending token |
| Tokenizer.ScanDelimiter | Dataset.cpp:35-42 | a delimiter outside quotes pushes the pending token when it is non-empty and starts a new one |
| Tokenizer.PlainPrefix | Dataset.cpp:23-45 | a run of ordinary characters joins the pending token |
| Tokenizer.PlainTail | Dataset.cpp:46-47 | ordinary text at the end of the line is the last token when non-empty |
| Tokenizer.WordThenDelimiter | Dataset.cpp:35-42 | a word followed by a delimiter is pushed, and the rest of the line is read afresh |
| Tokenizer.TwoWords | Dataset.cpp:19-49 | two words separated by one delimiter are exactly those two tokens |
| Tokenizer.ThreeWords | Dataset.cpp:19-49 | three words separated by delimiters are exactly those three tokens |
| Tokenizer.PlainLine | Dataset.cpp:46-47 | a line with no delimiter and no quote is `[s]` when non-empty and `[]` when empty |
| Tokenizer.RestartAfterDelimiter | Dataset.cpp:23-45 | a delimiter read outside quotes (the text before it leaves no quoted span open) splits the scan into the part before it and the rest read afresh; quoted fields before it are allowed |
| Tokenizer.TrailingText | Dataset.cpp:46-47 | text after the last delimiter is always the final token, whenever that delimiter is read outside quotes (an even number of quotes before it) |
| Tokenizer.QuotedFieldThenValue | Dataset.cpp:19-49 | the data row `'a b',c`, a quoted field then the trailing class value, tokenizes to exactly `["a b", "c"]` |
| Tokenizer.ExampleHead | Dataset.cpp:35-42 | `a, ` followed by anything scans to the token `a` and then the rest |
| Tokenizer.ExampleTail | Dataset.cpp:35-47 | `, {d}` scans to the one token `d` |
| Tokenizer.ExampleSpans | Dataset.cpp:19-49 | `a, 'b c', {d}` scans to `a`, the quoted `b c` and `d` |
| Tokenizer.Example | Dataset.cpp:19-49 | `a, 'b c', {d}` tokenizes to exactly `["a", "b c", "d"]` |
| LineReader.GetLine | Dataset.cpp:51-75 | reading from a position returns the next line (no line end in it) and the position after its `\n`, `\r` or `\r\n`; it reports end of input exactly when the position is at the end; the line followed by the lines of the rest is `Lines` of the text from the position |
| LineReader.ReadLines | Dataset.cpp:88 | calling the line reader until the first empty read at end of input yields exactly `Lines(text)` |
| LineReader.OneLine | Dataset.cpp:58-66 | a line without line ends followed by any one terminator is read back whole, and the `\n` of a `\r\n` is consumed |
| LineReader.LinesRoundTrip | Dataset.cpp:51-75 | lines without line ends, written out with `\n`, `\r` or `\r\n` after each, read back as exactly those lines, empty ones included |
| LineReader.UnterminatedLastLine | Dataset.cpp:67-70 | a non-empty last line without a terminator is still delivered |
| Loader.TrainLine | Dataset.cpp:89-126 | one train-file line keeps the reader's state consistent: features indexed by position, a class feature that is nominal with index -1, and, after `@data`, counts that match the schema and rows the width of `numOfFeatures` |
| Loader.TrainRun | Dataset.cpp:85-127 | reading the train file's lines in order keeps that consistency |
| Loader.TestLine | Dataset.cpp:147-166 | one test-file line keeps every row read with the train schema's width, and no row is read before `@data` |
| Loader.TestRun | Dataset.cpp:144-167 | the same for the whole test file |
| Loader.LoadTrain | Dataset.cpp:77-132 | a file that cannot be opened fails with CannotOpen; a loaded train file is well formed and has no test rows |
| Loader.LoadTrainTest | Dataset.cpp:134-172 | a dataset loaded from a train and a test file is well formed |
| LoaderProperties.HasDataLineAppend | Dataset.cpp:112-113 | a file has a `@data` line after one more line exactly when it had one before or the new line is one |
| LoaderProperties.NoRowsBeforeData | Dataset.cpp:117-126 | before any `@data` line there are no rows |
| LoaderProperties.TrainRunStep | Dataset.cpp:88-127 | one more line is read on the state left by the lines before, and an earlier failure stays |
| LoaderProperties.FirstErrorDecides | Dataset.cpp:88-127 | once a line fails, the load fails with that error whatever follows |
| LoaderProperties.SkippedLine | Dataset.cpp:89-91 | a line that is empty once its comment is cut changes nothing |
| LoaderProperties.IgnoredHeaderLine | Dataset.cpp:93-116 | in the header, a line whose first token is no directive changes nothing |
| LoaderProperties.RelationLine | Dataset.cpp:95-96 | `@relation` sets the name to its second token, and fails with MissingField when there is none |
| LoaderProperties.ShortAttributeLine | Dataset.cpp:97-99 | `@attribute` with fewer than three tokens fails with MissingField |
| LoaderProperties.TokenlessHeaderLine | Dataset.cpp:90-94 | in the header, a line that is not empty after its comment is cut but has no token fails with NoDirective, where the source reads `tokens[0]` of an empty vector |
| LoaderProperties.IndentedComment | Dataset.cpp:89-92 | the indented comment `  % note` is cut to its two leading spaces, which are not empty and give no token |
| LoaderProperties.DataWithoutClass | Dataset.cpp:112-114 | `@data` with no class feature declared fails with NoClassAttribute |
| LoaderProperties.ShortRow | Dataset.cpp:118-123 | a data row with at most numOfFeatures tokens fails with MalformedRow |
| LoaderProperties.HeaderStepShape | Dataset.cpp:93-116 | in the header, a line leaves the header exactly when it is `@data`; an ordinary attribute is appended with its position as index; a class attribute replaces the class feature, with index -1 and domain `tokens[2..]` |
| LoaderProperties.DataStepShape | Dataset.cpp:117-126 | after `@data`, a line keeps the metadata and appends exactly one instance read from its tokens |
| LoaderProperties.DeclaredFeaturesIndexed | Dataset.cpp:97-111 | declared features are numbered 0, 1, 2, ... in declaration order, and none is named `class` |
| LoaderProperties.TrainRunShape | Dataset.cpp:85-127 | a loaded train file is in the header exactly when it has no `@data` line; its features are the ordinary attributes declared before that line, in order; its class feature is the last class attribute among them; its instances are its rows, one per row in order, each with the converted `tokens[0..numOfFeatures)` and the class label from `tokens[numOfFeatures]` |
| LoaderProperties.FrozenSchema | Dataset.cpp:112-116 | after `@data`, numOfFeatures counts the declared ordinary features and numOfClasses the values of the declared class feature |
| LoaderProperties.TestRunStep | Dataset.cpp:147-167 | one more test line is read on the state left by the lines before |
| LoaderProperties.TestFirstErrorDecides | Dataset.cpp:147-167 | once a test line fails, the test load fails with that error whatever follows |
| LoaderProperties.TestHeaderLineIgnored | Dataset.cpp:152-156 | before its `@data`, every non-empty test line other than `@data`, including `@attribute` lines, changes nothing |
| LoaderProperties.TestTokenlessHeaderLine | Dataset.cpp:149-153 | before its `@data`, a test line that is not empty after its comment is cut but has no token fails with NoDirective |
| LoaderProperties.TestRunShape | Dataset.cpp:144-167 | a read test file is in its header exactly when it has no `@data` line, and its instances are its rows, read with the train schema, one per row and in order |
| LoaderProperties.MissingTestFile | Dataset.cpp:139-142 | a test file that cannot be opened gives the train-only dataset |
| LoaderProperties.TestFileKeepsTrain | Dataset.cpp:134-172 | loading the test file changes neither the metadata nor the training rows |
| LoaderProperties.LoadedDataset | Dataset.cpp:77-172 | a loaded dataset has the declared features and class of its train file, exactly its train rows, and exactly the test file's rows (none without a test file) |
| Render.JoinedAppend | Dataset.cpp:175-189 | writing one more line appends the line and its terminator to the text |
| Render.LayoutShape | Dataset.cpp:174-191 | the text form has numOfFeatures + rows + 5 lines in this order: the relation line; the features; the class feature; `@data`; `%Training` and the training rows; `%Testing` and the test rows |
| Render.MarkersAreComments | Dataset.cpp:183-187 | the two section markers are comment lines, which the reader skips |
| Render.TextReadsBack | Dataset.cpp:174-191 | when no written part contains a line end, splitting the written text into lines gives back exactly the lines written |
| Datasets.ConvertFeatures | Dataset.cpp:118-122 | fills a vector of numOfFeatures values; entry `j` is the conversion of `tokens[j]` by feature `j` |
| Datasets.ReadRow | Dataset.cpp:118-125 | reads one data row exactly as the reader's definition of a row does, including its failures |
| Datasets.Dataset.constructor | Dataset.cpp:83 | a new dataset has empty metadata and no rows |
| Datasets.Dataset.LoadDataset | Dataset.cpp:77-132 | succeeds exactly when the train file loads; then it returns a new dataset whose fields are the loaded contents; otherwise it fails with the same error |
| Datasets.Dataset.LoadDatasetWithTest | Dataset.cpp:134-172 | succeeds exactly when the train file and the test file load; then it returns a new dataset whose fields are the loaded contents; otherwise it fails with the same error |
| Datasets.Dataset.ToText | Dataset.cpp:174-191 | writes each line of the text form followed by a newline, and writes nothing when there is no class feature |
| Scenario.BracedSpans | Dataset.cpp:35-47 | `{p,q}` scans to the tokens p and q |
| Scenario.ClassLineTokens | Dataset.cpp:19-49 | `@attribute class {p,q}` is the four tokens `@attribute`, `class`, p and q |
| Scenario.RelationLineRead | Dataset.cpp:95-96 | `@relation r` in the header sets the name to r |
| Scenario.NumericLineRead | Dataset.cpp:104-106 | `@attribute x numeric` appends the numeric feature x with the next index |
| Scenario.ClassLineRead | Dataset.cpp:100-103 | `@attribute class {p,q}` sets the class feature to the nominal feature with index -1 and domain [p, q] |
| Scenario.DataLineRead | Dataset.cpp:112-116 | `@data` leaves the header and freezes numOfFeatures and numOfClasses |
| Scenario.RowLineRead | Dataset.cpp:117-126 | with one feature, the row `v,c` appends the instance ([conv(x, v)], conv(class, c)) |
| Scenario.HeaderOfFile | Dataset.cpp:93-111 | the three header lines give relation r, the one feature x at index 0 and the class feature |
| Scenario.TwoRows | Dataset.cpp:117-126 | two rows after `@data` append two instances in file order |
| Scenario.SixLineFile | Dataset.cpp:77-132 | the whole six-line file loads to relation r, feature x at index 0, class values [p, q], one feature, two classes, and its two rows in order |

## Left out

- File streams: files are given as their whole text, as `Option<string>`, where `None` is a file that cannot be opened. The model splits a file into lines before parsing it, but the source reads one line at a time. The result is the same because reading has no side effect in the model.
- `Feature::convertValueToInternal`, the features' and instances' `toString`, and `NominalFeature::getRange` are declared in `Dataset.hpp`, which is not part of this model. The converter is a parameter, `(Feature, string) -> real`. The renderers are the parameters of `ToText`. The number of classes is taken to be the size of the class feature's domain.
- The converter `(Feature, string) -> real` is total: a token that no value of a nominal feature's domain matches is still converted, so the model has no failure for an unknown nominal value. What the source's converter does with one is in `Dataset.hpp`, which is not part of this model.
- Text is modelled as `seq<char>` where the source works on the bytes of a `std::string`. Nothing is lost, because every character the reader tests (`%`, the quotes, the delimiters, `\n`, `\r`, `A`-`Z`) is ASCII.
- `double` values are modelled as `real`; the converter decides what they are. Parsing numbers from text is not modelled.
- The initial values of `Metadata` (an empty name, no features, no class feature, zero counts) are assumed, since `Dataset.hpp` is not part of this model.
- Source undefined behaviour on missing tokens and a missing class feature is modelled as explicit failures (see above). It is not modelled as preconditions or crashes. An error in the test file fails the whole load.
- ToText: the source dereferences a missing class feature (undefined behaviour); the model returns `None` there.
- Heap ownership (`new`, pointers, the null pointer returned on failure), `ifstream` open and close, and `istream::sentry` are not modelled.
- `LogisticRegression.cpp`, `LogisticRegression.hpp` and `neuralnet.cpp` (the classifier, its floating-point training, and command-line handling) are outside the dataset reader and are not modelled.
