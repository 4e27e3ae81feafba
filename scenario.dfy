/**
 * A worked example: every train file of the shape
 *
 *   @relation r
 *   @attribute x numeric
 *   @attribute class {p,q}
 *   @data
 *   a,b
 *   c,e
 *
 * (r, x, p, q, a, b, c, e plain words, x not named class) loads, line by line, into
 * the relation r with the one numeric feature x at index 0, the class feature with the
 * values [p, q], one feature and two classes, and the two rows in file order.
 */
module Scenario {
  import opened Results
  import opened TextUtil
  import opened Tokenizer
  import opened Schema
  import opened Loader
  import opened LoaderProperties

  /** A non-empty word with no delimiter, quote or comment sign. */
  predicate Word(w: string) { w != [] && Plain(w) && '%' !in w }

  function RelationText(r: string): string { "@relation" + [' '] + r }
  function NumericText(x: string): string { "@attribute" + [' '] + x + [' '] + "numeric" }
  function Braced(p: string, q: string): string { ['{'] + p + [','] + q + ['}'] }
  function ClassText(p: string, q: string): string { "@attribute" + [' '] + "class" + [' '] + Braced(p, q) }
  function RowText(v: string, c: string): string { v + [','] + c }

  function ClassOf(p: string, q: string): Feature { Nominal(ClassIndex, "class", [p, q]) }

  lemma BracedSpans(p: string, q: string)
    requires Word(p) && Word(q)
    ensures Scan(false, [], Braced(p, q)) == [Span(p, false), Span(q, false)]
  {
    var r2 := q + ['}'] + [];
    var r1 := p + [','] + r2;
    assert Braced(p, q) == ['{'] + r1;
    ScanDelimiter([], '{', r1);
    WordThenDelimiter([], p, ',', r2);
    WordThenDelimiter([], q, '}', []);
    assert [] + p == p && [] + q == q;
  }

  /** `@attribute class {p,q}` is the four tokens `@attribute`, `class`, p and q. */
  lemma ClassLineTokens(p: string, q: string)
    requires Word(p) && Word(q)
    ensures LineTokens(ClassText(p, q)) == ["@attribute", "class", p, q]
  {
    var b := Braced(p, q);
    var r := "class" + [' '] + b;
    assert ClassText(p, q) == "@attribute" + [' '] + r;
    assert '%' !in b;
    NoCommentUnchanged(ClassText(p, q));
    WordThenDelimiter([], "@attribute", ' ', r);
    WordThenDelimiter([], "class", ' ', b);
    BracedSpans(p, q);
    assert [] + "@attribute" == "@attribute" && [] + "class" == "class";
    var spans := Spans(ClassText(p, q));
    assert spans == [Span("@attribute", false), Span("class", false), Span(p, false), Span(q, false)];
    TextsAt(spans);
    var t := Texts(spans);
    assert |t| == 4 && t[0] == "@attribute" && t[1] == "class" && t[2] == p && t[3] == q;
  }

  lemma RelationLineRead(st: Reading, k: nat, r: string, conv: Converter)
    requires Consistent(st) && st.header && Word(r)
    ensures TrainLine(st, k, RelationText(r), conv) == Success(st.(metadata := st.metadata.(name := r)))
  {
    NoCommentUnchanged(RelationText(r));
    TwoWords("@relation", ' ', r);
    NoUpperUnchanged("@relation");
  }

  lemma NumericLineRead(st: Reading, k: nat, x: string, conv: Converter)
    requires Consistent(st) && st.header && Word(x) && !IsClassName(x)
    ensures var fl := st.metadata.featureList;
            TrainLine(st, k, NumericText(x), conv) ==
            Success(st.(metadata := st.metadata.(featureList := fl + [Numeric(|fl|, x)])))
  {
    NoCommentUnchanged(NumericText(x));
    ThreeWords("@attribute", ' ', x, ' ', "numeric");
    NoUpperUnchanged("@attribute");
    NoUpperUnchanged("numeric");
    assert ["@attribute", x, "numeric"][2..] == ["numeric"];
  }

  lemma ClassLineRead(st: Reading, k: nat, p: string, q: string, conv: Converter)
    requires Consistent(st) && st.header && Word(p) && Word(q)
    ensures TrainLine(st, k, ClassText(p, q), conv) ==
            Success(st.(metadata := st.metadata.(classVariable := Some(ClassOf(p, q)))))
  {
    ClassLineTokens(p, q);
    NoUpperUnchanged("@attribute");
    NoUpperUnchanged("class");
    assert ["@attribute", "class", p, q][2..] == [p, q];
  }

  lemma DataLineRead(st: Reading, k: nat, conv: Converter)
    requires Consistent(st) && st.header && st.metadata.classVariable.Some?
    ensures var md := st.metadata;
            TrainLine(st, k, "@data", conv) ==
            Success(Reading(md.(numOfFeatures := |md.featureList|, numOfClasses := |md.classVariable.value.domain|),
                            false, st.instances))
  {
    NoCommentUnchanged("@data");
    PlainLine("@data");
    NoUpperUnchanged("@data");
  }

  lemma RowLineRead(st: Reading, k: nat, v: string, c: string, conv: Converter)
    requires Consistent(st) && !st.header && Word(v) && Word(c) && st.metadata.numOfFeatures == 1
    ensures var md := st.metadata;
            TrainLine(st, k, RowText(v, c), conv) ==
            Success(st.(instances := st.instances +
                                     [Instance([conv(md.featureList[0], v)], conv(md.classVariable.value, c))]))
  {
    NoCommentUnchanged(RowText(v, c));
    TwoWords(v, ',', c);
    var md := st.metadata;
    assert seq(1, j requires 0 <= j < 1 => conv(md.featureList[j], [v, c][j])) == [conv(md.featureList[0], v)];
  }

  /** The three header lines before `@data`. */
  lemma HeaderOfFile(r: string, x: string, p: string, q: string, conv: Converter)
    requires Word(r) && Word(x) && !IsClassName(x) && Word(p) && Word(q)
    ensures TrainRun([RelationText(r), NumericText(x), ClassText(p, q)], conv) ==
            Success(Reading(Metadata(r, [Numeric(0, x)], Some(ClassOf(p, q)), 0, 0), true, []))
  {
    var l0: seq<string> := [];
    var l1 := l0 + [RelationText(r)];
    TrainRunStep(l0, RelationText(r), conv);
    RelationLineRead(Start, 0, r, conv);
    var st1 := Reading(EmptyMetadata.(name := r), true, []);
    assert TrainRun(l1, conv) == Success(st1);
    var l2 := l1 + [NumericText(x)];
    TrainRunStep(l1, NumericText(x), conv);
    NumericLineRead(st1, 1, x, conv);
    assert st1.metadata.featureList + [Numeric(|st1.metadata.featureList|, x)] == [Numeric(0, x)];
    var st2 := st1.(metadata := st1.metadata.(featureList := [Numeric(0, x)]));
    assert TrainRun(l2, conv) == Success(st2);
    var l3 := l2 + [ClassText(p, q)];
    TrainRunStep(l2, ClassText(p, q), conv);
    ClassLineRead(st2, 2, p, q, conv);
    assert l3 == [RelationText(r), NumericText(x), ClassText(p, q)];
  }

  /** Two data rows after `@data`, with a schema of one feature. */
  lemma TwoRows(ls: seq<string>, md: Metadata, a: string, b: string, c: string, e: string, conv: Converter)
    requires Word(a) && Word(b) && Word(c) && Word(e)
    requires TrainRun(ls, conv) == Success(Reading(md, false, []))
    requires md.numOfFeatures == 1
    ensures var f, cls := md.featureList[0], md.classVariable.value;
            TrainRun(ls + [RowText(a, b), RowText(c, e)], conv) ==
            Success(Reading(md, false, [Instance([conv(f, a)], conv(cls, b)), Instance([conv(f, c)], conv(cls, e))]))
  {
    var st := Reading(md, false, []);
    var f, cls := md.featureList[0], md.classVariable.value;
    var l5 := ls + [RowText(a, b)];
    TrainRunStep(ls, RowText(a, b), conv);
    RowLineRead(st, |ls|, a, b, conv);
    assert st.instances + [Instance([conv(f, a)], conv(cls, b))] == [Instance([conv(f, a)], conv(cls, b))];
    var st5 := st.(instances := [Instance([conv(f, a)], conv(cls, b))]);
    assert TrainRun(l5, conv) == Success(st5);
    TrainRunStep(l5, RowText(c, e), conv);
    RowLineRead(st5, |l5|, c, e, conv);
    assert st5.instances + [Instance([conv(f, c)], conv(cls, e))] ==
           [Instance([conv(f, a)], conv(cls, b)), Instance([conv(f, c)], conv(cls, e))];
    assert l5 + [RowText(c, e)] == ls + [RowText(a, b), RowText(c, e)];
  }

  /** The six-line file above, read by the train-file reader. */
  lemma SixLineFile(r: string, x: string, p: string, q: string, a: string, b: string, c: string, e: string,
                    conv: Converter)
    requires Word(r) && Word(x) && !IsClassName(x) && Word(p) && Word(q)
    requires Word(a) && Word(b) && Word(c) && Word(e)
    ensures var x0, cls := Numeric(0, x), ClassOf(p, q);
            TrainRun([RelationText(r), NumericText(x), ClassText(p, q), "@data", RowText(a, b), RowText(c, e)], conv) ==
            Success(Reading(Metadata(r, [x0], Some(cls), 1, 2), false,
                            [Instance([conv(x0, a)], conv(cls, b)), Instance([conv(x0, c)], conv(cls, e))]))
  {
    var x0, cls := Numeric(0, x), ClassOf(p, q);
    var l3 := [RelationText(r), NumericText(x), ClassText(p, q)];
    HeaderOfFile(r, x, p, q, conv);
    var st3 := Reading(Metadata(r, [x0], Some(cls), 0, 0), true, []);
    var l4 := l3 + ["@data"];
    TrainRunStep(l3, "@data", conv);
    DataLineRead(st3, 3, conv);
    assert |st3.metadata.featureList| == 1 && |st3.metadata.classVariable.value.domain| == 2;
    var md := Metadata(r, [x0], Some(cls), 1, 2);
    assert TrainRun(l4, conv) == Success(Reading(md, false, []));
    TwoRows(l4, md, a, b, c, e, conv);
    assert l4 + [RowText(a, b), RowText(c, e)] ==
           [RelationText(r), NumericText(x), ClassText(p, q), "@data", RowText(a, b), RowText(c, e)];
  }
}
