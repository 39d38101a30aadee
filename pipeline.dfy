/**
 * The `pipe` helper: a left fold (`array_reduce`) that threads a seed value
 * through a list of unary functions, first listed first, and the
 * report-building pipeline of four suffix-appending stages run through it.
 */
module Pipeline {
  import opened Composition

  /** `pipe(value, ...functions)`: the seed is the initial carry and each function maps the carry. */
  function Pipe<T>(value: T, functions: seq<T -> T>): T
  {
    if |functions| == 0 then value else Pipe(functions[0](value), functions[1..])
  }

  /** With no functions the seed is the result. */
  lemma PipeEmpty<T>(value: T)
    ensures Pipe(value, []) == value
  {
  }

  /** A one-function pipe is that function. */
  lemma PipeSingle<T>(value: T, f: T -> T)
    ensures Pipe(value, [f]) == f(value)
  {
  }

  /** Splitting the list does not matter: piping through `fs + gs` pipes through `fs`, then `gs`. */
  lemma {:induction false} PipeConcat<T>(value: T, fs: seq<T -> T>, gs: seq<T -> T>)
    ensures Pipe(value, fs + gs) == Pipe(Pipe(value, fs), gs)
    decreases |fs|
  {
    if |fs| > 0 {
      assert (fs + gs)[1..] == fs[1..] + gs;
      PipeConcat(fs[0](value), fs[1..], gs);
    } else {
      assert fs + gs == gs;
    }
  }

  /** The last listed function is applied last: `pipe(v, f1..fn) == fn(pipe(v, f1..fn-1))`. */
  lemma {:induction false} PipeSnoc<T>(value: T, fs: seq<T -> T>, f: T -> T)
    ensures Pipe(value, fs + [f]) == f(Pipe(value, fs))
  {
    PipeConcat(value, fs, [f]);
  }

  /**
   * Pipe order is the reverse of composition order, and piping through a list
   * ending in `f` composes `f` after piping through the rest.
   */
  lemma PipeReversesCompose<T>(value: T, fs: seq<T -> T>, f: T -> T, g: T -> T)
    ensures Pipe(value, [g, f]) == Compose(f, g)(value)
    ensures Pipe(value, fs + [f]) == Compose(f, (v: T) => Pipe(v, fs))(value)
  {
    PipeSnoc(value, [g], f);
    assert [g] + [f] == [g, f];
    ComposeApplies(f, g, value);
    PipeSnoc(value, fs, f);
    ComposeApplies(f, (v: T) => Pipe(v, fs), value);
  }

  // The four stages of the report pipeline.

  function FilterActiveUsers(data: string): string { data + " - Active Users Filtered" }
  function SortData(data: string): string { data + " - Data Sorted" }
  function FilterBad(data: string): string { data + " - Bad Data Filtered" }
  function PrepareReport(data: string): string { data + " - Report Prepared" }

  /** `stage` returns its input followed by the fixed `suffix`. */
  ghost predicate AppendsSuffix(stage: string -> string, suffix: string)
  {
    forall data :: stage(data) == data + suffix
  }

  /** The suffixes of a list of stages, joined in order. */
  function Concat(suffixes: seq<string>): string
  {
    if |suffixes| == 0 then "" else suffixes[0] + Concat(suffixes[1..])
  }

  /** Each of the four stages appends its own fixed suffix. */
  lemma StagesAppendSuffixes()
    ensures AppendsSuffix(FilterActiveUsers, " - Active Users Filtered")
    ensures AppendsSuffix(SortData, " - Data Sorted")
    ensures AppendsSuffix(FilterBad, " - Bad Data Filtered")
    ensures AppendsSuffix(PrepareReport, " - Report Prepared")
  {
  }

  /**
   * A suffix-appending stage keeps its input as a prefix of its output and
   * lengthens it by exactly the suffix.
   */
  lemma SuffixStageGrows(stage: string -> string, suffix: string, data: string)
    requires AppendsSuffix(stage, suffix)
    ensures data <= stage(data)
    ensures |stage(data)| == |data| + |suffix|
  {
  }

  /** Piping through suffix-appending stages appends all their suffixes, in list order. */
  lemma {:induction false} PipeAppendsSuffixes(value: string, stages: seq<string -> string>, suffixes: seq<string>)
    requires |stages| == |suffixes|
    requires forall i :: 0 <= i < |stages| ==> AppendsSuffix(stages[i], suffixes[i])
    ensures Pipe(value, stages) == value + Concat(suffixes)
    ensures value <= Pipe(value, stages)
    decreases |stages|
  {
    if |stages| > 0 {
      assert AppendsSuffix(stages[0], suffixes[0]);
      PipeAppendsSuffixes(value + suffixes[0], stages[1..], suffixes[1..]);
      assert value + suffixes[0] + Concat(suffixes[1..]) == value + (suffixes[0] + Concat(suffixes[1..]));
    }
  }

  /** A four-function pipe applies the first listed function first: d(c(b(a(v)))). */
  lemma {:induction false} PipeFour<T>(value: T, a: T -> T, b: T -> T, c: T -> T, d: T -> T)
    ensures Pipe(value, [a, b, c, d]) == d(c(b(a(value))))
  {
    PipeSnoc(value, [a, b, c], d);
    assert [a, b, c] + [d] == [a, b, c, d];
    PipeSnoc(value, [a, b], c);
    assert [a, b] + [c] == [a, b, c];
    PipeSnoc(value, [a], b);
    assert [a] + [b] == [a, b];
    PipeSingle(value, a);
  }

  /** The report pipeline of the script, run on 'testingData'. */
  lemma ReportPipeline()
    ensures Pipe("testingData", [FilterActiveUsers, SortData, FilterBad, PrepareReport])
         == "testingData - Active Users Filtered - Data Sorted - Bad Data Filtered - Report Prepared"
  {
    PipeFour("testingData", FilterActiveUsers, SortData, FilterBad, PrepareReport);
    ReportFirstStages();
    ReportLastStages();
  }

  lemma ReportFirstStages()
    ensures SortData(FilterActiveUsers("testingData"))
         == "testingData - Active Users Filtered - Data Sorted"
  {
  }

  lemma ReportLastStages()
    ensures PrepareReport(FilterBad("testingData - Active Users Filtered - Data Sorted"))
         == "testingData - Active Users Filtered - Data Sorted - Bad Data Filtered - Report Prepared"
  {
  }
}
