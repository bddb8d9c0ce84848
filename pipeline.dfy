/** Review ingestion (pipeline.py): per-source column consolidation and row cleaning. */
module Pipeline {
  import opened Wrappers
  import opened Errors
  import opened Sequences
  import opened Text
  import opened Frames
  import opened Config

  // ---------------------------------------------------------------------
  // Consolidation
  // ---------------------------------------------------------------------

  /** `df.rename(columns=m)` on one label: a label that is not a key of `m` keeps its name. */
  function Rename(m: Mapping, c: string): string
    decreases |m|
  {
    if m == [] then c else if m[0].0 == c then m[0].1 else Rename(m[1..], c)
  }

  /** The labels after renaming, in the frame's column order. */
  function Renamed(m: Mapping, columns: seq<string>): seq<string> {
    MapSeq(columns, c => Rename(m, c))
  }

  lemma {:induction false} RenameKey(m: Mapping, i: nat)
    requires i < |m| && Distinct(RawColumns(m))
    ensures Rename(m, m[i].0) == m[i].1
    decreases |m|
  {
    if i > 0 {
      assert RawColumns(m)[0] != RawColumns(m)[i];
      assert RawColumns(m[1..]) == RawColumns(m)[1..];
      RenameKey(m[1..], i - 1);
    }
  }

  lemma {:induction false} RenameOther(m: Mapping, c: string)
    requires c !in RawColumns(m)
    ensures Rename(m, c) == c
    decreases |m|
  {
    if m != [] {
      assert RawColumns(m)[0] == m[0].0;
      assert RawColumns(m[1..]) == RawColumns(m)[1..];
      RenameOther(m[1..], c);
    }
  }

  /** No two columns are renamed to the same canonical label (pandas would then carry both, which a frame here cannot hold). */
  predicate UnambiguousRename(m: Mapping, columns: seq<string>) {
    forall i, j :: 0 <= i < j < |columns| && Rename(m, columns[i]) == Rename(m, columns[j]) ==>
      Rename(m, columns[i]) !in Targets(m)
  }

  /** The raw column that ends up labelled `t` after renaming. */
  function SourceOf(m: Mapping, columns: seq<string>, t: string): string {
    var renamed := Renamed(m, columns);
    if t in renamed then columns[IndexOf(renamed, t)] else t
  }

  /** One row restricted to the canonical labels, each read from its raw column. */
  function Project(m: Mapping, columns: seq<string>, row: Row): Row {
    map t | t in Targets(m) :: var c := SourceOf(m, columns, t); if c in row then row[c] else Null
  }

  /** A canonical label that some column renames to is read from that column. */
  lemma ProjectCell(m: Mapping, columns: seq<string>, row: Row, t: string)
    requires HasColumns(row, columns) && t in Targets(m) && t in Renamed(m, columns)
    ensures var c := SourceOf(m, columns, t);
      c in columns && c in row && Rename(m, c) == t && t in Project(m, columns, row) && Project(m, columns, row)[t] == row[c]
  {
    var i := IndexOf(Renamed(m, columns), t);
    assert SourceOf(m, columns, t) == columns[i];
  }

  function ProjectWith(m: Mapping, columns: seq<string>): Row -> Row {
    row => Project(m, columns, row)
  }

  /** When every canonical label is present, each projected cell is the cell of the raw column renamed to it. */
  lemma ProjectedCells(df: Frame, m: Mapping)
    requires WellFormed(df) && forall t :: t in Targets(m) ==> t in Renamed(m, df.columns)
    ensures forall t :: t in Targets(m) ==>
      SourceOf(m, df.columns, t) in df.columns && Rename(m, SourceOf(m, df.columns, t)) == t
    ensures forall k, t :: 0 <= k < |df.rows| && t in Targets(m) ==>
      && SourceOf(m, df.columns, t) in df.rows[k]
      && t in MapSeq(df.rows, ProjectWith(m, df.columns))[k]
      && MapSeq(df.rows, ProjectWith(m, df.columns))[k][t] == df.rows[k][SourceOf(m, df.columns, t)]
  {
    var out := MapSeq(df.rows, ProjectWith(m, df.columns));
    forall k, t | 0 <= k < |df.rows| && t in Targets(m)
      ensures SourceOf(m, df.columns, t) in df.columns && SourceOf(m, df.columns, t) in df.rows[k]
      ensures Rename(m, SourceOf(m, df.columns, t)) == t
      ensures t in out[k] && out[k][t] == df.rows[k][SourceOf(m, df.columns, t)]
    {
      assert df.rows[k] in df.rows;
      assert out[k] == Project(m, df.columns, df.rows[k]);
      ProjectCell(m, df.columns, df.rows[k], t);
    }
  }

  /** Rename with table `m`, then keep only `m`'s canonical columns, in the table's order (pipeline.py:17-18). */
  function Consolidate(df: Frame, m: Mapping): (r: Result<Frame, Error>)
    requires WellFormed(df) && Distinct(Targets(m)) && UnambiguousRename(m, df.columns)
    ensures r.Failure? <==> exists t :: t in Targets(m) && t !in Renamed(m, df.columns)
    ensures r.Failure? ==>
      r.error.KeyError? && forall t :: t in r.error.keys <==> t in Targets(m) && t !in Renamed(m, df.columns)
    ensures r.Success? ==> WellFormed(r.value) && r.value.columns == Targets(m) && |r.value.rows| == |df.rows|
    ensures r.Success? ==>
      forall t :: t in r.value.columns ==>
        SourceOf(m, df.columns, t) in df.columns && Rename(m, SourceOf(m, df.columns, t)) == t
    ensures r.Success? ==>
      forall k, t :: 0 <= k < |df.rows| && t in r.value.columns ==>
        && SourceOf(m, df.columns, t) in df.rows[k]
        && t in r.value.rows[k]
        && r.value.rows[k][t] == df.rows[k][SourceOf(m, df.columns, t)]
  {
    var renamed := Renamed(m, df.columns);
    var missing := Filter(Targets(m), t => t !in renamed);
    if missing != [] then
      assert missing[0] in missing;
      Failure(KeyError(missing))
    else
      var out := Frame(Targets(m), MapSeq(df.rows, ProjectWith(m, df.columns)));
      assert WellFormed(out) by {
        forall row | row in out.rows ensures HasColumns(row, out.columns) {
          var k :| 0 <= k < |out.rows| && out.rows[k] == row;
          assert row == Project(m, df.columns, df.rows[k]);
        }
      }
      ProjectedCells(df, m);
      Success(out)
  }

  /** pipeline.py:6-19: consolidation with the table of `source`; an unknown source is a KeyError. */
  function Consolidation(df: Frame, source: string): (r: Result<Frame, Error>)
    requires WellFormed(df)
    requires source in MAPPINGS ==> UnambiguousRename(MAPPINGS[source], df.columns)
    ensures source !in MAPPINGS ==> r == Failure(KeyError([source]))
    ensures source in MAPPINGS ==>
      (r.Failure? <==> exists t :: t in Targets(MAPPINGS[source]) && t !in Renamed(MAPPINGS[source], df.columns))
    ensures r.Success? ==>
      source in MAPPINGS && WellFormed(r.value) && r.value.columns == Targets(MAPPINGS[source]) && |r.value.rows| == |df.rows|
  {
    if source !in MAPPINGS then Failure(KeyError([source]))
    else
      MappingsInjective();
      Consolidate(df, MAPPINGS[source])
  }

  /** Within an unambiguous renaming, a canonical label comes from exactly one raw column. */
  lemma SourceOfUnique(m: Mapping, columns: seq<string>, t: string, c: string)
    requires UnambiguousRename(m, columns) && t in Targets(m)
    requires c in columns && Rename(m, c) == t
    ensures SourceOf(m, columns, t) == c
  {
    var renamed := Renamed(m, columns);
    var p :| 0 <= p < |columns| && columns[p] == c;
    assert renamed[p] == t;
    var q := IndexOf(renamed, t);
    assert p == q;
  }

  /** A raw export as the sources deliver it: every raw column of the table is present, and no other column already carries a canonical label. */
  predicate CompleteExport(m: Mapping, columns: seq<string>) {
    && (forall i :: 0 <= i < |m| ==> m[i].0 in columns)
    && (forall c :: c in columns && c !in RawColumns(m) ==> c !in Targets(m))
  }

  /** A column's label after renaming, by whether it is a key of the table. */
  lemma RenameCases(m: Mapping, c: string) returns (a: int)
    requires Distinct(RawColumns(m))
    ensures c in RawColumns(m) ==> 0 <= a < |m| && m[a].0 == c && Rename(m, c) == m[a].1
    ensures c !in RawColumns(m) ==> Rename(m, c) == c
  {
    a := -1;
    if c in RawColumns(m) {
      a :| 0 <= a < |m| && RawColumns(m)[a] == c;
      RenameKey(m, a);
    } else {
      RenameOther(m, c);
    }
  }

  lemma ExportUnambiguous(m: Mapping, cols: seq<string>)
    requires Distinct(cols) && Distinct(RawColumns(m)) && Distinct(Targets(m)) && CompleteExport(m, cols)
    ensures UnambiguousRename(m, cols)
  {
    forall i, j | 0 <= i < j < |cols| && Rename(m, cols[i]) == Rename(m, cols[j])
      ensures Rename(m, cols[i]) !in Targets(m)
    {
      var a := RenameCases(m, cols[i]);
      var b := RenameCases(m, cols[j]);
    }
  }

  lemma ExportHasAllTargets(m: Mapping, cols: seq<string>)
    requires Distinct(RawColumns(m)) && CompleteExport(m, cols)
    ensures forall t :: t in Targets(m) ==> t in Renamed(m, cols)
  {
    forall t | t in Targets(m) ensures t in Renamed(m, cols) {
      var i :| 0 <= i < |m| && Targets(m)[i] == t;
      RenameKey(m, i);
      var p :| 0 <= p < |cols| && cols[p] == m[i].0;
      assert Renamed(m, cols)[p] == t;
    }
  }

  /** On a complete export consolidation succeeds, keeps every row in order, and each canonical column holds the values of the raw column mapped to it. */
  lemma ExportConsolidates(df: Frame, m: Mapping)
    requires WellFormed(df) && Distinct(RawColumns(m)) && Distinct(Targets(m)) && CompleteExport(m, df.columns)
    ensures UnambiguousRename(m, df.columns)
    ensures
      var r := Consolidate(df, m);
      && r.Success?
      && r.value.columns == Targets(m)
      && |r.value.rows| == |df.rows|
      && forall k, i :: 0 <= k < |df.rows| && 0 <= i < |m| ==>
           m[i].1 in r.value.rows[k] && m[i].0 in df.rows[k] && r.value.rows[k][m[i].1] == df.rows[k][m[i].0]
  {
    ExportUnambiguous(m, df.columns);
    ExportHasAllTargets(m, df.columns);
    var r := Consolidate(df, m);
    forall k, i | 0 <= k < |df.rows| && 0 <= i < |m|
      ensures m[i].1 in r.value.rows[k] && m[i].0 in df.rows[k] && r.value.rows[k][m[i].1] == df.rows[k][m[i].0]
    {
      RenameKey(m, i);
      assert Targets(m)[i] == m[i].1;
      SourceOfUnique(m, df.columns, m[i].1, m[i].0);
    }
  }

  /** The netflix header written out in config.py's comments: it has no reviewCreatedVersion column. */
  const NETFLIX_COMMENTED_HEADER: seq<string> := ["id", "name", "content", "score", "likes", "created", "at", "version"]

  /** The commented netflix header after renaming with the netflix table. */
  lemma NetflixCommentedRenamed()
    ensures Renamed(NETFLIX, NETFLIX_COMMENTED_HEADER) == ["id", "name", "content", "score", "likes", "created_date", "at", "version"]
  {
  }

  /** No two columns of the commented netflix header rename to the same label. */
  lemma NetflixCommentedUnambiguous()
    ensures UnambiguousRename(NETFLIX, NETFLIX_COMMENTED_HEADER)
  {
    NetflixCommentedRenamed();
    var cols := NETFLIX_COMMENTED_HEADER;
    forall i, j | 0 <= i < j < |cols| ensures Rename(NETFLIX, cols[i]) != Rename(NETFLIX, cols[j]) {
      assert Rename(NETFLIX, cols[i]) == Renamed(NETFLIX, cols)[i];
      assert Rename(NETFLIX, cols[j]) == Renamed(NETFLIX, cols)[j];
    }
  }

  /**
   * A frame under the commented netflix header renames unambiguously, yet
   * consolidation with the netflix table fails with a KeyError naming
   * exactly review_version, the one canonical label no column renames to.
   */
  lemma NetflixCommentedHeaderFails(df: Frame)
    requires WellFormed(df) && df.columns == NETFLIX_COMMENTED_HEADER
    ensures UnambiguousRename(NETFLIX, df.columns)
    ensures var r := Consolidation(df, "netflix");
      r.Failure? && r.error.KeyError? && forall t :: t in r.error.keys <==> t == "review_version"
  {
    NetflixCommentedUnambiguous();
    NetflixCommentedRenamed();
    assert Targets(NETFLIX) == ["created_date", "content", "score", "likes", "review_version", "version"];
    assert Targets(NETFLIX)[4] !in Renamed(NETFLIX, df.columns);
  }

  // ---------------------------------------------------------------------
  // Row helpers
  // ---------------------------------------------------------------------

  /** pipeline.py:48-62: the source name occurs in the lower-cased review text. The source name itself is used as given. */
  function ContainsSourceWord(content: string, source: string): (r: bool)
    ensures r <==> exists i :: OccursAt(source, Lower(content), i)
  {
    SubstringWitness(source, Lower(content));
    IsSubstring(source, Lower(content))
  }

  /** A source name with a capital letter never matches: only the content is lower-cased. */
  lemma CapitalisedSourceNeverMatches(content: string, source: string)
    requires !IsLowerCase(source)
    ensures !ContainsSourceWord(content, source)
  {
  }

  /** A lower-case source name is found whatever the case in which the review spells it. */
  lemma MatchIgnoresContentCase(content: string, source: string, spelled: string, i: nat)
    requires OccursAt(spelled, content, i) && Lower(spelled) == source
    ensures ContainsSourceWord(content, source)
  {
    LowerSlice(content, i, i + |spelled|);
    assert OccursAt(source, Lower(content), i);
  }

  lemma SourceWordExamples()
    ensures ContainsSourceWord("I love netflix", "netflix")
    ensures !ContainsSourceWord("great app", "netflix")
  {
    assert OccursAt("netflix", Lower("I love netflix"), 7);
    assert Lower("great app") == "great app";
    forall i ensures !OccursAt("netflix", "great app", i) {
      if 0 <= i && i + 7 <= 9 {
        assert "great app"[i..i + 7][0] == "great app"[i];
        assert "great app"[i] != 'n' by {
          assert i == 0 || i == 1 || i == 2;
        }
      }
    }
  }

  /** pipeline.py:65-79: halve a like count that exceeds the mean. A NaN count or a NaN mean compares false and passes through. */
  function WeightLikes(likes: Value, mean: Option<real>): (r: Value)
    ensures r != likes <==> likes.Num? && mean.Some? && likes.x > mean.value && likes.x != 0.0
    ensures r != likes ==> r == Num(likes.x / 2.0)
    ensures likes.Num? && likes.x >= 0.0 ==> r.Num? && 0.0 <= r.x <= likes.x
  {
    if likes.Num? && mean.Some? && likes.x > mean.value then Num(likes.x * 0.5) else likes
  }

  /** Sum of the numeric cells. */
  function SumNum(vals: seq<Value>): real
    decreases |vals|
  {
    if vals == [] then 0.0 else (if vals[0].Num? then vals[0].x else 0.0) + SumNum(vals[1..])
  }

  /** Number of numeric cells. */
  function CountNum(vals: seq<Value>): nat
    decreases |vals|
  {
    if vals == [] then 0 else (if vals[0].Num? then 1 else 0) + CountNum(vals[1..])
  }

  lemma {:induction false} CountNumZero(vals: seq<Value>)
    ensures CountNum(vals) == 0 <==> forall k :: 0 <= k < |vals| ==> !vals[k].Num?
    decreases |vals|
  {
    if vals != [] {
      CountNumZero(vals[1..]);
      assert forall k :: 1 <= k < |vals| ==> vals[k] == vals[1..][k - 1];
    }
  }

  /** `Series.mean()`: missing cells are skipped; with no numbers the mean is NaN, here None. */
  function Mean(vals: seq<Value>): (r: Option<real>)
    ensures r.None? <==> forall k :: 0 <= k < |vals| ==> !vals[k].Num?
    ensures r.Some? ==> r.value * CountNum(vals) as real == SumNum(vals)
  {
    var n := CountNum(vals);
    CountNumZero(vals);
    if n == 0 then None else Some(SumNum(vals) / n as real)
  }

  /** `n` copies of `b` added up. */
  function Times(n: nat, b: real): real {
    if n == 0 then 0.0 else b + Times(n - 1, b)
  }

  lemma {:induction false} TimesIsProduct(n: nat, b: real)
    ensures Times(n, b) == n as real * b
  {
    if n > 0 {
      TimesIsProduct(n - 1, b);
      Scale(n, n - 1, b);
    }
  }

  lemma Scale(c: int, n: int, b: real)
    requires c == 1 + n
    ensures c as real * b == b + n as real * b
  {
  }

  lemma TailBounded(vals: seq<Value>, bound: real)
    requires vals != []
    requires forall k :: 0 <= k < |vals| && vals[k].Num? ==> vals[k].x <= bound
    ensures forall k :: 0 <= k < |vals[1..]| && vals[1..][k].Num? ==> vals[1..][k].x <= bound
  {
    forall k | 0 <= k < |vals[1..]| && vals[1..][k].Num? ensures vals[1..][k].x <= bound {
      assert vals[1..][k] == vals[k + 1];
    }
  }

  /** Numeric cells no larger than `bound` sum to at most `bound` per cell. */
  lemma {:induction false} SumAtMost(vals: seq<Value>, bound: real)
    requires forall k :: 0 <= k < |vals| && vals[k].Num? ==> vals[k].x <= bound
    ensures SumNum(vals) <= Times(CountNum(vals), bound)
    decreases |vals|
  {
    if vals != [] {
      TailBounded(vals, bound);
      SumAtMost(vals[1..], bound);
    }
  }

  /** ... and strictly less when one of them is below `bound`. */
  lemma {:induction false} SumBelow(vals: seq<Value>, bound: real, low: nat)
    requires forall k :: 0 <= k < |vals| && vals[k].Num? ==> vals[k].x <= bound
    requires low < |vals| && vals[low].Num? && vals[low].x < bound
    ensures SumNum(vals) < Times(CountNum(vals), bound)
    decreases |vals|
  {
    TailBounded(vals, bound);
    if low == 0 {
      SumAtMost(vals[1..], bound);
    } else {
      assert vals[1..][low - 1] == vals[low];
      SumBelow(vals[1..], bound, low - 1);
    }
  }

  /** Non-negative cells have a non-negative sum. */
  lemma {:induction false} SumNonNegative(vals: seq<Value>)
    requires forall k :: 0 <= k < |vals| && vals[k].Num? ==> vals[k].x >= 0.0
    ensures SumNum(vals) >= 0.0
    decreases |vals|
  {
    if vals != [] {
      assert forall k :: 1 <= k < |vals| ==> vals[k] == vals[1..][k - 1];
      SumNonNegative(vals[1..]);
    }
  }

  /** Unless all like counts are equal, some count lies strictly above their mean. */
  lemma SomeLikesAboveMean(vals: seq<Value>, a: nat, b: nat)
    requires a < |vals| && b < |vals| && vals[a].Num? && vals[b].Num? && vals[a].x != vals[b].x
    ensures Mean(vals).Some?
    ensures exists k :: 0 <= k < |vals| && vals[k].Num? && vals[k].x > Mean(vals).value
  {
    var mean := Mean(vals).value;
    if forall k :: 0 <= k < |vals| && vals[k].Num? ==> vals[k].x <= mean {
      var low := if vals[a].x < vals[b].x then a else b;
      SumBelow(vals, mean, low);
      TimesIsProduct(CountNum(vals), mean);
    }
  }

  /** Over non-negative like counts that are not all equal, the halving rule changes at least one count. */
  lemma OldPathDownWeights(vals: seq<Value>, a: nat, b: nat)
    requires a < |vals| && b < |vals| && vals[a].Num? && vals[b].Num? && vals[a].x != vals[b].x
    requires forall k :: 0 <= k < |vals| && vals[k].Num? ==> vals[k].x >= 0.0
    ensures exists k :: 0 <= k < |vals| && WeightLikes(vals[k], Mean(vals)) != vals[k]
  {
    SomeLikesAboveMean(vals, a, b);
    var k :| 0 <= k < |vals| && vals[k].Num? && vals[k].x > Mean(vals).value;
    SumNonNegative(vals);
    var n := CountNum(vals) as real;
    assert n > 0.0;
    assert Mean(vals).value * n >= 0.0;
    assert Mean(vals).value >= 0.0;
    assert WeightLikes(vals[k], Mean(vals)) != vals[k];
  }

  // ---------------------------------------------------------------------
  // Cleaning
  // ---------------------------------------------------------------------

  /** The three columns `clean` derives. */
  const DERIVED: set<string> := {WEEKDAY, CONTAINS_SOURCE_WORD, LIKES_WEIGHTED}

  predicate HasContent(row: Row) {
    CONTENT in row && row[CONTENT] != Null
  }

  /** The input rows that survive `drop_duplicates` and `dropna(subset=["content"])`, before any column is rewritten. */
  function Kept(rows: seq<Row>): (r: seq<Row>)
    ensures Subsequence(r, rows)
    ensures Distinct(r)
    ensures forall row :: row in r <==> row in rows && HasContent(row)
  {
    var deduped := Dedup(rows);
    SubsequenceTransitive(Filter(deduped, HasContent), deduped, rows);
    SubsequenceOfDistinct(Filter(deduped, HasContent), deduped);
    Filter(deduped, HasContent)
  }

  /** `pd.to_datetime` applied to one row's created_date; a row whose date does not parse is left as it is. */
  function ParsedRow(row: Row, parseDate: Value -> Option<Value>): Row {
    if CREATED_DATE in row && parseDate(row[CREATED_DATE]).Some? then row[CREATED_DATE := parseDate(row[CREATED_DATE]).value] else row
  }

  function ParseWith(parseDate: Value -> Option<Value>): Row -> Row {
    row => ParsedRow(row, parseDate)
  }

  /** The contains_source_word cell for one content cell; a cell that is not text gives NaN on the vectorised path. */
  function SourceFlag(content: Value, source: string): Value {
    if content.Str? then Bool(ContainsSourceWord(content.s, source)) else Null
  }

  /** created_date holds NaT, which `pd.to_datetime` gives for a missing date. */
  predicate NaTDate(row: Row) {
    CREATED_DATE in row && row[CREATED_DATE].Null?
  }

  predicate TextContent(row: Row) {
    CONTENT in row && row[CONTENT].Str?
  }

  predicate NonTextContent(row: Row) {
    CONTENT in row && !row[CONTENT].Str?
  }

  /** A like count given as text, on which `mean()` raises TypeError. */
  predicate TextLikes(row: Row) {
    LIKES in row && row[LIKES].Str?
  }

  /** created_date does not parse: `pd.to_datetime` raises on it. */
  function Unparsable(parseDate: Value -> Option<Value>): Row -> bool {
    row => CREATED_DATE in row && parseDate(row[CREATED_DATE]).None?
  }

  /** created_date parses to NaT. */
  function ParsedNaT(parseDate: Value -> Option<Value>): Row -> bool {
    row => NaTDate(ParsedRow(row, parseDate))
  }

  /** The weekday cell of one parsed date; NaT gives NaN. */
  function WeekdayCell(date: Value, dayName: Value -> string): Value {
    if date.Null? then Null else Str(dayName(date))
  }

  function LikesOf(rows: seq<Row>): seq<Value> {
    MapSeq(rows, row => if LIKES in row then row[LIKES] else Null)
  }

  /** `df["likes"] > df["likes"].mean()`. */
  function AboveMean(likes: seq<Value>, mean: Option<real>): (mask: seq<bool>)
    ensures |mask| == |likes|
  {
    MapSeq(likes, (v: Value) => v.Num? && mean.Some? && v.x > mean.value)
  }

  function AddColumn(columns: seq<string>, name: string): seq<string> {
    if name in columns then columns else columns + [name]
  }

  /** The error `clean` raises on `df`, if any, in the order the steps meet them. */
  function CleanError(df: Frame, runOldPipeline: bool, parseDate: Value -> Option<Value>): Option<Error> {
    if CREATED_DATE !in df.columns then Some(KeyError([CREATED_DATE]))
    else if Any(df.rows, Unparsable(parseDate)) then Some(DateParseError)
    else if CONTENT !in df.columns then Some(KeyError([CONTENT]))
    else if runOldPipeline && Any(Kept(df.rows), ParsedNaT(parseDate)) then Some(ValueError)
    else if runOldPipeline && Any(Kept(df.rows), NonTextContent) then Some(AttributeError)
    else if !runOldPipeline && Kept(df.rows) != [] && !Any(Kept(df.rows), TextContent) then Some(AttributeError)
    else if LIKES !in df.columns then Some(KeyError([LIKES]))
    else if Any(Kept(df.rows), TextLikes) then Some(TypeError)
    else None
  }

  /** How one cleaned row `out` arises from the surviving input row `src`. */
  predicate CleanedRow(out: Row, src: Row, runOldPipeline: bool, source: string,
                       parseDate: Value -> Option<Value>, dayName: Value -> string, mean: Option<real>)
  {
    && out.Keys == src.Keys + DERIVED
    && (forall c :: c in src && c !in DERIVED && c != CREATED_DATE ==> out[c] == src[c])
    && CREATED_DATE in src && parseDate(src[CREATED_DATE]) == Some(out[CREATED_DATE])
    && out[WEEKDAY] == WeekdayCell(out[CREATED_DATE], dayName)
    && CONTENT in src && out[CONTAINS_SOURCE_WORD] == SourceFlag(src[CONTENT], source)
    && LIKES in src && out[LIKES_WEIGHTED] == (if runOldPipeline then WeightLikes(src[LIKES], mean) else src[LIKES])
  }

  /**
   * What a successful `clean` returns for `df`: one row per surviving input
   * row, in input order, each with content and derived from its input row
   * as `CleanedRow` says, under the input's columns and the three added ones.
   */
  predicate Cleaned(df: Frame, out: Frame, runOldPipeline: bool, source: string,
                    parseDate: Value -> Option<Value>, dayName: Value -> string)
  {
    && WellFormed(out)
    && out.columns == AddColumn(AddColumn(AddColumn(df.columns, WEEKDAY), CONTAINS_SOURCE_WORD), LIKES_WEIGHTED)
    && CleanedRows(out.rows, Kept(df.rows), runOldPipeline, source, parseDate, dayName)
  }

  /** Each row of `out` has content and is cleaned from the row of `kept` at its position, under the mean of `kept`'s likes. */
  predicate CleanedRows(out: seq<Row>, kept: seq<Row>, runOldPipeline: bool, source: string,
                        parseDate: Value -> Option<Value>, dayName: Value -> string)
  {
    && |out| == |kept|
    && forall k :: 0 <= k < |out| ==>
         && HasContent(out[k])
         && CleanedRow(out[k], kept[k], runOldPipeline, source, parseDate, dayName, Mean(LikesOf(kept)))
  }

  /** Parsing created_date leaves the content cell alone, so it commutes with `dropna(subset=["content"])`. */
  lemma ParseKeepsContent(parseDate: Value -> Option<Value>)
    ensures forall row :: HasContent(ParseWith(parseDate)(row)) == HasContent(row)
  {
    forall row ensures HasContent(ParseWith(parseDate)(row)) == HasContent(row) {
      assert ParseWith(parseDate)(row) == ParsedRow(row, parseDate);
    }
  }

  /** Dropping duplicates, parsing dates and dropping rows without content leaves the kept rows, dates parsed. */
  lemma PreparedRows(rows: seq<Row>, parseDate: Value -> Option<Value>)
    ensures Filter(MapSeq(Dedup(rows), ParseWith(parseDate)), HasContent) == MapSeq(Kept(rows), ParseWith(parseDate))
  {
    ParseKeepsContent(parseDate);
    FilterMapCommute(Dedup(rows), ParseWith(parseDate), HasContent, HasContent);
  }

  /** Parsing dates keeps a frame well formed. */
  lemma ParsedWellFormed(f: Frame, parseDate: Value -> Option<Value>)
    requires WellFormed(f)
    ensures WellFormed(Frame(f.columns, MapSeq(f.rows, ParseWith(parseDate))))
  {
    var rows := MapSeq(f.rows, ParseWith(parseDate));
    forall row | row in rows ensures HasColumns(row, f.columns) {
      var k :| 0 <= k < |rows| && rows[k] == row;
      assert f.rows[k] in f.rows;
    }
  }

  /** Filtering rows keeps a frame well formed. */
  lemma FilteredWellFormed(f: Frame, p: Row -> bool)
    requires WellFormed(f)
    ensures WellFormed(Frame(f.columns, Filter(f.rows, p)))
  {
  }

  /** The error lines 96-100 of `clean` raise, if any. */
  function PrepareError(df: Frame, parseDate: Value -> Option<Value>): Option<Error> {
    if CREATED_DATE !in df.columns then Some(KeyError([CREATED_DATE]))
    else if Any(df.rows, Unparsable(parseDate)) then Some(DateParseError)
    else if CONTENT !in df.columns then Some(KeyError([CONTENT]))
    else None
  }

  /** The error lines 102-125 of `clean` raise on the prepared frame, if any. */
  function DeriveError(f: Frame, runOldPipeline: bool): Option<Error> {
    if runOldPipeline && Any(f.rows, NaTDate) then Some(ValueError)
    else if runOldPipeline && Any(f.rows, NonTextContent) then Some(AttributeError)
    else if !runOldPipeline && f.rows != [] && !Any(f.rows, TextContent) then Some(AttributeError)
    else if LIKES !in f.columns then Some(KeyError([LIKES]))
    else if Any(f.rows, TextLikes) then Some(TypeError)
    else None
  }

  /**
   * pipeline.py:95-100: drop duplicate rows, parse created_date, drop rows
   * without content. What is left is the kept rows, their dates parsed.
   */
  method Prepare(df: Frame, parseDate: Value -> Option<Value>) returns (r: Result<Frame, Error>)
    requires WellFormed(df)
    ensures r.Failure? <==> PrepareError(df, parseDate).Some?
    ensures r.Failure? ==> PrepareError(df, parseDate) == Some(r.error)
    ensures r.Success? ==>
      WellFormed(r.value) && r.value.columns == df.columns && r.value.rows == MapSeq(Kept(df.rows), ParseWith(parseDate))
  {
    var deduped := Frame(df.columns, Dedup(df.rows));
    if CREATED_DATE !in deduped.columns {
      return Failure(KeyError([CREATED_DATE]));
    }
    AnySameMembers(deduped.rows, df.rows, Unparsable(parseDate));
    if Any(deduped.rows, Unparsable(parseDate)) {
      return Failure(DateParseError);
    }
    var parsed := Frame(deduped.columns, MapSeq(deduped.rows, ParseWith(parseDate)));
    ParsedWellFormed(deduped, parseDate);
    if CONTENT !in parsed.columns {
      return Failure(KeyError([CONTENT]));
    }
    FilteredWellFormed(parsed, HasContent);
    PreparedRows(df.rows, parseDate);
    return Success(Frame(parsed.columns, Filter(parsed.rows, HasContent)));
  }

  /** The cells lines 102-125 of `clean` add to one prepared row. */
  function DerivedRow(p: Row, runOldPipeline: bool, source: string, dayName: Value -> string, mean: Option<real>): Row
    requires CREATED_DATE in p && CONTENT in p && LIKES in p
  {
    p[WEEKDAY := WeekdayCell(p[CREATED_DATE], dayName)]
     [CONTAINS_SOURCE_WORD := SourceFlag(p[CONTENT], source)]
     [LIKES_WEIGHTED := if runOldPipeline then WeightLikes(p[LIKES], mean) else p[LIKES]]
  }

  /**
   * pipeline.py:102-125: add weekday, contains_source_word and
   * likes_weighted to the prepared frame, each row from its own cells and
   * the mean of the likes column.
   */
  method Derive(f: Frame, runOldPipeline: bool, source: string, dayName: Value -> string) returns (r: Result<Frame, Error>)
    requires WellFormed(f) && CREATED_DATE in f.columns && CONTENT in f.columns
    ensures r.Failure? <==> DeriveError(f, runOldPipeline).Some?
    ensures r.Failure? ==> DeriveError(f, runOldPipeline) == Some(r.error)
    ensures r.Success? ==>
      && WellFormed(r.value)
      && r.value.columns == AddColumn(AddColumn(AddColumn(f.columns, WEEKDAY), CONTAINS_SOURCE_WORD), LIKES_WEIGHTED)
      && |r.value.rows| == |f.rows|
      && LIKES in f.columns
      && forall k :: 0 <= k < |f.rows| ==>
           && CREATED_DATE in f.rows[k] && CONTENT in f.rows[k] && LIKES in f.rows[k]
           && r.value.rows[k] == DerivedRow(f.rows[k], runOldPipeline, source, dayName, Mean(LikesOf(f.rows)))
  {
    var dated := AddWeekday(f, runOldPipeline, dayName);
    if dated.Failure? {
      return Failure(dated.error);
    }
    var d := dated.value;
    CellsPresent(f, CONTENT);
    SameContentCells(f.rows, d.rows);
    var flagged := AddSourceFlag(d, runOldPipeline, source);
    if flagged.Failure? {
      return Failure(flagged.error);
    }
    var cur := flagged.value;
    if LIKES !in cur.columns {
      return Failure(KeyError([LIKES]));
    }
    CellsPresent(f, LIKES);
    SameLikesCells(f.rows, d.rows);
    SameLikesCells(d.rows, cur.rows);
    var weighted := AddLikesWeighted(cur, runOldPipeline);
    if weighted.Failure? {
      return Failure(weighted.error);
    }
    forall k | 0 <= k < |f.rows|
      ensures weighted.value.rows[k] == DerivedRow(f.rows[k], runOldPipeline, source, dayName, Mean(LikesOf(f.rows)))
    {
      DerivedRowSteps(f.rows[k], d.rows[k], cur.rows[k], weighted.value.rows[k], runOldPipeline, source, dayName, Mean(LikesOf(f.rows)));
    }
    return Success(weighted.value);
  }

  /** Every row of a well-formed frame has a cell in each of its columns. */
  lemma CellsPresent(f: Frame, c: string)
    requires WellFormed(f) && c in f.columns
    ensures forall k :: 0 <= k < |f.rows| ==> c in f.rows[k]
  {
    forall k | 0 <= k < |f.rows| ensures c in f.rows[k] {
      assert f.rows[k] in f.rows;
    }
  }

  /** Rows that agree on their content cells agree on whether some content is text and whether some is not. */
  lemma SameContentCells(a: seq<Row>, b: seq<Row>)
    requires |a| == |b|
    requires forall k :: 0 <= k < |a| ==> CONTENT in a[k] && CONTENT in b[k] && a[k][CONTENT] == b[k][CONTENT]
    ensures Any(a, NonTextContent) == Any(b, NonTextContent)
    ensures Any(a, TextContent) == Any(b, TextContent)
  {
    ExistsCorresponding(a, b, NonTextContent, NonTextContent);
    ExistsCorresponding(a, b, TextContent, TextContent);
  }

  /** Rows that agree on their likes cells have the same likes column. */
  lemma SameLikesCells(a: seq<Row>, b: seq<Row>)
    requires |a| == |b|
    requires forall k :: 0 <= k < |a| ==> LIKES in a[k] && LIKES in b[k] && a[k][LIKES] == b[k][LIKES]
    ensures LikesOf(a) == LikesOf(b)
    ensures Any(a, TextLikes) == Any(b, TextLikes)
  {
    ExistsCorresponding(a, b, TextLikes, TextLikes);
  }

  /** The three column assignments, one after the other, give `DerivedRow`. */
  lemma DerivedRowSteps(p: Row, dated: Row, flagged: Row, out: Row, runOldPipeline: bool, source: string,
                        dayName: Value -> string, mean: Option<real>)
    requires CREATED_DATE in p && CONTENT in p && LIKES in p
    requires dated == p[WEEKDAY := WeekdayCell(p[CREATED_DATE], dayName)]
    requires CONTENT in dated && flagged == dated[CONTAINS_SOURCE_WORD := SourceFlag(dated[CONTENT], source)]
    requires LIKES in flagged
    requires out == flagged[LIKES_WEIGHTED := if runOldPipeline then WeightLikes(flagged[LIKES], mean) else flagged[LIKES]]
    ensures out == DerivedRow(p, runOldPipeline, source, dayName, mean)
  {
  }

  /**
   * pipeline.py:102-106: weekday, the day name of each row's parsed date.
   * The old path calls `get_weekday`, whose `strftime` raises ValueError on
   * NaT; the new path's `.dt.day_name()` gives NaN there.
   */
  method AddWeekday(f: Frame, runOldPipeline: bool, dayName: Value -> string) returns (r: Result<Frame, Error>)
    requires WellFormed(f) && CREATED_DATE in f.columns
    ensures r.Failure? <==> runOldPipeline && Any(f.rows, NaTDate)
    ensures r.Failure? ==> r.error == ValueError
    ensures r.Success? ==>
      && WellFormed(r.value) && r.value.columns == AddColumn(f.columns, WEEKDAY) && |r.value.rows| == |f.rows|
      && forall k :: 0 <= k < |f.rows| ==>
           CREATED_DATE in f.rows[k] && r.value.rows[k] == f.rows[k][WEEKDAY := WeekdayCell(f.rows[k][CREATED_DATE], dayName)]
  {
    var dates := Column(f, CREATED_DATE);
    assert forall k :: 0 <= k < |f.rows| ==> f.rows[k] in f.rows;
    if runOldPipeline && exists k :: 0 <= k < |dates| && dates[k].Null? {
      return Failure(ValueError);
    }
    r := Success(SetColumn(f, WEEKDAY, MapSeq(dates, (d: Value) => WeekdayCell(d, dayName))));
  }

  /**
   * pipeline.py:107-114: contains_source_word. The old path calls
   * `contains_source_word` on each cell, which raises AttributeError on a
   * cell that is not text. The new path's `.str` accessor raises
   * AttributeError when the column holds no text at all, and otherwise
   * gives NaN for a cell that is not text.
   */
  method AddSourceFlag(f: Frame, runOldPipeline: bool, source: string) returns (r: Result<Frame, Error>)
    requires WellFormed(f) && CONTENT in f.columns
    ensures r.Failure? <==>
      || (runOldPipeline && Any(f.rows, NonTextContent))
      || (!runOldPipeline && f.rows != [] && !Any(f.rows, TextContent))
    ensures r.Failure? ==> r.error == AttributeError
    ensures r.Success? ==>
      && WellFormed(r.value) && r.value.columns == AddColumn(f.columns, CONTAINS_SOURCE_WORD) && |r.value.rows| == |f.rows|
      && forall k :: 0 <= k < |f.rows| ==>
           CONTENT in f.rows[k] && r.value.rows[k] == f.rows[k][CONTAINS_SOURCE_WORD := SourceFlag(f.rows[k][CONTENT], source)]
  {
    var contents := Column(f, CONTENT);
    assert forall k :: 0 <= k < |f.rows| ==> f.rows[k] in f.rows;
    if runOldPipeline && exists k :: 0 <= k < |contents| && !contents[k].Str? {
      return Failure(AttributeError);
    }
    if !runOldPipeline && |contents| > 0 && forall k :: 0 <= k < |contents| ==> !contents[k].Str? {
      return Failure(AttributeError);
    }
    r := Success(SetColumn(f, CONTAINS_SOURCE_WORD, MapSeq(contents, (c: Value) => SourceFlag(c, source))));
  }

  /**
   * pipeline.py:116-125: likes_weighted. The old path halves each count
   * above the mean of the column; the new path copies likes and then
   * assigns likes_weighted to itself on the above-mean rows, which changes
   * nothing. On both paths `mean()` raises TypeError on a count given as
   * text.
   */
  method AddLikesWeighted(f: Frame, runOldPipeline: bool) returns (r: Result<Frame, Error>)
    requires WellFormed(f) && LIKES in f.columns
    ensures r.Failure? <==> Any(f.rows, TextLikes)
    ensures r.Failure? ==> r.error == TypeError
    ensures r.Success? ==>
      && WellFormed(r.value) && r.value.columns == AddColumn(f.columns, LIKES_WEIGHTED) && |r.value.rows| == |f.rows|
      && forall k :: 0 <= k < |f.rows| ==>
           && LIKES in f.rows[k]
           && r.value.rows[k] == f.rows[k][LIKES_WEIGHTED := if runOldPipeline then WeightLikes(f.rows[k][LIKES], Mean(LikesOf(f.rows))) else f.rows[k][LIKES]]
  {
    var likes := Column(f, LIKES);
    assert likes == LikesOf(f.rows);
    assert forall k :: 0 <= k < |f.rows| ==> f.rows[k] in f.rows;
    if exists k :: 0 <= k < |likes| && likes[k].Str? {
      return Failure(TypeError);
    }
    var mean := Mean(likes);
    var w: Frame;
    if runOldPipeline {
      w := SetColumn(f, LIKES_WEIGHTED, MapSeq(likes, (v: Value) => WeightLikes(v, mean)));
    } else {
      w := SetColumn(f, LIKES_WEIGHTED, likes);
      SelfAssignmentIsNoOp(w, AboveMean(Column(w, LIKES), mean), LIKES_WEIGHTED);
      w := AssignWhere(w, AboveMean(Column(w, LIKES), mean), LIKES_WEIGHTED, Column(w, LIKES_WEIGHTED));
    }
    r := Success(w);
  }

  /** Parsing dates leaves the likes column as it was. */
  lemma ParseKeepsLikes(rows: seq<Row>, parseDate: Value -> Option<Value>)
    ensures LikesOf(MapSeq(rows, ParseWith(parseDate))) == LikesOf(rows)
  {
    var parsed := MapSeq(rows, ParseWith(parseDate));
    forall k | 0 <= k < |rows| ensures LikesOf(parsed)[k] == LikesOf(rows)[k] {
      assert parsed[k] == ParsedRow(rows[k], parseDate);
    }
  }

  /** Parsing dates touches only created_date, so the content and likes conditions read the same before and after. */
  lemma ParsedRowConditions(row: Row, parseDate: Value -> Option<Value>)
    ensures NonTextContent(ParsedRow(row, parseDate)) == NonTextContent(row)
    ensures TextContent(ParsedRow(row, parseDate)) == TextContent(row)
    ensures TextLikes(ParsedRow(row, parseDate)) == TextLikes(row)
  {
  }

  /** The conditions `clean` checks on the kept rows hold of some kept row exactly when they hold of some row after parsing. */
  lemma ConditionsSurviveParse(kept: seq<Row>, parseDate: Value -> Option<Value>)
    ensures Any(kept, ParsedNaT(parseDate)) == Any(MapSeq(kept, ParseWith(parseDate)), NaTDate)
    ensures Any(kept, NonTextContent) == Any(MapSeq(kept, ParseWith(parseDate)), NonTextContent)
    ensures Any(kept, TextContent) == Any(MapSeq(kept, ParseWith(parseDate)), TextContent)
    ensures Any(kept, TextLikes) == Any(MapSeq(kept, ParseWith(parseDate)), TextLikes)
  {
    var parsed := MapSeq(kept, ParseWith(parseDate));
    forall k | 0 <= k < |kept|
      ensures parsed[k] == ParsedRow(kept[k], parseDate)
      ensures ParsedNaT(parseDate)(kept[k]) == NaTDate(parsed[k])
      ensures NonTextContent(parsed[k]) == NonTextContent(kept[k])
      ensures TextContent(parsed[k]) == TextContent(kept[k])
      ensures TextLikes(parsed[k]) == TextLikes(kept[k])
    {
      ParsedRowConditions(kept[k], parseDate);
    }
    ExistsCorresponding(kept, parsed, ParsedNaT(parseDate), NaTDate);
    ExistsCorresponding(kept, parsed, NonTextContent, NonTextContent);
    ExistsCorresponding(kept, parsed, TextContent, TextContent);
    ExistsCorresponding(kept, parsed, TextLikes, TextLikes);
  }

  /** `clean`'s error is the preparation error, or else the derivation error on the prepared frame. */
  lemma CleanErrorSplit(df: Frame, runOldPipeline: bool, parseDate: Value -> Option<Value>)
    ensures PrepareError(df, parseDate).Some? ==> CleanError(df, runOldPipeline, parseDate) == PrepareError(df, parseDate)
    ensures PrepareError(df, parseDate).None? ==>
      CleanError(df, runOldPipeline, parseDate) == DeriveError(Frame(df.columns, MapSeq(Kept(df.rows), ParseWith(parseDate))), runOldPipeline)
  {
    if PrepareError(df, parseDate).None? {
      var kept := Kept(df.rows);
      var after := Frame(df.columns, MapSeq(kept, ParseWith(parseDate)));
      ConditionsSurviveParse(kept, parseDate);
      var natDate := Any(kept, ParsedNaT(parseDate));
      var nonText := Any(kept, NonTextContent);
      var someText := Any(kept, TextContent);
      var textLikes := Any(kept, TextLikes);
      assert CleanError(df, runOldPipeline, parseDate) ==
        if runOldPipeline && natDate then Some(ValueError)
        else if runOldPipeline && nonText then Some(AttributeError)
        else if !runOldPipeline && kept != [] && !someText then Some(AttributeError)
        else if LIKES !in df.columns then Some(KeyError([LIKES]))
        else if textLikes then Some(TypeError)
        else None;
      assert DeriveError(after, runOldPipeline) ==
        if runOldPipeline && natDate then Some(ValueError)
        else if runOldPipeline && nonText then Some(AttributeError)
        else if !runOldPipeline && kept != [] && !someText then Some(AttributeError)
        else if LIKES !in df.columns then Some(KeyError([LIKES]))
        else if textLikes then Some(TypeError)
        else None;
    }
  }

  /** A prepared row with its derived cells relates to its input row as `CleanedRow` says. */
  lemma DerivedRowMeetsSpec(src: Row, runOldPipeline: bool, source: string,
                            parseDate: Value -> Option<Value>, dayName: Value -> string, mean: Option<real>)
    requires CREATED_DATE in src && HasContent(src) && LIKES in src && parseDate(src[CREATED_DATE]).Some?
    ensures HasContent(DerivedRow(ParsedRow(src, parseDate), runOldPipeline, source, dayName, mean))
    ensures CleanedRow(DerivedRow(ParsedRow(src, parseDate), runOldPipeline, source, dayName, mean),
                       src, runOldPipeline, source, parseDate, dayName, mean)
  {
  }

  /**
   * pipeline.py:82-126: `clean`. On success the frame holds one row per
   * surviving input row, in input order, each derived from it as
   * `CleanedRow` says; otherwise the error is the first one `clean` meets.
   */
  method Clean(df: Frame, runOldPipeline: bool, source: string,
               parseDate: Value -> Option<Value>, dayName: Value -> string) returns (r: Result<Frame, Error>)
    requires WellFormed(df)
    ensures r.Failure? <==> CleanError(df, runOldPipeline, parseDate).Some?
    ensures r.Failure? ==> CleanError(df, runOldPipeline, parseDate) == Some(r.error)
    ensures r.Success? ==> Cleaned(df, r.value, runOldPipeline, source, parseDate, dayName)
  {
    CleanErrorSplit(df, runOldPipeline, parseDate);
    var prepared := Prepare(df, parseDate);
    if prepared.Failure? {
      return Failure(prepared.error);
    }
    r := Derive(prepared.value, runOldPipeline, source, dayName);
    if r.Success? {
      ghost var kept := Kept(df.rows);
      ParseKeepsLikes(kept, parseDate);
      forall k | 0 <= k < |r.value.rows|
        ensures HasContent(r.value.rows[k])
        ensures CleanedRow(r.value.rows[k], kept[k], runOldPipeline, source, parseDate, dayName, Mean(LikesOf(kept)))
      {
        assert kept[k] in df.rows;
        assert prepared.value.rows[k] == ParsedRow(kept[k], parseDate);
        DerivedRowMeetsSpec(kept[k], runOldPipeline, source, parseDate, dayName, Mean(LikesOf(kept)));
      }
    }
  }

  /**
   * Over the same surviving rows, the new path never changes a like count,
   * while the old path changes at least one as soon as two non-negative
   * counts differ: the two paths produce different likes_weighted columns.
   */
  lemma PathsDiverge(kept: seq<Row>, oldRows: seq<Row>, newRows: seq<Row>, source: string,
                     parseDate: Value -> Option<Value>, dayName: Value -> string, a: nat, b: nat)
    requires |oldRows| == |kept| && |newRows| == |kept|
    requires forall k :: 0 <= k < |kept| ==>
      CleanedRow(oldRows[k], kept[k], true, source, parseDate, dayName, Mean(LikesOf(kept)))
    requires forall k :: 0 <= k < |kept| ==>
      CleanedRow(newRows[k], kept[k], false, source, parseDate, dayName, Mean(LikesOf(kept)))
    requires a < |kept| && b < |kept|
    requires LikesOf(kept)[a].Num? && LikesOf(kept)[b].Num? && LikesOf(kept)[a].x != LikesOf(kept)[b].x
    requires forall k :: 0 <= k < |kept| && LikesOf(kept)[k].Num? ==> LikesOf(kept)[k].x >= 0.0
    ensures forall k :: 0 <= k < |kept| ==> LIKES in newRows[k] && LIKES_WEIGHTED in newRows[k] && newRows[k][LIKES_WEIGHTED] == newRows[k][LIKES]
    ensures exists k :: 0 <= k < |kept| && LIKES in oldRows[k] && LIKES_WEIGHTED in oldRows[k] && oldRows[k][LIKES_WEIGHTED] != oldRows[k][LIKES]
  {
    forall k | 0 <= k < |kept|
      ensures LIKES in newRows[k] && LIKES_WEIGHTED in newRows[k] && newRows[k][LIKES_WEIGHTED] == newRows[k][LIKES]
    {
      WeightedCell(newRows[k], kept[k], false, source, parseDate, dayName, Mean(LikesOf(kept)));
    }
    var likes := LikesOf(kept);
    OldPathDownWeights(likes, a, b);
    var k :| 0 <= k < |likes| && WeightLikes(likes[k], Mean(likes)) != likes[k];
    WeightedCell(oldRows[k], kept[k], true, source, parseDate, dayName, Mean(likes));
    assert likes[k] == kept[k][LIKES];
  }

  /** What a cleaned row holds in likes and likes_weighted. */
  lemma WeightedCell(out: Row, src: Row, runOldPipeline: bool, source: string,
                     parseDate: Value -> Option<Value>, dayName: Value -> string, mean: Option<real>)
    requires CleanedRow(out, src, runOldPipeline, source, parseDate, dayName, mean)
    ensures LIKES in src && LIKES in out && LIKES_WEIGHTED in out && out[LIKES] == src[LIKES]
    ensures out[LIKES_WEIGHTED] == if runOldPipeline then WeightLikes(src[LIKES], mean) else src[LIKES]
  {
    assert LIKES !in DERIVED;
  }

  /**
   * A frame consolidated from any source has every column `clean` reads, so
   * cleaning it never raises a KeyError: what can still go wrong is a date,
   * the content cells or the like counts.
   */
  lemma ConsolidatedFramesFitClean(df: Frame, source: string, runOldPipeline: bool, parseDate: Value -> Option<Value>)
    requires WellFormed(df)
    requires source in MAPPINGS ==> UnambiguousRename(MAPPINGS[source], df.columns)
    requires Consolidation(df, source).Success?
    ensures CleanError(Consolidation(df, source).value, runOldPipeline, parseDate).Some? ==>
      !CleanError(Consolidation(df, source).value, runOldPipeline, parseDate).value.KeyError?
  {
    var out := Consolidation(df, source).value;
    ConsolidatedColumns(df, source);
    ColumnsPresentNoKeyError(out, runOldPipeline, parseDate);
  }

  /** A consolidated frame carries content, likes and created_date. */
  lemma ConsolidatedColumns(df: Frame, source: string)
    requires WellFormed(df)
    requires source in MAPPINGS ==> UnambiguousRename(MAPPINGS[source], df.columns)
    requires Consolidation(df, source).Success?
    ensures var out := Consolidation(df, source).value;
      CONTENT in out.columns && LIKES in out.columns && CREATED_DATE in out.columns
  {
    MappingsCoverCanonical();
    assert CONTENT in CANONICAL && LIKES in CANONICAL && CREATED_DATE in CANONICAL;
  }

  /** With the three columns `clean` reads present, its error is never a KeyError. */
  lemma ColumnsPresentNoKeyError(f: Frame, runOldPipeline: bool, parseDate: Value -> Option<Value>)
    requires CONTENT in f.columns && LIKES in f.columns && CREATED_DATE in f.columns
    ensures CleanError(f, runOldPipeline, parseDate).Some? ==> !CleanError(f, runOldPipeline, parseDate).value.KeyError?
  {
  }
}
