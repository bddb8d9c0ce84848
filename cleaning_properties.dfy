/**
 * What `clean` (pipeline.py:82-126) promises about its output as a whole:
 * when its rows are free of duplicates, what a second run does, and when
 * every row holds a real date and a boolean source flag.
 */
module CleaningProperties {
  import opened Wrappers
  import opened Errors
  import opened Sequences
  import opened Frames
  import opened Config
  import opened Pipeline

  /** `pd.to_datetime` gives different values for the different created_date cells of `rows`. */
  predicate DatesSeparated(rows: seq<Row>, parseDate: Value -> Option<Value>) {
    forall i, j ::
      && 0 <= i < |rows| && 0 <= j < |rows| && CREATED_DATE in rows[i] && CREATED_DATE in rows[j]
      && parseDate(rows[i][CREATED_DATE]) == parseDate(rows[j][CREATED_DATE])
      ==> rows[i][CREATED_DATE] == rows[j][CREATED_DATE]
  }

  /** Two input rows without derived columns whose dates parse apart give equal cleaned rows only when they are equal. */
  lemma CleanedRowDeterminesInput(a: Row, b: Row, outA: Row, outB: Row, runOldPipeline: bool, source: string,
                                  parseDate: Value -> Option<Value>, dayName: Value -> string, mean: Option<real>)
    requires CleanedRow(outA, a, runOldPipeline, source, parseDate, dayName, mean)
    requires CleanedRow(outB, b, runOldPipeline, source, parseDate, dayName, mean)
    requires forall c :: c in DERIVED ==> c !in a && c !in b
    requires parseDate(a[CREATED_DATE]) == parseDate(b[CREATED_DATE]) ==> a[CREATED_DATE] == b[CREATED_DATE]
    ensures outA == outB ==> a == b
  {
    if outA == outB {
      assert a.Keys == outA.Keys - DERIVED;
      assert b.Keys == outB.Keys - DERIVED;
      forall c | c in a ensures a[c] == b[c] {
        assert c !in DERIVED;
      }
    }
  }

  /**
   * The cleaned rows are pairwise distinct when the input has none of the
   * derived columns and the date parser tells the surviving dates apart:
   * `drop_duplicates` runs before the dates are parsed, so two spellings of
   * one date are the only way a duplicate can come back.
   */
  lemma CleanedRowsDistinct(df: Frame, out: Frame, runOldPipeline: bool, source: string,
                            parseDate: Value -> Option<Value>, dayName: Value -> string)
    requires WellFormed(df) && forall c :: c in DERIVED ==> c !in df.columns
    requires DatesSeparated(Kept(df.rows), parseDate)
    requires Cleaned(df, out, runOldPipeline, source, parseDate, dayName)
    ensures Distinct(out.rows)
  {
    var kept := Kept(df.rows);
    var mean := Mean(LikesOf(kept));
    forall i, j | 0 <= i < j < |out.rows| ensures out.rows[i] != out.rows[j] {
      assert kept[i] in df.rows && kept[j] in df.rows;
      assert HasColumns(kept[i], df.columns) && HasColumns(kept[j], df.columns);
      CleanedRowDeterminesInput(kept[i], kept[j], out.rows[i], out.rows[j], runOldPipeline, source, parseDate, dayName, mean);
    }
  }

  /** Cleaning a cleaned row again, with its parsed date parsing to itself and the same mean, gives the row back. */
  lemma RecleanedRow(again: Row, out: Row, src: Row, runOldPipeline: bool, source: string,
                     parseDate: Value -> Option<Value>, dayName: Value -> string, mean: Option<real>)
    requires CleanedRow(out, src, runOldPipeline, source, parseDate, dayName, mean)
    requires CleanedRow(again, out, runOldPipeline, source, parseDate, dayName, mean)
    requires parseDate(out[CREATED_DATE]) == Some(out[CREATED_DATE])
    ensures again == out
  {
    assert again.Keys == out.Keys;
    forall c | c in out ensures again[c] == out[c] {
      if c !in DERIVED && c != CREATED_DATE {
      } else if c == WEEKDAY || c == CREATED_DATE {
      } else {
        assert CONTENT !in DERIVED && LIKES !in DERIVED;
      }
    }
  }

  /** A cleaned row keeps its input row's content and likes, and holds its parsed date. */
  lemma CleanedRowCells(out: Row, src: Row, runOldPipeline: bool, source: string,
                        parseDate: Value -> Option<Value>, dayName: Value -> string, mean: Option<real>)
    requires CleanedRow(out, src, runOldPipeline, source, parseDate, dayName, mean)
    ensures CONTENT in out && CONTENT in src && out[CONTENT] == src[CONTENT]
    ensures LIKES in out && LIKES in src && out[LIKES] == src[LIKES]
    ensures CREATED_DATE in out && parseDate(src[CREATED_DATE]) == Some(out[CREATED_DATE])
  {
    assert CONTENT !in DERIVED && LIKES !in DERIVED;
  }

  /** The cleaned rows carry the like counts of the kept rows. */
  lemma CleanedLikes(out: seq<Row>, kept: seq<Row>, runOldPipeline: bool, source: string,
                     parseDate: Value -> Option<Value>, dayName: Value -> string)
    requires CleanedRows(out, kept, runOldPipeline, source, parseDate, dayName)
    ensures LikesOf(out) == LikesOf(kept)
  {
    forall k | 0 <= k < |out| ensures LikesOf(out)[k] == LikesOf(kept)[k] {
      CleanedRowCells(out[k], kept[k], runOldPipeline, source, parseDate, dayName, Mean(LikesOf(kept)));
    }
  }

  /** The checks of `clean` read the same on the cleaned rows as on the kept rows they came from. */
  lemma CleanedConditions(out: seq<Row>, kept: seq<Row>, runOldPipeline: bool, source: string,
                          parseDate: Value -> Option<Value>, dayName: Value -> string)
    requires CleanedRows(out, kept, runOldPipeline, source, parseDate, dayName)
    requires forall k :: 0 <= k < |out| && CREATED_DATE in out[k] ==> parseDate(out[k][CREATED_DATE]) == Some(out[k][CREATED_DATE])
    ensures Any(out, ParsedNaT(parseDate)) == Any(kept, ParsedNaT(parseDate))
    ensures Any(out, NonTextContent) == Any(kept, NonTextContent)
    ensures Any(out, TextContent) == Any(kept, TextContent)
    ensures Any(out, TextLikes) == Any(kept, TextLikes)
  {
    forall k | 0 <= k < |out|
      ensures ParsedNaT(parseDate)(out[k]) == ParsedNaT(parseDate)(kept[k])
      ensures NonTextContent(out[k]) == NonTextContent(kept[k])
      ensures TextContent(out[k]) == TextContent(kept[k])
      ensures TextLikes(out[k]) == TextLikes(kept[k])
    {
      CleanedRowCells(out[k], kept[k], runOldPipeline, source, parseDate, dayName, Mean(LikesOf(kept)));
      assert ParsedRow(out[k], parseDate)[CREATED_DATE] == out[k][CREATED_DATE];
    }
    ExistsCorresponding(out, kept, ParsedNaT(parseDate), ParsedNaT(parseDate));
    ExistsCorresponding(out, kept, NonTextContent, NonTextContent);
    ExistsCorresponding(out, kept, TextContent, TextContent);
    ExistsCorresponding(out, kept, TextLikes, TextLikes);
  }

  /** Cleaned rows without repeats are what `drop_duplicates` and `dropna` keep of them. */
  lemma CleanedRowsKept(out: seq<Row>, kept: seq<Row>, runOldPipeline: bool, source: string,
                        parseDate: Value -> Option<Value>, dayName: Value -> string)
    requires CleanedRows(out, kept, runOldPipeline, source, parseDate, dayName)
    requires Distinct(out)
    ensures Kept(out) == out
  {
    DedupOfDistinct(out);
    FilterAll(out, HasContent);
  }

  /** Every row of the cleaned rows parses again, to itself. */
  lemma CleanedRowsParse(out: seq<Row>, parseDate: Value -> Option<Value>)
    requires forall k :: 0 <= k < |out| ==> CREATED_DATE in out[k]
    requires forall k :: 0 <= k < |out| && CREATED_DATE in out[k] ==> parseDate(out[k][CREATED_DATE]) == Some(out[k][CREATED_DATE])
    ensures !Any(out, Unparsable(parseDate))
  {
  }

  /** The three added columns, on top of `columns`; adding them to a list that has them changes nothing. */
  lemma AddedColumns(columns: seq<string>)
    ensures var added := AddColumn(AddColumn(AddColumn(columns, WEEKDAY), CONTAINS_SOURCE_WORD), LIKES_WEIGHTED);
      && (forall c :: c in columns ==> c in added)
      && AddColumn(AddColumn(AddColumn(added, WEEKDAY), CONTAINS_SOURCE_WORD), LIKES_WEIGHTED) == added
  {
  }

  /**
   * A second `clean` of a duplicate-free output whose parsed dates parse to
   * themselves raises nothing: every check reads on the output as it read
   * on the rows it came from.
   */
  lemma CleanAgainRaisesNothing(df: Frame, out: Frame, runOldPipeline: bool, source: string,
                                parseDate: Value -> Option<Value>, dayName: Value -> string)
    requires CleanError(df, runOldPipeline, parseDate).None?
    requires Cleaned(df, out, runOldPipeline, source, parseDate, dayName)
    requires Distinct(out.rows)
    requires forall k :: 0 <= k < |out.rows| && CREATED_DATE in out.rows[k] ==>
      parseDate(out.rows[k][CREATED_DATE]) == Some(out.rows[k][CREATED_DATE])
    ensures CleanError(out, runOldPipeline, parseDate).None?
  {
    CleanedRowsChecks(out.rows, Kept(df.rows), runOldPipeline, source, parseDate, dayName);
    AddedColumns(df.columns);
    CleanChecksCarryOver(df, out, runOldPipeline, parseDate);
  }

  /** Duplicate-free cleaned rows whose dates parse to themselves survive a second preparation and read every check as their kept rows do. */
  lemma CleanedRowsChecks(out: seq<Row>, kept: seq<Row>, runOldPipeline: bool, source: string,
                          parseDate: Value -> Option<Value>, dayName: Value -> string)
    requires CleanedRows(out, kept, runOldPipeline, source, parseDate, dayName)
    requires Distinct(out)
    requires forall k :: 0 <= k < |out| && CREATED_DATE in out[k] ==> parseDate(out[k][CREATED_DATE]) == Some(out[k][CREATED_DATE])
    ensures Kept(out) == out && |out| == |kept|
    ensures !Any(out, Unparsable(parseDate))
    ensures Any(out, ParsedNaT(parseDate)) == Any(kept, ParsedNaT(parseDate))
    ensures Any(out, NonTextContent) == Any(kept, NonTextContent)
    ensures Any(out, TextContent) == Any(kept, TextContent)
    ensures Any(out, TextLikes) == Any(kept, TextLikes)
  {
    CleanedRowsKept(out, kept, runOldPipeline, source, parseDate, dayName);
    CleanedConditions(out, kept, runOldPipeline, source, parseDate, dayName);
    forall k | 0 <= k < |out| ensures CREATED_DATE in out[k] {
      CleanedRowCells(out[k], kept[k], runOldPipeline, source, parseDate, dayName, Mean(LikesOf(kept)));
    }
    CleanedRowsParse(out, parseDate);
  }

  /** A frame whose rows are their own kept rows and read every check as the kept rows of `df` do passes them as `df` does. */
  lemma CleanChecksCarryOver(df: Frame, out: Frame, runOldPipeline: bool, parseDate: Value -> Option<Value>)
    requires CleanError(df, runOldPipeline, parseDate).None?
    requires CREATED_DATE in out.columns && CONTENT in out.columns && LIKES in out.columns
    requires Kept(out.rows) == out.rows && |out.rows| == |Kept(df.rows)|
    requires !Any(out.rows, Unparsable(parseDate))
    requires Any(out.rows, ParsedNaT(parseDate)) == Any(Kept(df.rows), ParsedNaT(parseDate))
    requires Any(out.rows, NonTextContent) == Any(Kept(df.rows), NonTextContent)
    requires Any(out.rows, TextContent) == Any(Kept(df.rows), TextContent)
    requires Any(out.rows, TextLikes) == Any(Kept(df.rows), TextLikes)
    ensures CleanError(out, runOldPipeline, parseDate).None?
  {
    var before := Kept(df.rows);
    assert CREATED_DATE in df.columns && CONTENT in df.columns;
    assert runOldPipeline ==> !Any(before, ParsedNaT(parseDate)) && !Any(before, NonTextContent);
    assert !runOldPipeline ==> before == [] || Any(before, TextContent);
    assert !Any(before, TextLikes);
  }

  /** A second `clean` of the rows of a first one, under the same conditions, gives those rows back. */
  lemma RecleanedRows(again: seq<Row>, out: seq<Row>, kept: seq<Row>, runOldPipeline: bool, source: string,
                      parseDate: Value -> Option<Value>, dayName: Value -> string)
    requires CleanedRows(out, kept, runOldPipeline, source, parseDate, dayName)
    requires CleanedRows(again, out, runOldPipeline, source, parseDate, dayName)
    requires forall k :: 0 <= k < |out| && CREATED_DATE in out[k] ==> parseDate(out[k][CREATED_DATE]) == Some(out[k][CREATED_DATE])
    ensures again == out
  {
    CleanedLikes(out, kept, runOldPipeline, source, parseDate, dayName);
    var mean := Mean(LikesOf(kept));
    forall k | 0 <= k < |out| ensures again[k] == out[k] {
      CleanedRowCells(out[k], kept[k], runOldPipeline, source, parseDate, dayName, mean);
      RecleanedRow(again[k], out[k], kept[k], runOldPipeline, source, parseDate, dayName, mean);
    }
  }

  /**
   * `clean` is idempotent on its own output when that output has no
   * duplicate rows and `pd.to_datetime` leaves a parsed date as it is: the
   * second run returns the same frame.
   */
  lemma CleanAgainSameFrame(df: Frame, out: Frame, again: Frame, runOldPipeline: bool, source: string,
                            parseDate: Value -> Option<Value>, dayName: Value -> string)
    requires Cleaned(df, out, runOldPipeline, source, parseDate, dayName)
    requires Distinct(out.rows)
    requires forall k :: 0 <= k < |out.rows| && CREATED_DATE in out.rows[k] ==>
      parseDate(out.rows[k][CREATED_DATE]) == Some(out.rows[k][CREATED_DATE])
    requires Cleaned(out, again, runOldPipeline, source, parseDate, dayName)
    ensures again == out
  {
    var kept := Kept(df.rows);
    CleanedRowsKept(out.rows, kept, runOldPipeline, source, parseDate, dayName);
    RecleanedRows(again.rows, out.rows, kept, runOldPipeline, source, parseDate, dayName);
    AddedColumns(df.columns);
  }

  /** A date parser that reads "01/02/2024" and "1/2/2024" as the same day. */
  function SameDaySpellings(v: Value): Option<Value> {
    if v == Str("01/02/2024") || v == Str("1/2/2024") then Some(Date(0)) else Some(v)
  }

  const ROW_LONG_DATE: Row := map[CREATED_DATE := Str("01/02/2024"), CONTENT := Str("great"), LIKES := Num(1.0)]
  const ROW_SHORT_DATE: Row := map[CREATED_DATE := Str("1/2/2024"), CONTENT := Str("great"), LIKES := Num(1.0)]

  /** Two reviews that differ only in how the same date is written. */
  const TWO_SPELLINGS: Frame := Frame([CREATED_DATE, CONTENT, LIKES], [ROW_LONG_DATE, ROW_SHORT_DATE])

  /** Two input rows that differ at most in how created_date is written, and parse to the same date, clean to the same row. */
  lemma SameCleanedRow(outA: Row, outB: Row, a: Row, b: Row, runOldPipeline: bool, source: string,
                       parseDate: Value -> Option<Value>, dayName: Value -> string, mean: Option<real>)
    requires CleanedRow(outA, a, runOldPipeline, source, parseDate, dayName, mean)
    requires CleanedRow(outB, b, runOldPipeline, source, parseDate, dayName, mean)
    requires a.Keys == b.Keys
    requires forall c :: c in a && c != CREATED_DATE ==> a[c] == b[c]
    requires parseDate(a[CREATED_DATE]) == parseDate(b[CREATED_DATE])
    ensures outA == outB
  {
    forall c | c in outA ensures outA[c] == outB[c] {
      if c !in DERIVED && c != CREATED_DATE {
      } else if c == WEEKDAY || c == CREATED_DATE {
      } else {
        assert CONTENT !in DERIVED && LIKES !in DERIVED;
      }
    }
  }

  /** A frame with the three columns `clean` reads, whose kept rows pass every check, raises nothing. */
  lemma CleanPasses(df: Frame, runOldPipeline: bool, parseDate: Value -> Option<Value>)
    requires CREATED_DATE in df.columns && CONTENT in df.columns && LIKES in df.columns
    requires !Any(df.rows, Unparsable(parseDate))
    requires !Any(Kept(df.rows), ParsedNaT(parseDate)) && !Any(Kept(df.rows), NonTextContent)
    requires Any(Kept(df.rows), TextContent) && !Any(Kept(df.rows), TextLikes)
    ensures CleanError(df, runOldPipeline, parseDate).None?
  {
  }

  /** Both rows survive `drop_duplicates` and `dropna`. */
  lemma TwoSpellingsKept()
    ensures Kept(TWO_SPELLINGS.rows) == TWO_SPELLINGS.rows
  {
    var rows := TWO_SPELLINGS.rows;
    assert ROW_LONG_DATE[CREATED_DATE] != ROW_SHORT_DATE[CREATED_DATE];
    DedupOfDistinct(rows);
    FilterAll(rows, HasContent);
  }

  /** Neither spelling of the date fails to parse or gives NaT, and both rows hold text content and numeric likes. */
  lemma TwoSpellingsPass()
    ensures !Any(TWO_SPELLINGS.rows, Unparsable(SameDaySpellings)) && !Any(TWO_SPELLINGS.rows, ParsedNaT(SameDaySpellings))
    ensures !Any(TWO_SPELLINGS.rows, NonTextContent) && !Any(TWO_SPELLINGS.rows, TextLikes)
    ensures Any(TWO_SPELLINGS.rows, TextContent)
  {
    var rows := TWO_SPELLINGS.rows;
    forall k | 0 <= k < |rows|
      ensures !Unparsable(SameDaySpellings)(rows[k]) && !ParsedNaT(SameDaySpellings)(rows[k])
      ensures !NonTextContent(rows[k]) && !TextLikes(rows[k])
    {
      assert ParsedRow(rows[k], SameDaySpellings)[CREATED_DATE] == Date(0);
    }
    assert TextContent(rows[0]);
  }

  /** `clean` raises nothing on the two spellings. */
  lemma TwoSpellingsRaiseNothing(runOldPipeline: bool)
    ensures CleanError(TWO_SPELLINGS, runOldPipeline, SameDaySpellings).None?
  {
    TwoSpellingsKept();
    TwoSpellingsPass();
    CleanPasses(TWO_SPELLINGS, runOldPipeline, SameDaySpellings);
  }

  /** The two rows differ only in created_date, and both spellings parse to the same day. */
  lemma TwoSpellingsAgree()
    ensures ROW_LONG_DATE != ROW_SHORT_DATE
    ensures ROW_LONG_DATE.Keys == ROW_SHORT_DATE.Keys
    ensures forall c :: c in ROW_LONG_DATE && c != CREATED_DATE ==> ROW_LONG_DATE[c] == ROW_SHORT_DATE[c]
    ensures SameDaySpellings(ROW_LONG_DATE[CREATED_DATE]) == SameDaySpellings(ROW_SHORT_DATE[CREATED_DATE])
  {
    assert ROW_LONG_DATE[CREATED_DATE] != ROW_SHORT_DATE[CREATED_DATE];
  }

  /** Any output `clean` may give on the two spellings holds the same row twice. */
  lemma TwoSpellingsCleanTwice(out: Frame, runOldPipeline: bool, source: string, dayName: Value -> string)
    requires Cleaned(TWO_SPELLINGS, out, runOldPipeline, source, SameDaySpellings, dayName)
    ensures |out.rows| == 2 && out.rows[0] == out.rows[1]
  {
    TwoSpellingsKept();
    TwoSpellingsAgree();
    var rows := TWO_SPELLINGS.rows;
    var mean := Mean(LikesOf(rows));
    assert CleanedRow(out.rows[0], ROW_LONG_DATE, runOldPipeline, source, SameDaySpellings, dayName, mean);
    assert CleanedRow(out.rows[1], ROW_SHORT_DATE, runOldPipeline, source, SameDaySpellings, dayName, mean);
    SameCleanedRow(out.rows[0], out.rows[1], ROW_LONG_DATE, ROW_SHORT_DATE, runOldPipeline, source, SameDaySpellings, dayName, mean);
  }

  /**
   * The duplicate check runs before the dates are parsed, so two spellings
   * of one date both survive and `clean` returns two identical rows.
   */
  lemma CleanCanRepeatRows(out: Frame, runOldPipeline: bool, source: string, dayName: Value -> string)
    ensures ROW_LONG_DATE != ROW_SHORT_DATE
    ensures CleanError(TWO_SPELLINGS, runOldPipeline, SameDaySpellings).None?
    ensures Cleaned(TWO_SPELLINGS, out, runOldPipeline, source, SameDaySpellings, dayName) ==>
      |out.rows| == 2 && out.rows[0] == out.rows[1]
  {
    TwoSpellingsAgree();
    TwoSpellingsRaiseNothing(runOldPipeline);
    if Cleaned(TWO_SPELLINGS, out, runOldPipeline, source, SameDaySpellings, dayName) {
      TwoSpellingsCleanTwice(out, runOldPipeline, source, dayName);
    }
  }

  /**
   * On the old path every cleaned row holds a parsed date that is not NaT,
   * a weekday name and a boolean source flag, because a NaT date or a
   * non-text content stops `clean` with an error.
   */
  lemma OldPathRowsComplete(out: seq<Row>, kept: seq<Row>, source: string,
                            parseDate: Value -> Option<Value>, dayName: Value -> string)
    requires CleanedRows(out, kept, true, source, parseDate, dayName)
    requires !Any(kept, ParsedNaT(parseDate)) && !Any(kept, NonTextContent)
    ensures forall k :: 0 <= k < |out| ==>
      && CREATED_DATE in out[k] && !out[k][CREATED_DATE].Null?
      && WEEKDAY in out[k] && out[k][WEEKDAY].Str?
      && CONTAINS_SOURCE_WORD in out[k] && out[k][CONTAINS_SOURCE_WORD].Bool?
  {
    forall k | 0 <= k < |out|
      ensures CREATED_DATE in out[k] && !out[k][CREATED_DATE].Null?
      ensures WEEKDAY in out[k] && out[k][WEEKDAY].Str?
      ensures CONTAINS_SOURCE_WORD in out[k] && out[k][CONTAINS_SOURCE_WORD].Bool?
    {
      CleanedRowCells(out[k], kept[k], true, source, parseDate, dayName, Mean(LikesOf(kept)));
      assert !ParsedNaT(parseDate)(kept[k]) && !NonTextContent(kept[k]);
      assert ParsedRow(kept[k], parseDate)[CREATED_DATE] == out[k][CREATED_DATE];
      assert WEEKDAY in DERIVED && CONTAINS_SOURCE_WORD in DERIVED;
    }
  }

  /** A successful old-path `clean` returns only rows with a real date, a weekday name and a boolean source flag. */
  lemma OldPathCleanComplete(df: Frame, out: Frame, source: string,
                             parseDate: Value -> Option<Value>, dayName: Value -> string)
    requires CleanError(df, true, parseDate).None?
    requires Cleaned(df, out, true, source, parseDate, dayName)
    ensures forall k :: 0 <= k < |out.rows| ==>
      && CREATED_DATE in out.rows[k] && !out.rows[k][CREATED_DATE].Null?
      && WEEKDAY in out.rows[k] && out.rows[k][WEEKDAY].Str?
      && CONTAINS_SOURCE_WORD in out.rows[k] && out.rows[k][CONTAINS_SOURCE_WORD].Bool?
  {
    OldPathChecks(df, parseDate);
    OldPathRowsComplete(out.rows, Kept(df.rows), source, parseDate, dayName);
  }

  /** An old-path `clean` that raises nothing met no NaT date and no non-text content among the kept rows. */
  lemma OldPathChecks(df: Frame, parseDate: Value -> Option<Value>)
    requires CleanError(df, true, parseDate).None?
    ensures !Any(Kept(df.rows), ParsedNaT(parseDate)) && !Any(Kept(df.rows), NonTextContent)
  {
  }

  /** A date parser that leaves every cell as it is, a missing one included. */
  function KeepCell(v: Value): Option<Value> {
    Some(v)
  }

  const ROW_NO_DATE: Row := map[CREATED_DATE := Null, CONTENT := Str("great"), LIKES := Num(1.0)]

  /** One review with text and likes but no date. */
  const NO_DATE: Frame := Frame([CREATED_DATE, CONTENT, LIKES], [ROW_NO_DATE])

  /** The undated review survives duplicate and null removal. */
  lemma NoDateKept()
    ensures Kept(NO_DATE.rows) == NO_DATE.rows
  {
    DedupOfDistinct(NO_DATE.rows);
    FilterAll(NO_DATE.rows, HasContent);
  }

  /** Its date parses, to NaT; its content is text and its likes a number. */
  lemma NoDateRowConditions()
    ensures !Any(NO_DATE.rows, Unparsable(KeepCell)) && Any(NO_DATE.rows, ParsedNaT(KeepCell))
    ensures Any(NO_DATE.rows, TextContent) && !Any(NO_DATE.rows, NonTextContent) && !Any(NO_DATE.rows, TextLikes)
  {
    var rows := NO_DATE.rows;
    assert ParsedRow(rows[0], KeepCell)[CREATED_DATE] == Null;
    assert ParsedNaT(KeepCell)(rows[0]) && TextContent(rows[0]);
    forall k | 0 <= k < |rows|
      ensures !Unparsable(KeepCell)(rows[k]) && !NonTextContent(rows[k]) && !TextLikes(rows[k])
    {
    }
  }

  /** The undated review: the old path stops with ValueError (`strftime` on NaT), the new path raises nothing. */
  lemma NoDateErrors()
    ensures CleanError(NO_DATE, true, KeepCell) == Some(ValueError)
    ensures CleanError(NO_DATE, false, KeepCell).None?
  {
    NoDateKept();
    NoDateRowConditions();
    assert CREATED_DATE in NO_DATE.columns && CONTENT in NO_DATE.columns && LIKES in NO_DATE.columns;
  }

  /** Whatever the new path returns for the undated review keeps it, with a NaT date and a NaN weekday. */
  lemma NoDateCleaned(out: Frame, source: string, dayName: Value -> string)
    requires Cleaned(NO_DATE, out, false, source, KeepCell, dayName)
    ensures |out.rows| == 1 && out.rows[0][CREATED_DATE] == Null && out.rows[0][WEEKDAY] == Null
  {
    NoDateKept();
    assert CleanedRow(out.rows[0], ROW_NO_DATE, false, source, KeepCell, dayName, Mean(LikesOf(NO_DATE.rows)));
    assert WEEKDAY in DERIVED;
  }

  /**
   * A review without a date: the old path stops with ValueError, while the
   * new path raises nothing and keeps the row with a NaT date and a NaN
   * weekday.
   */
  lemma NewPathKeepsMissingDate(out: Frame, source: string, dayName: Value -> string)
    ensures CleanError(NO_DATE, true, KeepCell) == Some(ValueError)
    ensures CleanError(NO_DATE, false, KeepCell).None?
    ensures Cleaned(NO_DATE, out, false, source, KeepCell, dayName) ==>
      |out.rows| == 1 && out.rows[0][CREATED_DATE] == Null && out.rows[0][WEEKDAY] == Null
  {
    NoDateErrors();
    if Cleaned(NO_DATE, out, false, source, KeepCell, dayName) {
      NoDateCleaned(out, source, dayName);
    }
  }
}
