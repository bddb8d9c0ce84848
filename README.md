# Review ingestion and retrieval helpers of two-agent-approach

This project models, in Dafny, the data path of the review assistant.

- **Column mapping.** App-store reviews from three sources (chatgpt, netflix, spotify) are renamed to a common set of columns using the per-source table in `config.py`.
- **Consolidation.** Each frame is cut down to the mapped columns (`consolidation`).
- **Cleaning.** Each frame is cleaned by `clean`:
  - duplicate rows are dropped;
  - `created_date` is parsed;
  - rows without content are dropped;
  - `weekday`, `contains_source_word` and `likes_weighted` are derived.
  Both the old and the new code paths are modelled.
- **Embedding preparation.** Each frame is shaped into texts and metadata records for the vector store (`create_embeddings`).
- **Chat front end.**
  - `stream_parser` turns a model's streamed chunks into displayable text.
  - `get_context` finds the retrieved context among the chunks.
  - `_format_docs` joins retrieved documents into one prompt context.

Files:

- `wrappers.dfy`: `Option` and `Result`, and the Python exceptions the code can raise (`KeyError`, `ValueError`, `TypeError`, `AttributeError`, a date-parse error, `NotImplementedError`).
- `sequences.dfy`: subsequences, filter, map, deduplication and `list.remove`.
- `text.dfy`: `str.lower`, `in` on strings, `str.join`, and splitting at blank lines.
- `frames.dfy`: a data frame as a list of column labels plus a list of rows. Each row is a map from label to cell. The file also holds column reads and writes.
- `config.dfy`: the `MAPPINGS` table and the column labels the cleaning and embedding steps read and add.
- `pipeline.dfy`: `consolidation`, `contains_source_word`, `weigth_likes`, and `clean` with its stages.
- `cleaning_properties.dfy`: what `clean`'s output satisfies as a whole: when its rows are pairwise distinct, what a second run of `clean` on it does, and on which path every row holds a real date and a boolean source flag.
- `app_utils.dfy`: `stream_parser` and `get_context`.
- `llm.dfy`: `_format_docs` and `create_embeddings`. `create_embeddings` is modelled as a method on a `DataFrame` object, because it overwrites two columns of the caller's frame in place.

## How the model is built

- **`clean` is a method.** It rebinds the frame step by step, as the source does. The methods `Prepare`, `AddWeekday`, `AddSourceFlag` and `AddLikesWeighted` follow the source's blocks one to one.
- **Specification.** Its contract ties the result to the specification functions `Kept`, `CleanedRow` and `CleanError`.
- **Errors.** The exceptions listed here are modelled as a `Failure` carrying that exception; what else the libraries can raise is under "Left out". The list:
  - a missing source in `MAPPINGS`;
  - missing columns;
  - an unparsable date;
  - a missing date (NaT) on the old path, where `strftime` raises ValueError;
  - non-text content on the old path (AttributeError from `lower`);
  - a content column without any text on the new path (AttributeError from the `.str` accessor);
  - a like count given as text (TypeError from `mean()`);
  - a chunk without a message;
  - an unknown model type;
  - a frame without content in `create_embeddings`.
- **Library calls become parameters.**
  - `pd.to_datetime` on one cell is `parseDate`; `None` means the value does not parse.
  - `get_weekday` / `.dt.day_name()` is `dayName`.
  - Python's `str()` on a cell is `str`.
- **A generator is modelled by what its consumer sees when reading it to the end:** the values yielded and the exception it stops with (`Drained`).

## Model

| member | source | states |
|---|---|---|
| Config.MappingSources | config.py:1-27 | the table has exactly the keys chatgpt, netflix and spotify, the sources the entry point walks through |
| Config.MappingsInjective | config.py:2-26 | within every table the raw columns are pairwise distinct and so are the canonical columns, so renaming is injective and the selection has no duplicate labels |
| Config.MappingsCoverCanonical | config.py:2-26 | every table maps some raw column to each of content, score, likes and created_date |
| Config.SpotifyExtras | config.py:2-26 | spotify alone yields reply, and it yields neither review_version nor version |
| Config.ChatgptExtras | config.py:2-26 | chatgpt alone yields id and name |
| Config.MappingsDiffer | config.py:2-26 | the differences above stated on MAPPINGS, and netflix's canonical columns begin with created_date |
| Pipeline.RenameKey | pipeline.py:17 | a raw column of the table is renamed to its canonical label |
| Pipeline.RenameOther | pipeline.py:17 | a column that is not a key of the table keeps its label |
| Pipeline.Consolidate | pipeline.py:17-18 | fails with a KeyError listing exactly the canonical labels no column is renamed to; otherwise the columns are the table's values in declared order, the row count is kept, and every cell is the cell of the raw column renamed to its label |
| Pipeline.Consolidation | pipeline.py:6-19 | an unknown source is a KeyError; otherwise the outcome and columns are those of the source's table |
| Pipeline.SourceOfUnique | pipeline.py:17-18 | with no two columns renamed to the same canonical label, each canonical column is read from the one raw column renamed to it |
| Pipeline.ExportUnambiguous | pipeline.py:17 | a frame holding every raw column of a table and no other column with a canonical label is renamed without clashes |
| Pipeline.ExportHasAllTargets | pipeline.py:17-18 | on such a frame every canonical label is present after renaming |
| Pipeline.ExportConsolidates | pipeline.py:17-18 | on such a frame consolidation succeeds, keeps rows in order, and column `m[i].1` of the output equals column `m[i].0` of the input |
| Pipeline.NetflixCommentedRenamed | config.py:12-19 | the netflix header written in config.py's comments renames to id, name, content, score, likes, created_date, at, version |
| Pipeline.NetflixCommentedUnambiguous | config.py:12-19 | that header renames without clashes, so consolidation applies to it |
| Pipeline.NetflixCommentedHeaderFails | config.py:33 | a frame under that header fails netflix consolidation with a KeyError naming exactly review_version: the header lacks reviewCreatedVersion |
| Text.Lower | pipeline.py:59 | `lower()` keeps the length, leaves no ASCII capital, folds each capital to the letter 32 code points up, and changes nothing else |
| Text.SubstringWitness | pipeline.py:59 | Python's `in` on strings holds exactly when some position starts an occurrence |
| Pipeline.ContainsSourceWord | pipeline.py:48-62 | true exactly when the source name occurs at some position of the lower-cased content |
| Pipeline.CapitalisedSourceNeverMatches | pipeline.py:59 | a source name containing a capital letter never matches, because only the content is lower-cased |
| Pipeline.MatchIgnoresContentCase | pipeline.py:59 | a lower-case source name matches whatever case the review writes it in |
| Pipeline.SourceWordExamples | pipeline.py:59-62 | "I love netflix" contains netflix; "great app" does not |
| Pipeline.WeightLikes | pipeline.py:65-79 | the count changes exactly when it is a number above the mean (and not zero), and then it is halved; a non-negative count never grows or goes negative |
| Pipeline.Mean | pipeline.py:119 | `mean()` is absent exactly when no cell is a number, and otherwise times the number of numeric cells gives their sum (text counts are rejected earlier, by `AddLikesWeighted`) |
| Pipeline.SomeLikesAboveMean | pipeline.py:119 | unless all numeric like counts are equal, one lies strictly above their mean |
| Pipeline.OldPathDownWeights | pipeline.py:117-120 | over non-negative like counts that are not all equal, the old path changes at least one count |
| Sequences.Dedup | pipeline.py:96 | `drop_duplicates` keeps a subsequence with no repeated row and exactly the same rows |
| Sequences.DedupKeepsFirstOccurrences | pipeline.py:96 | deduplicating a prefix gives a prefix of the result: the first copy of each row is kept, in order |
| Sequences.DedupOfDistinct | pipeline.py:96 | a frame without duplicates is left as it is |
| Pipeline.Kept | pipeline.py:96-100 | the surviving rows form a subsequence of the input without repeats and hold exactly the input rows that have content |
| Pipeline.PreparedRows | pipeline.py:96-100 | dropping duplicates, parsing dates, then dropping rows without content gives the kept rows with their dates parsed |
| Pipeline.Prepare | pipeline.py:95-100 | fails with the first of: missing created_date, a date that does not parse, missing content; otherwise returns the kept rows, in order, dates parsed, columns unchanged |
| Frames.Column | pipeline.py:119 | `df[name]` has one cell per row, the row's cell under that label |
| Frames.SetColumn | pipeline.py:104-122 | `df[name] = vals` keeps the frame well formed, appends a new label at the end, and sets exactly that cell of every row |
| Frames.AssignWhere | pipeline.py:123-125 | `df.loc[mask, name] = vals` changes only the masked rows, and only in that column; on a column the frame has, the frame stays well formed |
| Frames.SelfAssignmentIsNoOp | pipeline.py:123-125 | assigning a column's own values back to it under any mask leaves the frame unchanged |
| Pipeline.AddWeekday | pipeline.py:102-106 | the old path fails with ValueError exactly when some parsed date is NaT; otherwise weekday is added (or overwritten) with the day name of each row's date, NaN for NaT on the new path; nothing else changes |
| Pipeline.AddSourceFlag | pipeline.py:107-114 | fails with AttributeError exactly when, on the old path, some content is not text, or, on the new path, rows exist and none has text content; otherwise each row gets the match flag of its content, or NaN for non-text content |
| Pipeline.AddLikesWeighted | pipeline.py:116-125 | fails with TypeError exactly when some like count is text; otherwise the old path stores each count halved when it is above the column mean, the new path stores likes itself, and nothing else changes |
| Pipeline.Derive | pipeline.py:102-125 | fails exactly when `DeriveError` names an error, with that error, in the order the steps meet them: NaT date (old path, ValueError); non-text content (old path) or no text at all (new path), AttributeError; missing likes, KeyError; text likes, TypeError. Otherwise the three columns are appended in order and each row is its derived row |
| Pipeline.DerivedRowMeetsSpec | pipeline.py:98-125 | a parsed row with its derived cells keeps its content and relates to its input row as `CleanedRow` states |
| Pipeline.CleanErrorSplit | pipeline.py:95-125 | the error of `clean` is the first error of preparation, otherwise the first error of derivation on the prepared rows |
| Pipeline.ConditionsSurviveParse | pipeline.py:98-125 | parsing dates turns a NaT-parsing row into a NaT row and creates or hides no non-text content, text content or text likes |
| Pipeline.ParseKeepsLikes | pipeline.py:98 | parsing dates leaves the likes column unchanged, so the mean is taken over the surviving rows' likes |
| Pipeline.Clean | pipeline.py:82-126 | fails exactly when `CleanError` names an error, with that error. Otherwise `Cleaned` holds: one row per surviving input row in input order, none with null content; columns are the input's plus weekday, contains_source_word and likes_weighted; every other cell unchanged except the parsed created_date; each derived cell computed from its own row and the mean of the surviving likes |
| Pipeline.WeightedCell | pipeline.py:117-125 | a cleaned row keeps its likes; its likes_weighted is the weighted count on the old path and the count itself on the new path |
| Pipeline.PathsDiverge | pipeline.py:117-125 | over the same surviving rows the new path leaves likes_weighted equal to likes in every row, while the old path differs in some row once two non-negative counts differ |
| Pipeline.ConsolidatedFramesFitClean | main.py:13-15 | a frame consolidated from any source has every column `clean` reads: cleaning it may still fail on a date, the content cells or the like counts, but never with a KeyError |
| CleaningProperties.CleanedRowDeterminesInput | pipeline.py:96-125 | two input rows without derived columns, whose dates parse apart, clean to equal rows only when they are equal |
| CleaningProperties.CleanedRowsDistinct | pipeline.py:96-98 | when the input has no derived column and the parser tells the surviving dates apart, the cleaned rows are pairwise distinct |
| CleaningProperties.SameCleanedRow | pipeline.py:96-125 | two input rows that differ only in created_date, with dates that parse to the same value, clean to the same row |
| CleaningProperties.CleanCanRepeatRows | pipeline.py:96-98 | two rows differing only in the spelling of one date both survive, `clean` raises nothing on them, and its output holds two equal rows |
| CleaningProperties.RecleanedRow | pipeline.py:98-125 | cleaning a cleaned row again, its date parsing to itself, under the same mean gives the row back |
| CleaningProperties.RecleanedRows | pipeline.py:96-125 | the same for every row: a second cleaning of cleaned rows returns them |
| CleaningProperties.CleanedLikes | pipeline.py:116-125 | cleaned rows carry the like counts of the rows they came from, so a second run takes the same mean |
| CleaningProperties.CleanedConditions | pipeline.py:98-125 | every check of `clean` reads the same on the cleaned rows as on the kept rows they came from |
| CleaningProperties.CleanedRowsKept | pipeline.py:96-100 | cleaned rows without repeats survive duplicate and null removal unchanged |
| CleaningProperties.CleanAgainRaisesNothing | pipeline.py:82-126 | `clean` on its own duplicate-free output, dates parsing to themselves, raises nothing |
| CleaningProperties.CleanAgainSameFrame | pipeline.py:82-126 | under the same conditions the second run returns the same frame: `clean` is idempotent there |
| CleaningProperties.OldPathRowsComplete | pipeline.py:98-112 | on the old path, cleaned rows whose kept rows have no NaT date and no non-text content hold a date that is not NaT, a weekday name and a boolean source flag |
| CleaningProperties.OldPathCleanComplete | pipeline.py:82-126 | every row of a successful old-path `clean` holds a date that is not NaT, a weekday name and a boolean contains_source_word |
| CleaningProperties.NewPathKeepsMissingDate | pipeline.py:98-106 | a review with text and likes but no date: the old path raises ValueError, the new path raises nothing and returns the row with a NaT created_date and a NaN weekday |
| AppUtils.MessageContent | src/app_utils.py:26 | `chunk["message"]["content"]`: the content when both keys are present; a missing key is a KeyError naming it; a message that is not a dictionary is a TypeError |
| AppUtils.OllamaStream | src/app_utils.py:24-26 | yields one message content per chunk in stream order; it stops at the first chunk without one, with that chunk's error, and otherwise yields exactly one value per chunk |
| AppUtils.OllamaStreamCompletes | src/app_utils.py:24-26 | the ollama branch runs to the end exactly when every chunk has a message content |
| AppUtils.Answers | src/app_utils.py:27-30 | the langchain branch yields no more values than chunks, each the answer of some chunk |
| AppUtils.AnswersAppend | src/app_utils.py:28-30 | the langchain branch works chunk by chunk: two stretches of stream yield what each yields, in order |
| AppUtils.AnswersIsFilterMap | src/app_utils.py:27-30 | the langchain branch is exactly the chunks with an answer, in order, mapped to their answer |
| AppUtils.StreamParser | src/app_utils.py:6-32 | ollama: the per-chunk contents, stopping at the first error; langchain: the filtered answers, never raising; any other model type: NotImplementedError with nothing yielded |
| AppUtils.GetContext | src/app_utils.py:88-103 | nothing exactly when no chunk has "context"; otherwise the "context" value of the first chunk that has one |
| AppUtils.GetContextFirstMatch | src/app_utils.py:101-103 | the first chunk carrying "context" decides the result |
| AppUtils.GetContextIgnoresLater | src/app_utils.py:101-103 | chunks after one carrying "context" do not affect the result |
| Llm.FormatDocs | llm.py:13-14 | no documents give the empty string; one document gives its text unchanged |
| Llm.FormatDocsAppend | llm.py:14 | one more document appends a blank line and its text: texts appear in input order |
| Llm.FormatDocsRoundTrip | llm.py:14 | texts without line breaks are recovered, in order, by splitting the result at blank lines |
| Sequences.Remove | llm.py:53 | `list.remove` drops the first occurrence of the element: the rest keep their order and, in a list without repeats, exactly the other elements remain |
| Llm.BatchOf | llm.py:52-60 | a ValueError exactly when there is no content column. Otherwise: metadata columns are all others, in frame order; texts and records both have min(rows, 1000) entries; the i-th text and the i-th record come from row i, the record holding exactly that row's metadata cells |
| Llm.Stringified | llm.py:49-50 | `df[name].apply(str)` replaces that column's cells by their text form and leaves every other cell |
| Llm.CreateEmbeddings | llm.py:47-60 | on the caller's frame: a missing created_date changes nothing. A missing contains_source_word leaves created_date already stringified. Otherwise both columns are stringified in place, and the batch handed to the store is `BatchOf` of the updated frame |

## Left out

- Reading the CSV exports (`read_data`) and the orchestration loop in main.py, with its timing and printing: file I/O.
- Calendar logic (`pd.to_datetime`, `strftime("%A")`, `.dt.day_name()`) and Python's `str()` on a cell: library code. These are the parameters `parseDate`, `dayName` and `str`. `parseDate` works cell by cell, so pandas' format inference across a whole column is not modelled.
- Pipeline.AddSourceFlag: on the new path, `str.contains` is a regular-expression search; it is modelled as a plain substring search, which is the same for the three source names. Whether the `.str` accessor raises depends on the column's inferred dtype; the model raises exactly when the column has rows and none holds text, so a non-empty column mixing numbers and booleans is refused here where pandas might accept it, and an empty column of another dtype is accepted here where pandas refuses it.
- Text.Lower: only ASCII capitals are folded; Unicode case mapping is not modelled.
- Pipeline.Mean: a like count given as text raises TypeError (checked by `AddLikesWeighted`), but other non-numeric cells (booleans, dates) are skipped, where pandas may raise or coerce. Floating-point rounding and NaN arithmetic are not modelled: likes and the mean are exact reals, and a missing count is `Null`.
- Pipeline.Consolidate, Pipeline.Consolidation: require that no two columns are renamed to the same canonical label. pandas would then keep two columns with one label (a spotify frame that also has a `content` column selects six columns), which a frame here cannot hold. `ExportUnambiguous` shows that frames carrying every raw column of the table and no other canonical label meet it; `NetflixCommentedHeaderFails` shows that the netflix header written in config.py's comments is not such a frame.
- The frame index and `reset_index`: rows are positional.
- Pipeline.Clean: on the new path a cleaned row need not hold a real date or a boolean flag. A missing date survives as NaT with a NaN weekday (`NewPathKeepsMissingDate`), and content that is not text gets a NaN contains_source_word. Only the old path guarantees both (`OldPathCleanComplete`), because it raises on them instead.
- Pipeline.Clean: its output is not always free of duplicate rows. `drop_duplicates` runs before the dates are parsed, so two spellings of one date can come back as equal rows (`CleanCanRepeatRows`); `CleanedRowsDistinct` gives the conditions under which they cannot. Idempotence (`CleanAgainSameFrame`) likewise holds only for a duplicate-free output whose parsed dates parse to themselves.
- Pipeline.Clean, Pipeline.Derive, Pipeline.ConsolidatedFramesFitClean: only the exceptions listed under "Errors" are modelled; errors raised inside the library parameters, memory errors and dtype-dependent pandas errors beyond those are not.
- Everything that talks to Ollama, LangChain or Redis: `rag_pipeline`, the embedding model, `Redis.from_texts` and `write_schema`. `create_embeddings` is modelled up to the batch it hands to the store.
- Laziness of `stream_parser`: a consumer that stops early sees only a prefix of what `StreamParser` describes. The NotImplementedError is raised on the first read, not at the call.
- AppUtils.GetContext: returns `None` when no chunk carries "context", and `Some(NoneValue)` when the value found is Python's None; Python returns None in both cases.
- Chunk values other than text, dictionaries, lists and None, and the documents' metadata in `_format_docs`: nothing modelled reads them.
- The Streamlit UI (app.py, `user_message`, `assistent_message`) and the prompt template in prompts.py: presentation only.
