/** The per-source column renaming table of config.py. */
module Config {
  import opened Sequences

  /** One source's table: (raw column, canonical column) pairs, in declared order. */
  type Mapping = seq<(string, string)>

  const CHATGPT: Mapping := [
    ("reviewId", "id"),
    ("userName", "name"),
    ("content", "content"),
    ("score", "score"),
    ("thumbsUpCount", "likes"),
    ("reviewCreatedVersion", "review_version"),
    ("at", "created_date"),
    ("appVersion", "version")
  ]

  const NETFLIX: Mapping := [
    ("created", "created_date"),
    ("content", "content"),
    ("score", "score"),
    ("likes", "likes"),
    ("reviewCreatedVersion", "review_version"),
    ("version", "version")
  ]

  const SPOTIFY: Mapping := [
    ("Time_submitted", "created_date"),
    ("Review", "content"),
    ("Rating", "score"),
    ("Total_thumbsup", "likes"),
    ("Reply", "reply")
  ]

  /** Source name to its table. */
  const MAPPINGS: map<string, Mapping> := map["chatgpt" := CHATGPT, "netflix" := NETFLIX, "spotify" := SPOTIFY]

  /** The sources the ingestion entry point walks through, in order. */
  const SOURCES: seq<string> := ["chatgpt", "netflix", "spotify"]

  /** The canonical columns every source must provide. */
  const CANONICAL: seq<string> := ["content", "score", "likes", "created_date"]

  /** Canonical labels the cleaning and embedding steps read. */
  const CONTENT := "content"
  const LIKES := "likes"
  const CREATED_DATE := "created_date"

  /** Labels the cleaning step adds. */
  const WEEKDAY := "weekday"
  const CONTAINS_SOURCE_WORD := "contains_source_word"
  const LIKES_WEIGHTED := "likes_weighted"

  /** `mapping.keys()`, in declared order. */
  function RawColumns(m: Mapping): (r: seq<string>)
    ensures |r| == |m| && forall i :: 0 <= i < |m| ==> r[i] == m[i].0
  {
    seq(|m|, i requires 0 <= i < |m| => m[i].0)
  }

  /** `mapping.values()`, in declared order. */
  function Targets(m: Mapping): (r: seq<string>)
    ensures |r| == |m| && forall i :: 0 <= i < |m| ==> r[i] == m[i].1
  {
    seq(|m|, i requires 0 <= i < |m| => m[i].1)
  }

  /** The table has one entry per source the entry point iterates over, and no other. */
  lemma MappingSources()
    ensures MAPPINGS.Keys == {"chatgpt", "netflix", "spotify"}
    ensures MAPPINGS.Keys == set s | s in SOURCES
    ensures Distinct(SOURCES)
  {
  }

  lemma ChatgptRawDistinct()
    ensures Distinct(RawColumns(CHATGPT))
  {
    assert RawColumns(CHATGPT) == ["reviewId", "userName", "content", "score", "thumbsUpCount", "reviewCreatedVersion", "at", "appVersion"];
  }

  lemma ChatgptTargetsDistinct()
    ensures Distinct(Targets(CHATGPT))
  {
    assert Targets(CHATGPT) == ["id", "name", "content", "score", "likes", "review_version", "created_date", "version"];
  }

  lemma NetflixRawDistinct()
    ensures Distinct(RawColumns(NETFLIX))
  {
    assert RawColumns(NETFLIX) == ["created", "content", "score", "likes", "reviewCreatedVersion", "version"];
  }

  lemma NetflixTargetsDistinct()
    ensures Distinct(Targets(NETFLIX))
  {
    assert Targets(NETFLIX) == ["created_date", "content", "score", "likes", "review_version", "version"];
  }

  lemma SpotifyRawDistinct()
    ensures Distinct(RawColumns(SPOTIFY))
  {
    assert RawColumns(SPOTIFY) == ["Time_submitted", "Review", "Rating", "Total_thumbsup", "Reply"];
  }

  lemma SpotifyTargetsDistinct()
    ensures Distinct(Targets(SPOTIFY))
  {
    assert Targets(SPOTIFY) == ["created_date", "content", "score", "likes", "reply"];
  }

  /** Each table has unique raw columns (it is a dictionary) and unique canonical columns, so renaming is injective. */
  lemma MappingsInjective()
    ensures forall s :: s in MAPPINGS ==> Distinct(RawColumns(MAPPINGS[s])) && Distinct(Targets(MAPPINGS[s]))
  {
    ChatgptRawDistinct();
    ChatgptTargetsDistinct();
    NetflixRawDistinct();
    NetflixTargetsDistinct();
    SpotifyRawDistinct();
    SpotifyTargetsDistinct();
  }

  /** Every source yields content, score, likes and created_date. */
  lemma MappingsCoverCanonical()
    ensures forall s, c :: s in MAPPINGS && c in CANONICAL ==> c in Targets(MAPPINGS[s])
  {
    assert Targets(CHATGPT) == ["id", "name", "content", "score", "likes", "review_version", "created_date", "version"];
    assert Targets(NETFLIX) == ["created_date", "content", "score", "likes", "review_version", "version"];
    assert Targets(SPOTIFY) == ["created_date", "content", "score", "likes", "reply"];
  }

  /** spotify alone keeps the developer's reply, and has no version columns. */
  lemma SpotifyExtras()
    ensures "reply" in Targets(SPOTIFY)
    ensures "reply" !in Targets(CHATGPT) && "reply" !in Targets(NETFLIX)
    ensures "review_version" !in Targets(SPOTIFY) && "version" !in Targets(SPOTIFY)
  {
    assert Targets(SPOTIFY) == ["created_date", "content", "score", "likes", "reply"];
  }

  /** chatgpt alone yields the review id and the user name. */
  lemma ChatgptExtras()
    ensures "id" in Targets(CHATGPT) && "name" in Targets(CHATGPT)
    ensures "id" !in Targets(NETFLIX) && "name" !in Targets(NETFLIX)
    ensures "id" !in Targets(SPOTIFY) && "name" !in Targets(SPOTIFY)
  {
    assert Targets(CHATGPT) == ["id", "name", "content", "score", "likes", "review_version", "created_date", "version"];
    assert Targets(NETFLIX) == ["created_date", "content", "score", "likes", "review_version", "version"];
    assert Targets(SPOTIFY) == ["created_date", "content", "score", "likes", "reply"];
  }

  /** Where the three tables differ beyond the canonical columns. */
  lemma MappingsDiffer()
    ensures "reply" in Targets(MAPPINGS["spotify"])
    ensures "review_version" !in Targets(MAPPINGS["spotify"]) && "version" !in Targets(MAPPINGS["spotify"])
    ensures "id" in Targets(MAPPINGS["chatgpt"]) && "name" in Targets(MAPPINGS["chatgpt"])
    ensures forall s :: s in MAPPINGS && s != "chatgpt" ==> "id" !in Targets(MAPPINGS[s]) && "name" !in Targets(MAPPINGS[s])
    ensures Targets(MAPPINGS["netflix"])[0] == "created_date"
  {
    SpotifyExtras();
    ChatgptExtras();
  }
}
