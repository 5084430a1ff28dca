/** The records of the monitor's configuration and storage: keyword rules,
    sources, the configuration and stored feed items. */
module Types {
  import opened Wrappers

  datatype MatchType = Exact | Fuzzy | Phrase

  /** A keyword rule; `caseSensitive` and `weight` may be absent. */
  datatype KeywordRule = KeywordRule(
    value: string,
    matchType: MatchType,
    caseSensitive: Option<bool>,
    weight: Option<int>)

  /** A keyword is a bare string or a rule. */
  datatype Keyword = Simple(text: string) | Rule(rule: KeywordRule)

  /** A feed source. `kind` is the `type` field, which must be "rss".
      An empty `url` is JavaScript-falsy. */
  datatype Source = Source(
    kind: string,
    url: string,
    name: Option<string>,
    keywords: Option<seq<Keyword>>,
    useGlobalKeywords: Option<bool>,
    weight: Option<int>)

  datatype Config = Config(keywords: seq<Keyword>, sources: seq<Source>)

  /** One keyword's match in a text. `fifths` is the score multiplied by
      five, which keeps `weight / 5` exact. */
  datatype KeywordMatch = KeywordMatch(keyword: string, fifths: int, matchType: MatchType)

  /** A stored feed item. Times are milliseconds since the epoch. */
  datatype FeedItem = FeedItem(
    title: string,
    content: string,
    source: string,
    sourceName: Option<string>,
    link: string,
    timestamp: int,
    addedAt: int,
    matchedKeywords: seq<KeywordMatch>)
}
