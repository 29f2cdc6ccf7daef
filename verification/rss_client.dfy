/** Channel configuration and the per-channel result of a fetch. Reading the
    configuration files and downloading the feeds are outside the model: a
    channel arrives here already configured and already fetched. */
module RssClient {
  import opened Options
  import opened Seqs

  /** The defaults every channel configuration starts from. */
  const DefaultGetFullText := 0
  const DefaultShowTitle := 1
  const DefaultShowSubtitle := 1
  const DefaultHistoryLength := 15

  /** One channel's configuration. The 0/1 switches and the history length
      are the integers the reader obtains with `int(...)`. */
  datatype Conf = Conf(
    name: string,
    url: string,
    getFullText: int,
    showTitle: int,
    showSubtitle: int,
    historyLength: int)

  /** Header data of a fetched feed; either field may be absent. */
  datatype Feed = Feed(title: Option<string>, subtitle: Option<string>)

  /** One item as the feed parser returns it: the three fields the reader
      keeps, plus whatever else the feed carried. */
  datatype FeedItem = FeedItem(title: string, link: string, summary: string, extra: map<string, string>)

  /** A configured channel after the update step. `feed` is None when the
      channel was never fetched in this run; `broken` is true when the fetch
      produced no feed data. */
  datatype Channel = Channel(conf: Conf, feed: Option<Feed>, items: seq<FeedItem>, broken: bool)

  /** The configuration of one channel file: the defaults, overridden by
      every setting the file supplies. */
  function Configure(
    name: string, url: string,
    getFullText: Option<int>, showTitle: Option<int>,
    showSubtitle: Option<int>, historyLength: Option<int>): (c: Conf)
    ensures c.name == name && c.url == url
    ensures getFullText.None? ==> c.getFullText == DefaultGetFullText
    ensures showTitle.None? ==> c.showTitle == DefaultShowTitle
    ensures showSubtitle.None? ==> c.showSubtitle == DefaultShowSubtitle
    ensures historyLength.None? ==> c.historyLength == DefaultHistoryLength
    ensures getFullText.Some? ==> c.getFullText == getFullText.value
    ensures showTitle.Some? ==> c.showTitle == showTitle.value
    ensures showSubtitle.Some? ==> c.showSubtitle == showSubtitle.value
    ensures historyLength.Some? ==> c.historyLength == historyLength.value
  {
    Conf(name, url,
         getFullText.GetOr(DefaultGetFullText),
         showTitle.GetOr(DefaultShowTitle),
         showSubtitle.GetOr(DefaultShowSubtitle),
         historyLength.GetOr(DefaultHistoryLength))
  }

  /** The channel names in configuration order (duplicates kept). */
  function NameList(chs: seq<Channel>): (r: seq<string>)
    ensures |r| == |chs|
    ensures forall i :: 0 <= i < |chs| ==> r[i] == chs[i].conf.name
  {
    seq(|chs|, i requires 0 <= i < |chs| => chs[i].conf.name)
  }

  function Names(chs: seq<Channel>): set<string> {
    set n | n in NameList(chs)
  }

  /** Channel `i` is the last one configured under its name. */
  predicate LastWithName(chs: seq<Channel>, i: int)
    requires 0 <= i < |chs|
  {
    forall j :: i < j < |chs| ==> chs[j].conf.name != chs[i].conf.name
  }

  /** The history length of the FIRST channel configured under `name`. */
  function FirstHistoryLength(chs: seq<Channel>, name: string): (h: int)
    requires name in Names(chs)
    ensures exists i :: 0 <= i < |chs| && chs[i].conf.name == name && h == chs[i].conf.historyLength
                        && forall j :: 0 <= j < i ==> chs[j].conf.name != name
  {
    var i := IndexOf(NameList(chs), name);
    chs[i].conf.historyLength
  }
}
