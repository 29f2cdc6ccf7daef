/** The text the reader shows: the channel list with its unread and broken
    markers, and a channel's item list under an optional title header. */
module Presentation {
  import opened RssClient
  import opened RssDatabase
  import opened CuiList

  /** Header lines and rows of one screen. */
  datatype Listing = Listing(header: seq<Line>, rows: seq<string>)

  /** Some item is unread. */
  predicate AnyNew(items: seq<Item>) {
    exists j :: 0 <= j < |items| && items[j].isNew
  }

  /** The snapshot has an entry for every configured channel; looking a
      channel up raises KeyError otherwise. */
  predicate Covers(chs: seq<Channel>, db: Snapshot) {
    forall i :: 0 <= i < |chs| ==> chs[i].conf.name in db
  }

  /** `have_new_items`: per configured channel, whether it has an unread item. */
  function HaveNewItems(chs: seq<Channel>, db: Snapshot): (r: seq<bool>)
    requires Covers(chs, db)
    ensures |r| == |chs|
    ensures forall i :: 0 <= i < |chs| ==>
              (r[i] <==> exists j :: 0 <= j < |db[chs[i].conf.name]| && db[chs[i].conf.name][j].isNew)
  {
    seq(|chs|, i requires 0 <= i < |chs| => AnyNew(db[chs[i].conf.name]))
  }

  /** The two-character marker of a channel row: '!' for a broken channel
      (whatever its items), otherwise '*' when it has unread items. */
  function ChannelFlag(unread: bool, broken: bool): (f: string)
    ensures |f| == 2 && f[1] == ' '
    ensures f[0] == '!' <==> broken
    ensures f[0] == '*' <==> !broken && unread
    ensures f[0] == ' ' <==> !broken && !unread
  {
    (if broken then "!" else if unread then "*" else " ") + " "
  }

  /** `print_channels`: one row per configured channel, marker then name. */
  function PrintChannels(chs: seq<Channel>, db: Snapshot): (rows: seq<string>)
    requires Covers(chs, db)
    ensures |rows| == |chs|
    ensures forall i :: 0 <= i < |chs| ==>
              && |rows[i]| == |chs[i].conf.name| + 2
              && rows[i][2..] == chs[i].conf.name
              && rows[i][1] == ' '
              && (rows[i][0] == '!' <==> chs[i].broken)
              && (rows[i][0] == '*' <==> !chs[i].broken && AnyNew(db[chs[i].conf.name]))
              && (rows[i][0] == ' ' <==> !chs[i].broken && !AnyNew(db[chs[i].conf.name]))
  {
    var unread := HaveNewItems(chs, db);
    seq(|chs|, i requires 0 <= i < |chs| => ChannelFlag(unread[i], chs[i].broken) + chs[i].conf.name)
  }

  /** The channel was fetched, its title is wanted and the feed has one. */
  predicate ShowsTitle(ch: Channel) {
    ch.feed.Some? && ch.conf.showTitle != 0 && ch.feed.value.title.Some?
  }

  predicate ShowsSubtitle(ch: Channel) {
    ch.feed.Some? && ch.conf.showSubtitle != 0 && ch.feed.value.subtitle.Some?
  }

  /** The row of one item: '*' if unread, a space, then the title. */
  function ItemRowText(item: Item): (row: string)
    ensures |row| == |item.entry.title| + 2
    ensures row[0] == '*' <==> item.isNew
    ensures row[0] == ' ' <==> !item.isNew
    ensures row[1] == ' ' && row[2..] == item.entry.title
  {
    (if item.isNew then "*" else " ") + " " + item.entry.title
  }

  /** `print_items`: the bold feed title and the subtitle when shown, a blank
      line after them if either is, then one row per item. */
  function PrintItems(ch: Channel, items: seq<Item>): (l: Listing)
    ensures |l.header| == (if ShowsTitle(ch) then 1 else 0) + (if ShowsSubtitle(ch) then 1 else 0)
                          + (if ShowsTitle(ch) || ShowsSubtitle(ch) then 1 else 0)
    ensures |l.header| <= 3
    ensures |l.header| == 0 <==> !ShowsTitle(ch) && !ShowsSubtitle(ch)
    ensures |l.header| > 0 ==> l.header[|l.header| - 1] == Line("", false)
    ensures ShowsTitle(ch) ==> l.header[0] == Line(ch.feed.value.title.value, true)
    ensures ShowsSubtitle(ch) ==> l.header[|l.header| - 2] == Line(ch.feed.value.subtitle.value, false)
    ensures |l.rows| == |items|
    ensures forall i :: 0 <= i < |items| ==> l.rows[i] == ItemRowText(items[i])
  {
    var title := if ShowsTitle(ch) then [Line(ch.feed.value.title.value, true)] else [];
    var subtitle := if ShowsSubtitle(ch) then [Line(ch.feed.value.subtitle.value, false)] else [];
    var lines := title + subtitle;
    var header := if |lines| > 0 then lines + [Line("", false)] else lines;
    Listing(header, seq(|items|, i requires 0 <= i < |items| => ItemRowText(items[i])))
  }

  /** A healthy channel is starred in the channel list exactly when one of
      its item rows is starred. */
  lemma ChannelStarMatchesItemStars(chs: seq<Channel>, db: Snapshot, i: int)
    requires Covers(chs, db) && 0 <= i < |chs| && !chs[i].broken
    ensures PrintChannels(chs, db)[i][0] == '*' <==>
            exists j :: 0 <= j < |db[chs[i].conf.name]| && PrintItems(chs[i], db[chs[i].conf.name]).rows[j][0] == '*'
  {
    var items := db[chs[i].conf.name];
    var rows := PrintItems(chs[i], items).rows;
    if AnyNew(items) {
      var j :| 0 <= j < |items| && items[j].isNew;
      assert rows[j][0] == '*';
    }
  }
}
