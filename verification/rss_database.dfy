/** The reconciliation engine: importing freshly fetched items and merging
    them with the snapshot kept from the previous session.

    The snapshot maps a channel name to that channel's item list. An item is
    identified across sessions by its link; its `isNew` flag says it has not
    been read. */
module RssDatabase {
  import opened Options
  import opened Seqs
  import opened RssClient

  /** An item as imported from the feed: only the fields worth keeping. */
  datatype Entry = Entry(title: string, link: string, summary: string)

  /** An item of the snapshot: an entry with its unread flag. */
  datatype Item = Item(entry: Entry, isNew: bool)

  type Snapshot = map<string, seq<Item>>

  type Imported = map<string, seq<Entry>>

  /** How `merge` finds the flag of an item that was already known.
      `Positional` is the lookup the reader performs: it searches the old
      links for the link of the OLD item at the imported item's position.
      `ByLink` searches for the imported item's own link, which is what the
      surrounding comment describes. */
  datatype Lookup = Positional | ByLink

  /** The snapshot at start-up: the stored one, or no channels when there is
      no stored file. */
  function Load(stored: Option<Snapshot>): (s: Snapshot)
    ensures stored.None? ==> s.Keys == {}
    ensures stored.Some? ==> s == stored.value
  {
    stored.GetOr(map[])
  }

  function Project(f: FeedItem): Entry {
    Entry(f.title, f.link, f.summary)
  }

  function EntryLinks(es: seq<Entry>): (r: seq<string>)
    ensures |r| == |es|
    ensures forall i :: 0 <= i < |es| ==> r[i] == es[i].link
  {
    seq(|es|, i requires 0 <= i < |es| => es[i].link)
  }

  function ItemLinks(items: seq<Item>): (r: seq<string>)
    ensures |r| == |items|
    ensures forall i :: 0 <= i < |items| ==> r[i] == items[i].entry.link
  {
    seq(|items|, i requires 0 <= i < |items| => items[i].entry.link)
  }

  /** No two items share a link: the invariant of a channel's list. */
  predicate UniqueLinks(items: seq<Item>) {
    Distinct(ItemLinks(items))
  }

  predicate UniqueEntryLinks(es: seq<Entry>) {
    Distinct(EntryLinks(es))
  }

  /** `UniqueLinks` stated on the items themselves. */
  lemma UniqueLinksAt(items: seq<Item>)
    ensures UniqueLinks(items) <==>
              forall i, j :: 0 <= i < j < |items| ==> items[i].entry.link != items[j].entry.link
  {
    var links := ItemLinks(items);
    assert forall i :: 0 <= i < |items| ==> links[i] == items[i].entry.link;
  }

  /** One channel's import: its fetched items, projected to title, link and
      summary, clipped to the channel's history length. */
  function ImportChannel(ch: Channel): (r: seq<Entry>)
    ensures ch.conf.historyLength >= 0 ==> |r| == Min(ch.conf.historyLength, |ch.items|)
    ensures ch.conf.historyLength < 0 ==> |r| == Max(0, |ch.items| + ch.conf.historyLength)
    ensures forall j :: 0 <= j < |r| ==> r[j] == Project(ch.items[j])
  {
    var projected := seq(|ch.items|, j requires 0 <= j < |ch.items| => Project(ch.items[j]));
    SliceTo(projected, ch.conf.historyLength)
  }

  /** `import_rss`: one entry per configured name. Channels are visited in
      configuration order, so a later channel with the same name replaces an
      earlier one. */
  function ImportRss(chs: seq<Channel>): (r: Imported)
    ensures r.Keys == Names(chs)
    ensures forall i :: 0 <= i < |chs| && LastWithName(chs, i) ==> r[chs[i].conf.name] == ImportChannel(chs[i])
    decreases |chs|
  {
    if |chs| == 0 then map[]
    else
      var init := chs[..|chs| - 1];
      var last := chs[|chs| - 1];
      var r := ImportRss(init)[last.conf.name := ImportChannel(last)];
      ImportSnoc(chs, ImportRss(init));
      r
  }

  /** The inductive step of `ImportRss`: importing one more channel. */
  lemma ImportSnoc(chs: seq<Channel>, m: Imported)
    requires |chs| > 0
    requires m.Keys == Names(chs[..|chs| - 1])
    requires forall i :: 0 <= i < |chs| - 1 && LastWithName(chs[..|chs| - 1], i) ==>
               m[chs[i].conf.name] == ImportChannel(chs[i])
    ensures var r := m[chs[|chs| - 1].conf.name := ImportChannel(chs[|chs| - 1])];
            && r.Keys == Names(chs)
            && forall i :: 0 <= i < |chs| && LastWithName(chs, i) ==> r[chs[i].conf.name] == ImportChannel(chs[i])
  {
    var init := chs[..|chs| - 1];
    var last := chs[|chs| - 1];
    var r := m[last.conf.name := ImportChannel(last)];
    assert NameList(chs) == NameList(init) + [last.conf.name];
    assert Names(chs) == Names(init) + {last.conf.name};
    forall i | 0 <= i < |chs| && LastWithName(chs, i)
      ensures r[chs[i].conf.name] == ImportChannel(chs[i])
    {
      if i < |chs| - 1 {
        assert chs[i].conf.name != last.conf.name;
        assert LastWithName(init, i);
      }
    }
  }

  /** The positional lookup stays inside the prev list: every imported item
      whose link is known sits at a position the prev list has, since the
      lookup reads the prev item at that same position. */
  predicate PositionalDefined(prev: seq<Item>, imp: seq<Entry>) {
    forall i :: 0 <= i < |imp| && imp[i].link in ItemLinks(prev) ==> i < |prev|
  }

  /** The flag a known imported item (position `i`) takes from the prev list:
      that of the FIRST prev item carrying the link looked up. */
  function OldFlag(lookup: Lookup, prev: seq<Item>, imp: seq<Entry>, i: int): (b: bool)
    requires 0 <= i < |imp| && imp[i].link in ItemLinks(prev)
    requires lookup == Positional ==> i < |prev|
    ensures lookup == ByLink ==>
              exists j :: 0 <= j < |prev| && prev[j].entry.link == imp[i].link && b == prev[j].isNew
                          && forall j' :: 0 <= j' < j ==> prev[j'].entry.link != imp[i].link
    ensures lookup == Positional ==>
              exists j :: 0 <= j <= i && prev[j].entry.link == prev[i].entry.link && b == prev[j].isNew
                          && forall j' :: 0 <= j' < j ==> prev[j'].entry.link != prev[i].entry.link
  {
    var links := ItemLinks(prev);
    match lookup
    case Positional => prev[IndexOf(links, prev[i].entry.link)].isNew
    case ByLink => prev[IndexOf(links, imp[i].link)].isNew
  }

  /** The first loop of `merge`: every imported item gets a flag. Unknown
      links are new; known ones take the flag `OldFlag` finds. */
  function Flag(lookup: Lookup, prev: seq<Item>, imp: seq<Entry>): (r: seq<Item>)
    requires lookup == Positional ==> PositionalDefined(prev, imp)
    ensures |r| == |imp|
    ensures forall i :: 0 <= i < |imp| ==> r[i].entry == imp[i]
    ensures forall i :: 0 <= i < |imp| && imp[i].link !in ItemLinks(prev) ==> r[i].isNew
    ensures forall i :: 0 <= i < |imp| && imp[i].link in ItemLinks(prev) ==> r[i].isNew == OldFlag(lookup, prev, imp, i)
  {
    seq(|imp|, i requires 0 <= i < |imp| =>
      Item(imp[i], if imp[i].link in ItemLinks(prev) then OldFlag(lookup, prev, imp, i) else true))
  }

  /** The second loop of `merge`: the prev items whose link is not among
      `links`, in their prev order and unchanged. */
  function Historical(prev: seq<Item>, links: seq<string>): (r: seq<Item>)
    ensures |r| <= |prev|
    ensures forall x :: x in r <==> x in prev && x.entry.link !in links
  {
    if |prev| == 0 then []
    else
      var rest := Historical(prev[1..], links);
      assert forall x :: x in prev <==> x == prev[0] || x in prev[1..];
      if prev[0].entry.link in links then rest else [prev[0]] + rest
  }

  /** The elements past position `n` of `all` are those of its suffix `hist`. */
  lemma HistoricalTail(all: seq<Item>, n: int, hist: seq<Item>)
    requires 0 <= n <= |all| && all[n..] == hist
    ensures forall j :: n <= j < |all| ==> all[j] in hist
  {
    forall j | n <= j < |all|
      ensures all[j] in hist
    {
      assert all[j] == hist[j - n];
    }
  }

  /** Every imported item is new: the treatment of a channel the old
      snapshot does not have. */
  function MarkAllNew(imp: seq<Entry>): (r: seq<Item>)
    ensures |r| == |imp|
    ensures forall i :: 0 <= i < |imp| ==> r[i].entry == imp[i] && r[i].isNew
  {
    seq(|imp|, i requires 0 <= i < |imp| => Item(imp[i], true))
  }

  /** The list `merge` builds for a channel the prev snapshot already has:
      flagged imported items, then the historical ones, clipped to `h`. */
  function MergeChannel(lookup: Lookup, prev: seq<Item>, imp: seq<Entry>, h: int): (r: seq<Item>)
    requires lookup == Positional ==> PositionalDefined(prev, imp)
    ensures r <= Flag(lookup, prev, imp) + Historical(prev, EntryLinks(imp))
    ensures h >= 0 ==> |r| == Min(h, |imp| + |Historical(prev, EntryLinks(imp))|)
    ensures h < 0 ==> |r| == Max(0, |imp| + |Historical(prev, EntryLinks(imp))| + h)
    ensures forall j :: 0 <= j < |r| && j < |imp| ==> r[j].entry == imp[j]
    ensures forall j :: |imp| <= j < |r| ==> r[j] in prev && r[j].entry.link !in EntryLinks(imp)
  {
    var all := Flag(lookup, prev, imp) + Historical(prev, EntryLinks(imp));
    HistoricalTail(all, |imp|, Historical(prev, EntryLinks(imp)));
    SliceTo(all, h)
  }

  /** Every imported channel the prev snapshot already has is configured
      (otherwise the lookup of its history length raises ValueError), and the
      positional flag lookup stays in range. */
  predicate CanMerge(lookup: Lookup, prev: Snapshot, imported: Imported, chs: seq<Channel>) {
    && (forall k :: k in imported && k in prev ==> k in Names(chs))
    && (lookup == Positional ==> forall k :: k in imported && k in prev ==> PositionalDefined(prev[k], imported[k]))
  }

  /** `merge`: the new snapshot has exactly the imported channels. A channel
      the prev snapshot lacks gets all its items marked new and is not clipped
      again; a known channel is merged and clipped to the history length of
      the first configuration with its name. */
  function Merge(lookup: Lookup, prev: Snapshot, imported: Imported, chs: seq<Channel>): (r: Snapshot)
    requires CanMerge(lookup, prev, imported, chs)
    ensures r.Keys == imported.Keys
    ensures forall k :: k in imported && k !in prev ==>
              |r[k]| == |imported[k]| && forall j :: 0 <= j < |r[k]| ==> r[k][j] == Item(imported[k][j], true)
    ensures forall k :: k in imported && k in prev ==>
              r[k] == MergeChannel(lookup, prev[k], imported[k], FirstHistoryLength(chs, k))
  {
    map k | k in imported ::
      if k in prev then MergeChannel(lookup, prev[k], imported[k], FirstHistoryLength(chs, k))
      else MarkAllNew(imported[k])
  }

  /** One update of the snapshot: import the fetched channels and merge. */
  function Refresh(lookup: Lookup, prev: Snapshot, chs: seq<Channel>): (r: Snapshot)
    requires CanMerge(lookup, prev, ImportRss(chs), chs)
    ensures r.Keys == Names(chs)
  {
    Merge(lookup, prev, ImportRss(chs), chs)
  }
}
