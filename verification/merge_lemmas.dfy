/** Properties of the reconciliation engine that relate several of its
    functions: how the two flag lookups compare, what the merged list keeps,
    and one worked example of a merge. */
module MergeLemmas {
  import opened Seqs
  import opened RssClient
  import opened RssDatabase

  /** With distinct old links, the positional lookup copies the flag of the
      old item at the same position, whatever that item's link is. */
  lemma PositionalCopiesByPosition(prev: seq<Item>, imp: seq<Entry>, i: int)
    requires PositionalDefined(prev, imp)
    requires UniqueLinks(prev)
    requires 0 <= i < |imp| && imp[i].link in ItemLinks(prev)
    ensures Flag(Positional, prev, imp)[i].isNew == prev[i].isNew
  {
    IndexOfDistinct(ItemLinks(prev), i);
  }

  /** With distinct old links, the link lookup copies the flag of the old
      item with the same link: identity by link, not by position. */
  lemma ByLinkCopiesFromSameLink(prev: seq<Item>, imp: seq<Entry>, i: int, j: int)
    requires UniqueLinks(prev)
    requires 0 <= i < |imp| && 0 <= j < |prev| && imp[i].link == prev[j].entry.link
    ensures Flag(ByLink, prev, imp)[i].isNew == prev[j].isNew
  {
    assert ItemLinks(prev)[j] == imp[i].link;
    IndexOfDistinct(ItemLinks(prev), j);
  }

  /** At a position where the old and the imported item carry the same link,
      both lookups give the same flag. */
  lemma LookupsAgreeAt(prev: seq<Item>, imp: seq<Entry>, i: int)
    requires PositionalDefined(prev, imp)
    requires 0 <= i < |imp| && i < |prev| && prev[i].entry.link == imp[i].link
    ensures Flag(Positional, prev, imp)[i] == Flag(ByLink, prev, imp)[i]
  {
    assert ItemLinks(prev)[i] == imp[i].link;
  }

  /** When every known imported item sits at the position of its old
      namesake, the as-written merge and the link-matched merge coincide. */
  lemma LookupsAgree(prev: seq<Item>, imp: seq<Entry>, h: int)
    requires PositionalDefined(prev, imp)
    requires forall i :: 0 <= i < |imp| && i < |prev| && imp[i].link in ItemLinks(prev) ==> prev[i].entry.link == imp[i].link
    ensures MergeChannel(Positional, prev, imp, h) == MergeChannel(ByLink, prev, imp, h)
  {
    var p := Flag(Positional, prev, imp);
    var b := Flag(ByLink, prev, imp);
    forall i | 0 <= i < |imp|
      ensures p[i] == b[i]
    {
      if imp[i].link in ItemLinks(prev) {
        LookupsAgreeAt(prev, imp, i);
      }
    }
    assert p == b;
  }

  /** The historical filter distributes over concatenation; with the
      membership property this pins it down as an order-keeping filter. */
  lemma {:induction false} HistoricalAppend(a: seq<Item>, b: seq<Item>, links: seq<string>)
    ensures Historical(a + b, links) == Historical(a, links) + Historical(b, links)
    decreases |a|
  {
    if |a| == 0 {
      assert a + b == b;
    } else {
      assert (a + b)[1..] == a[1..] + b;
      HistoricalAppend(a[1..], b, links);
    }
  }

  /** Nothing is dropped from an old list none of whose links was imported. */
  lemma {:induction false} HistoricalKeepsUnmatched(prev: seq<Item>, links: seq<string>)
    requires forall i :: 0 <= i < |prev| ==> prev[i].entry.link !in links
    ensures Historical(prev, links) == prev
    decreases |prev|
  {
    if |prev| > 0 {
      HistoricalKeepsUnmatched(prev[1..], links);
    }
  }

  /** Old items with distinct links stay distinct after filtering. */
  lemma HistoricalUnique(prev: seq<Item>, links: seq<string>)
    requires UniqueLinks(prev)
    ensures UniqueLinks(Historical(prev, links))
  {
    UniqueLinksAt(prev);
    HistoricalDistinctLinks(prev, links);
    UniqueLinksAt(Historical(prev, links));
  }

  /** The induction behind `HistoricalUnique`, on the items' links. */
  lemma {:induction false} HistoricalDistinctLinks(prev: seq<Item>, links: seq<string>)
    requires forall i, j :: 0 <= i < j < |prev| ==> prev[i].entry.link != prev[j].entry.link
    ensures forall i, j :: 0 <= i < j < |Historical(prev, links)| ==>
              Historical(prev, links)[i].entry.link != Historical(prev, links)[j].entry.link
    decreases |prev|
  {
    if |prev| > 0 {
      var tail := prev[1..];
      HistoricalDistinctLinks(tail, links);
      var rest := Historical(tail, links);
      assert forall i, j :: 0 <= i < j < |rest| ==> rest[i].entry.link != rest[j].entry.link;
      if prev[0].entry.link !in links {
        forall x | x in rest
          ensures x.entry.link != prev[0].entry.link
        {
          var k :| 0 <= k < |tail| && tail[k] == x;
          assert prev[k + 1] == x;
        }
        var r := [prev[0]] + rest;
        assert r == Historical(prev, links);
        forall i, j | 0 <= i < j < |r|
          ensures r[i].entry.link != r[j].entry.link
        {
          assert r[j] == rest[j - 1] && rest[j - 1] in rest;
          if i > 0 {
            assert r[i] == rest[i - 1];
          }
        }
      } else {
        assert Historical(prev, links) == rest;
      }
    }
  }

  /** A merged channel keeps the snapshot's invariant: when the old list and
      the import each have distinct links, so does the result. */
  lemma MergeChannelUnique(lookup: Lookup, prev: seq<Item>, imp: seq<Entry>, h: int)
    requires lookup == Positional ==> PositionalDefined(prev, imp)
    requires UniqueLinks(prev) && UniqueEntryLinks(imp)
    ensures UniqueLinks(MergeChannel(lookup, prev, imp, h))
  {
    var flagged := Flag(lookup, prev, imp);
    var hist := Historical(prev, EntryLinks(imp));
    var all := flagged + hist;
    HistoricalUnique(prev, EntryLinks(imp));
    UniqueLinksAt(hist);
    assert forall i, j :: 0 <= i < j < |imp| ==> EntryLinks(imp)[i] != EntryLinks(imp)[j];
    forall i, j | 0 <= i < j < |all|
      ensures all[i].entry.link != all[j].entry.link
    {
      if j < |imp| {
        assert all[i] == flagged[i] && all[j] == flagged[j];
      } else {
        assert all[j] == hist[j - |imp|] && all[j] in hist;
        if i < |imp| {
          assert all[i] == flagged[i];
          assert EntryLinks(imp)[i] == imp[i].link;
        } else {
          assert all[i] == hist[i - |imp|];
        }
      }
    }
    var r := MergeChannel(lookup, prev, imp, h);
    assert forall i :: 0 <= i < |r| ==> r[i] == all[i];
    UniqueLinksAt(r);
  }

  /** The merged list of a known channel never exceeds the history length of
      the first configuration with its name. */
  lemma MergeRespectsHistoryLength(lookup: Lookup, prev: Snapshot, imported: Imported, chs: seq<Channel>, k: string)
    requires CanMerge(lookup, prev, imported, chs)
    requires k in imported && k in prev && FirstHistoryLength(chs, k) >= 0
    ensures |Merge(lookup, prev, imported, chs)[k]| <= FirstHistoryLength(chs, k)
  {
  }

  /** Merge never rewrites an item's title, link or summary: each merged
      item is an imported entry with a flag, or an old item unchanged. */
  lemma MergeOnlyFlags(lookup: Lookup, prev: Snapshot, imported: Imported, chs: seq<Channel>, k: string, j: int)
    requires CanMerge(lookup, prev, imported, chs)
    requires k in imported
    requires 0 <= j < |Merge(lookup, prev, imported, chs)[k]|
    ensures var x := Merge(lookup, prev, imported, chs)[k][j];
            (j < |imported[k]| && x.entry == imported[k][j]) || (k in prev && x in prev[k])
  {
  }

  /** An old item whose link dropped out of the feed stays in the merged
      list whenever the list is not clipped. */
  lemma MergeRetainsHistory(lookup: Lookup, prev: Snapshot, imported: Imported, chs: seq<Channel>, k: string, x: Item)
    requires CanMerge(lookup, prev, imported, chs)
    requires k in imported && k in prev
    requires x in prev[k] && x.entry.link !in EntryLinks(imported[k])
    requires FirstHistoryLength(chs, k) >= |imported[k]| + |prev[k]|
    ensures x in Merge(lookup, prev, imported, chs)[k]
  {
    var hist := Historical(prev[k], EntryLinks(imported[k]));
    var all := Flag(lookup, prev[k], imported[k]) + hist;
    var r := Merge(lookup, prev, imported, chs)[k];
    assert |r| == |all|;
    assert r == all;
    assert x in hist;
  }

  /** After an update every configured channel has an entry, so the channel
      list can be drawn. */
  lemma RefreshCoversConfiguration(lookup: Lookup, prev: Snapshot, chs: seq<Channel>, i: int)
    requires CanMerge(lookup, prev, ImportRss(chs), chs)
    requires 0 <= i < |chs|
    ensures chs[i].conf.name in Refresh(lookup, prev, chs)
  {
    assert NameList(chs)[i] == chs[i].conf.name;
  }

  // A worked example: "a" was read, "b" is unread, the feed now offers "b"
  // and "c".

  function EntryOf(link: string): Entry { Entry(link, link, "") }

  function ScenarioOld(): seq<Item> {
    [Item(EntryOf("a"), false), Item(EntryOf("b"), true)]
  }

  function ScenarioImport(): seq<Entry> {
    [EntryOf("b"), EntryOf("c")]
  }

  /** Link-matched merge, history length 10: b keeps its unread flag, c is
      new, a is retained behind them. */
  lemma ScenarioByLink()
    ensures MergeChannel(ByLink, ScenarioOld(), ScenarioImport(), 10)
         == [Item(EntryOf("b"), true), Item(EntryOf("c"), true), Item(EntryOf("a"), false)]
  {
    assert ItemLinks(ScenarioOld()) == ["a", "b"];
    assert EntryLinks(ScenarioImport()) == ["b", "c"];
    assert Historical(ScenarioOld(), ["b", "c"]) == [Item(EntryOf("a"), false)];
  }

  /** Same scenario with history length 1: only b survives the clipping. */
  lemma ScenarioByLinkClipped()
    ensures MergeChannel(ByLink, ScenarioOld(), ScenarioImport(), 1) == [Item(EntryOf("b"), true)]
  {
    ScenarioByLink();
  }

  /** As written, the same scenario looks up the flag of "a" (the old item
      at position 0) for "b", so the unread item "b" comes back read. */
  lemma ScenarioPositional()
    ensures PositionalDefined(ScenarioOld(), ScenarioImport())
    ensures MergeChannel(Positional, ScenarioOld(), ScenarioImport(), 10)
         == [Item(EntryOf("b"), false), Item(EntryOf("c"), true), Item(EntryOf("a"), false)]
  {
    assert ItemLinks(ScenarioOld()) == ["a", "b"];
    assert EntryLinks(ScenarioImport()) == ["b", "c"];
    assert Historical(ScenarioOld(), ["b", "c"]) == [Item(EntryOf("a"), false)];
  }

  /** As written, a known item at a position past the end of the old list
      makes the lookup raise IndexError: one old item "a", and the feed now
      offers "c" in front of it. */
  lemma PositionalOutOfRange()
    ensures !PositionalDefined([Item(EntryOf("a"), false)], [EntryOf("c"), EntryOf("a")])
  {
    var imp := [EntryOf("c"), EntryOf("a")];
    assert ItemLinks([Item(EntryOf("a"), false)]) == ["a"];
    assert imp[1].link in ["a"];
  }
}
