# frss core in Dafny

A model of the core of frss, a console feed reader. The model has three parts.

- **Reconciliation.** `import_rss` takes each configured channel's fetched items. It keeps only title, link and summary, and clips the list to the channel's `HistoryLength`. `merge` combines that import with the snapshot from the previous session. It decides which items are unread (`new`), keeps items that dropped out of the feed, and clips again.
- **Navigation.** The list widget handles Up, Down, PageUp and PageDown by changing its selection and scroll offset. The application's key callback moves between the channel list (level 0), an item list (level 1) and an item's content (level 2), and changes read flags.
- **Presentation.** This covers the channel rows with their `!`/`*` markers, the item rows, the optional title/subtitle header, and how one line is clipped and placed on screen.

Modules follow the source files:

- `RssClient`: channel configuration and fetched channels (`RssClient.py`).
- `RssDatabase` and `MergeLemmas`: `RssDatabase.py`.
- `CuiList`: `CuiList.py`.
- `Presentation` and `App`: `App.py`.

`Seqs` gives Python's `s[:n]` (negative `n` included), `s[i]` with negative indices, and `list.index`. `Options` is a small optional-value type.

Exceptions the source does not catch are preconditions. These are:

- IndexError from the positional flag lookup (`PositionalDefined`).
- KeyError when a configured channel has no entry in the snapshot (`Covers`).
- ValueError when merge meets a known channel, one the previous snapshot has, that no configuration names (`CanMerge`).
- IndexError from indexing an empty item list (`CanPress`).

The flag lookup in `merge` comes in two versions, selected by `Lookup`:

- `Positional` is the code as written.
- `ByLink` is the link-matched lookup that the code's comment describes.

Every structural merge property is proved for both.

## Model

| member | source | states |
|---|---|---|
| Seqs.SliceTo | frsslib/RssDatabase.py:34 | Python prefix slicing: the result is a prefix of the list, of length min(n, len) for n >= 0 and max(0, len + n) for negative n |
| Seqs.IndexOf | frsslib/RssDatabase.py:86 | `list.index`: a position holding the value, and no earlier position holds it |
| Seqs.Resolve | frsslib/App.py:95 | Python indexing: a valid index denotes a position inside the list; a negative one counts from the end |
| RssClient.Configure | frsslib/RssClient.py:20-35 | a channel's configuration is the defaults (GetFullText 0, ShowTitle 1, ShowSubtitle 1, HistoryLength 15) with every setting its file supplies taking precedence |
| RssClient.FirstHistoryLength | frsslib/RssDatabase.py:86-87 | merge clips with the history length of the first channel configured under the name |
| RssDatabase.Load | frsslib/RssDatabase.py:44-49 | without a stored file the snapshot has no channels; with one it is the stored snapshot |
| RssDatabase.ImportChannel | frsslib/RssDatabase.py:26-34 | the import of one channel is its first min(n, HistoryLength) fetched items, in fetch order, each projected to title, link and summary |
| RssDatabase.ImportRss | frsslib/RssDatabase.py:22-36 | one entry per configured name; a name configured twice gets the import of its last channel |
| RssDatabase.OldFlag | frsslib/RssDatabase.py:70-74 | a known item takes the flag of the first old item carrying the link looked up, as `list.index` finds it; ByLink looks up the item's own link; Positional looks up the link of the old item at its position |
| RssDatabase.Flag | frsslib/RssDatabase.py:63-74 | imported items keep their entries in order; an item whose link the old list lacks is new; a known one takes the looked-up flag |
| RssDatabase.Historical | frsslib/RssDatabase.py:76-82 | the retained items are exactly the old items whose link was not imported, unchanged |
| RssDatabase.MarkAllNew | frsslib/RssDatabase.py:90-94 | for a channel the old snapshot lacks, every imported item is new and the list is not clipped again |
| RssDatabase.MergeChannel | frsslib/RssDatabase.py:61-88 | a known channel's list is a prefix of flagged imports followed by retained old items, of the clipped length; imports come first, then old items whose link was not imported |
| RssDatabase.Merge | frsslib/RssDatabase.py:51-96 | the new snapshot has exactly the imported channels (old ones not imported are dropped); new channels all-new, known channels merged and clipped |
| RssDatabase.Refresh | frsslib/App.py:200-203 | after import and merge the snapshot's channels are exactly the configured names |
| MergeLemmas.PositionalCopiesByPosition | frsslib/RssDatabase.py:73-74 | as written, with distinct old links, a known item at position i takes old[i]'s flag whatever old[i]'s link |
| MergeLemmas.ByLinkCopiesFromSameLink | frsslib/RssDatabase.py:70-74 | link-matched, with distinct old links, a known item takes the flag of the old item with the same link |
| MergeLemmas.LookupsAgreeAt | frsslib/RssDatabase.py:73 | where old[i] and imported[i] share a link, both lookups give the same item |
| MergeLemmas.LookupsAgree | frsslib/RssDatabase.py:64-88 | when each known import sits at the position of its old namesake, the as-written and link-matched merges are equal |
| MergeLemmas.HistoricalAppend | frsslib/RssDatabase.py:78-82 | the retention filter distributes over concatenation, so it keeps old order |
| MergeLemmas.HistoricalKeepsUnmatched | frsslib/RssDatabase.py:78-82 | when no old link was imported, the whole old list is retained in order |
| MergeLemmas.HistoricalUnique | frsslib/RssDatabase.py:76-82 | retaining from a list with distinct links gives distinct links |
| MergeLemmas.MergeChannelUnique | frsslib/RssDatabase.py:57-88 | if the old list and the import each have distinct links, the merged list does too |
| MergeLemmas.MergeRespectsHistoryLength | frsslib/RssDatabase.py:84-88 | a known channel's merged list is no longer than its (non-negative) history length |
| MergeLemmas.MergeOnlyFlags | frsslib/RssDatabase.py:60-96 | every merged item is an imported entry at its position with some flag, or an unchanged old item |
| MergeLemmas.MergeRetainsHistory | frsslib/RssDatabase.py:76-88 | an old item whose link left the feed is kept when the history length leaves room |
| MergeLemmas.RefreshCoversConfiguration | frsslib/RssDatabase.py:22-36 | after an update every configured channel has a snapshot entry |
| MergeLemmas.ScenarioByLink | frsslib/RssDatabase.py:60-88 | old [a read, b unread], feed [b, c], history 10: link-matched merge gives [b unread, c unread, a read] |
| MergeLemmas.ScenarioByLinkClipped | frsslib/RssDatabase.py:84-88 | same with history 1: only [b unread] remains |
| MergeLemmas.ScenarioPositional | frsslib/RssDatabase.py:73 | as written the same input gives [b read, c unread, a read] |
| MergeLemmas.PositionalOutOfRange | frsslib/RssDatabase.py:73 | as written, old [a] and feed [c, a] index past the old list |
| CuiList.Navigate | frsslib/CuiList.py:93-114 | Up: sel-1 when sel > 0, else unchanged; scroll min(scroll, sel'); Down: +1 only below the last item; PageUp: max(0, sel-5); PageDown: min(len-1, sel+5); scrolling down moves only when needed and then leaves the selection on the last window row; other keys change nothing |
| CuiList.NavigateKeepsWindow | frsslib/CuiList.py:93-116 | on a non-empty list with a window of at least one row, every key keeps 0 <= sel < len and 0 <= sel - scroll < height - len(header) |
| CuiList.NavigateKeepsSelectionInRange | frsslib/CuiList.py:93-114 | every key keeps the selection on an item of a non-empty list |
| CuiList.PageDownOnEmpty | frsslib/CuiList.py:109-112 | on an empty list PageDown sets the selection to -1 |
| CuiList.Flatten | frsslib/CuiList.py:133 | newlines become spaces, every other character and the length are kept |
| CuiList.Clip | frsslib/CuiList.py:137-139 | text longer than w becomes exactly w characters, the first w-3 of the text then "..." (a prefix of "..." when w < 3); shorter text is unchanged |
| CuiList.DrawnIsWindow | frsslib/CuiList.py:126-135 | item p is drawn at row p + len(header) - scroll, exactly when scroll <= p < scroll + height - len(header) |
| CuiList.SelectionDrawn | frsslib/CuiList.py:126-135 | while the window property holds, the selected item is drawn |
| CuiList.DrawLine | frsslib/CuiList.py:118-154 | a drawn line has no newline and fits in width-1 columns; only the selected item is highlighted and only bold header lines are bold |
| Presentation.HaveNewItems | frsslib/App.py:15-20 | per configured channel, true exactly when some item of it is unread |
| Presentation.ChannelFlag | frsslib/App.py:33 | two characters ending in a space; '!' iff broken, '*' iff not broken and unread, ' ' otherwise |
| Presentation.PrintChannels | frsslib/App.py:22-35 | one row per configured channel: the flag, then the name unchanged |
| Presentation.ItemRowText | frsslib/App.py:62-63 | '*' iff the item is unread, a space, then the title |
| Presentation.PrintItems | frsslib/App.py:37-63 | header: bold title if shown, subtitle if shown, a blank line iff either; so 0 to 3 lines; one row per item |
| Presentation.ChannelStarMatchesItemStars | frsslib/App.py:15-63 | a healthy channel's row is starred iff one of its item rows is |
| App.Start | frsslib/App.py:129-136 | the loop starts on the channel list, nothing scrolled, first row selected |
| App.Select | frsslib/App.py:85-102 | level 0: to level 1, remembering the selection as the channel, selection 0, scroll kept; level 1: the selected item becomes read, nothing else changes, still level 1 with the same selection |
| App.Back | frsslib/App.py:103-109 | exit iff at level 0; from level 1 back to the channel rows with the opened channel selected |
| App.ToggleRead | frsslib/App.py:110-115 | at level 1 flips the selected item's flag only; elsewhere no effect |
| App.ToggleAll | frsslib/App.py:116-123 | at level 1 every item's flag becomes "no item was unread"; elsewhere no effect |
| App.KeyPressed | frsslib/App.py:80-123 | the loop stops exactly on Back at level 0; unbound keys change nothing |
| App.Step | frsslib/CuiList.py:87-116 | one key press: a list key moves only the list and leaves level, channel and snapshot alone; the loop stops exactly on Back from the channel list; unbound keys change nothing (NavigationStep and StepKeepsConsistent carry the rest) |
| App.NavigationStep | frsslib/CuiList.py:93-116 | a list key changes only the list, and the callback ignores it |
| App.StartConsistent | frsslib/App.py:217 | the initial session shows the channel rows |
| App.StepKeepsConsistent | frsslib/App.py:80-123 | every key press keeps the level at 0 or 1, the rows equal to that level's listing, and the selection on a row |
| App.SelectThenBackRestores | frsslib/App.py:85-109 | Enter then Back from the channel list restores the list, selection and scroll included |
| App.ToggleTwiceRestores | frsslib/App.py:110-115 | toggling twice gives back the session |
| App.SetAllFlipsAnyNew | frsslib/App.py:116-123 | on a non-empty list, A flips "some item is unread" |
| App.ToggleAllAlternates | frsslib/App.py:116-123 | two presses of A alternate "some item is unread"; on an empty list A changes nothing |
| App.SelectKeepsStaleScroll | frsslib/App.py:85-90 | as written, entering a channel while the list is scrolled selects an item that is not drawn |
| App.DownThenSelectHidesSelection | frsslib/App.py:85-90 | as written, scrolling the channel list with Down and then pressing Enter hides the selection |
| App.BackKeepsStaleScroll | frsslib/App.py:103-109 | as written, going back can highlight a channel below the window |
| App.Refit | frsslib/CuiList.py:97-103 | corrected: the scroll offset nearest the old one that puts the selection in the window and is not negative while the selection names a row: the selection when it was above the window, the offset showing it on the last row when it was below, the identity when it already fits |
| App.StepRefit | frsslib/App.py:80-123 | corrected step: the same reaction as the step as written except the scroll offset, unchanged when that offset already fits; after every key the selected row is in the window and the offset is not negative while the selection names a row |
| App.StepRefitAgreesOnNavigation | frsslib/CuiList.py:93-116 | on list keys, from a non-empty list whose selection names an item and is already in the window, with a non-negative scroll, the corrected step equals the step as written |
| App.StepRefitSelectStartsAtTop | frsslib/App.py:85-90 | corrected: entering a channel leaves it at selection 0 with scroll 0, whatever the channel list's scroll was |
| App.EmptyItemListScrollsAboveTop | frsslib/CuiList.py:97-112 | as written, PageDown, Up and Back from an empty item list return to the channel list with scroll -1, channel 0 one row below the top |

## Left out

- Pickle persistence (`save`, `load`): this is file I/O through a foreign serializer. `RssDatabase.Load` keeps only one rule: with no stored file the snapshot is empty.
- Reading the configuration files and fetching feeds (ConfigObj, feedparser, network). A channel arrives as a `Channel` value with its fetched items and its `broken` flag. `RssClient.Configure` applies the defaults (0, 1, 1, 15) to whatever settings a file supplies. Configuration switches are already integers, so `int()` failing on malformed text is not modelled.
- A fetched item that lacks `title`, `link` or `summary` makes the projection in `import_rss` raise KeyError. This is not modelled: `FeedItem` always has the three fields.
- `print_content`, `WwwReader` and `Pager` are not modelled. They cover full-text download, HTML extraction, text wrapping and the `less` subprocess. Selecting an item is modelled only up to marking it read and returning to level 1.
- `main` and `parse_args` are not modelled: command-line flags, version printing, the "Nothing new" early exit, and the paths.
- Curses is not modelled. This covers setup and teardown, the drawing calls, `PrintingError`, Ctrl-C handling and locale setup. `CuiList.DrawLine` returns what would be drawn.
- UTF-8 encoding is not modelled. Text is `seq<char>`, so clipping counts characters where the source counts encoded bytes. The two agree on ASCII text.
- The callback registry (`register_cb`, `call_cb`) is not modelled. `App.Step` calls the key callback directly.
- Level 2 is never a resting state: the source returns to level 1 before the next key. `App.Consistent` therefore allows only levels 0 and 1.
- A channel missing from the import is dropped: RssDatabase.py:96 replaces the whole snapshot with the import, and `RssDatabase.Merge` does the same. Every configured channel is imported, so this only drops channels whose configuration was removed.
- App.StepRefitAgreesOnNavigation: assumes a non-empty list whose selection names an item inside the window, with a non-negative scroll offset. Outside those states the two steps differ on purpose: from the stale scroll Select and Back leave behind (Findings rows 2 and 3) the corrected step brings the selection back into the window, and it lifts the negative offset of the last Findings row, while the step as written keeps both.

## Findings

| source | as written | input that shows it | evidently intended | confidence | as-written member | corrected member |
|---|---|---|---|---|---|---|
| frsslib/RssDatabase.py:73 | a known imported item's flag is looked up through the link of the old item at the same position, not through its own link | old list [a read, b unread], feed now [b, c]: b comes back read; old list [a], feed [c, a]: IndexError | copy the flag of the old item with the imported item's own link | high, not executed | MergeLemmas.ScenarioPositional | MergeLemmas.ByLinkCopiesFromSameLink |
| frsslib/App.py:85-90 | entering a channel resets the selection to 0 but keeps the channel list's scroll offset | more channels than screen rows: Down until the list scrolls, then Enter; item 0 is selected but drawn above the screen | start the item list scrolled to the top | medium, not executed | App.DownThenSelectHidesSelection | App.StepRefitSelectStartsAtTop |
| frsslib/App.py:103-109 | going back selects the opened channel but keeps the item list's scroll offset | open channel 7 on a 5-row screen, go back with the item list unscrolled: channel 7 is highlighted but not drawn | scroll so the highlighted channel is visible | medium, not executed | App.BackKeepsStaleScroll | App.StepRefit |
| frsslib/CuiList.py:97-98 | Up sets the scroll to the selection whenever the selection is above the window, even when the selection is -1, which PageDown leaves on an empty list (lines 109-112) | open a channel with no items, PageDown, Up, then Back: the channel list is drawn with scroll -1, its first row blank and every channel one row low | keep the scroll offset at 0 or above while a row is selected | medium, not executed | App.EmptyItemListScrollsAboveTop | App.StepRefit |
