/** The terminal list widget: a header, a list of rows, a highlighted
    selection and a scroll offset. This module holds the arithmetic of the
    navigation keys and the pure part of drawing one line. */
module CuiList {
  import opened Options
  import opened Seqs

  /** How far PageUp and PageDown move the selection. */
  const PageSize := 5

  /** A header line; `bold` marks a title. */
  datatype Line = Line(text: string, bold: bool)

  /** The keys the reader distinguishes, as the terminal names them. */
  datatype Key =
    | Newline | KeyRight | KeyLeft | KeyBackspace
    | LetterQ | SpaceBar | LetterM | LetterA
    | KeyUp | KeyDown | KeyPageUp | KeyPageDown
    | OtherKey

  datatype Cui = Cui(header: seq<Line>, items: seq<string>, selection: int, scroll: int)

  /** A line placed on the screen: row, clipped text and attributes. */
  datatype Placed = Placed(y: int, text: string, standout: bool, bold: bool)

  predicate IsNavigation(key: Key) {
    key == KeyUp || key == KeyDown || key == KeyPageUp || key == KeyPageDown
  }

  /** Rows available to the items below the header. */
  function WindowSize(c: Cui, height: int): int {
    height - |c.header|
  }

  /** The selection names an item, whenever there is one. */
  predicate SelectionInRange(c: Cui) {
    |c.items| > 0 ==> 0 <= c.selection < |c.items|
  }

  /** The selected item lies in the visible window. */
  predicate Windowed(c: Cui, height: int) {
    0 <= c.selection - c.scroll < WindowSize(c, height)
  }

  /** Scroll back so the selection is not above the window. */
  function FollowUp(selection: int, scroll: int): (s: int)
    ensures s == Min(scroll, selection)
  {
    if selection - scroll < 0 then selection else scroll
  }

  /** Scroll forward so the selection is not below the window. */
  function FollowDown(selection: int, scroll: int, window: int): (s: int)
    ensures s >= scroll
    ensures selection - scroll < window ==> s == scroll
    ensures selection - scroll >= window ==> selection - s == window - 1
  {
    if selection - scroll >= window then selection - window + 1 else scroll
  }

  /** The list's own handling of a key, before the application sees it. */
  function Navigate(c: Cui, key: Key, height: int): (r: Cui)
    ensures r.header == c.header && r.items == c.items
    ensures !IsNavigation(key) ==> r == c
    ensures key == KeyUp && c.selection >= 0 ==>
              r.selection == Max(0, c.selection - 1) && r.scroll == Min(c.scroll, r.selection)
    ensures key == KeyUp && c.selection < 0 ==>
              r.selection == c.selection && r.scroll == Min(c.scroll, r.selection)
    ensures key == KeyDown && c.selection < |c.items| - 1 ==> r.selection == c.selection + 1
    ensures key == KeyDown && c.selection >= |c.items| - 1 ==> r.selection == c.selection
    ensures key == KeyPageUp ==>
              r.selection == Max(0, c.selection - PageSize) && r.scroll == Min(c.scroll, r.selection)
    ensures key == KeyPageDown ==> r.selection == Min(|c.items| - 1, c.selection + PageSize)
    ensures (key == KeyDown || key == KeyPageDown) ==> r.selection - r.scroll < WindowSize(c, height)
    ensures (key == KeyDown || key == KeyPageDown) ==>
              && (r.selection - c.scroll < WindowSize(c, height) ==> r.scroll == c.scroll)
              && (r.selection - c.scroll >= WindowSize(c, height) ==>
                    r.scroll > c.scroll && r.selection - r.scroll == WindowSize(c, height) - 1)
  {
    var window := WindowSize(c, height);
    match key
    case KeyUp =>
      var s := if c.selection > 0 then c.selection - 1 else c.selection;
      c.(selection := s, scroll := FollowUp(s, c.scroll))
    case KeyDown =>
      var s := if c.selection < |c.items| - 1 then c.selection + 1 else c.selection;
      c.(selection := s, scroll := FollowDown(s, c.scroll, window))
    case KeyPageUp =>
      var s := if c.selection - PageSize < 0 then 0 else c.selection - PageSize;
      c.(selection := s, scroll := FollowUp(s, c.scroll))
    case KeyPageDown =>
      var s := if c.selection + PageSize > |c.items| - 1 then |c.items| - 1 else c.selection + PageSize;
      c.(selection := s, scroll := FollowDown(s, c.scroll, window))
    case _ => c
  }

  /** On a non-empty list with room for at least one item, every key keeps
      the selection on an item and inside the visible window. */
  lemma NavigateKeepsWindow(c: Cui, key: Key, height: int)
    requires |c.items| > 0 && WindowSize(c, height) >= 1
    requires SelectionInRange(c) && Windowed(c, height)
    ensures SelectionInRange(Navigate(c, key, height))
    ensures Windowed(Navigate(c, key, height), height)
  {
  }

  /** Every key keeps the selection on an item of a non-empty list. */
  lemma NavigateKeepsSelectionInRange(c: Cui, key: Key, height: int)
    requires SelectionInRange(c)
    ensures SelectionInRange(Navigate(c, key, height))
  {
  }

  /** PageDown on an empty list leaves the selection at -1. */
  lemma PageDownOnEmpty(c: Cui, height: int)
    requires |c.items| == 0 && c.selection >= 0
    ensures Navigate(c, KeyPageDown, height).selection == -1
  {
  }

  /** Newlines become spaces; nothing else changes. */
  function Flatten(text: string): (r: string)
    ensures |r| == |text|
    ensures forall i :: 0 <= i < |r| ==> r[i] != '\n'
    ensures forall i :: 0 <= i < |r| && text[i] == '\n' ==> r[i] == ' '
    ensures forall i :: 0 <= i < |r| && text[i] != '\n' ==> r[i] == text[i]
  {
    seq(|text|, i requires 0 <= i < |text| => if text[i] == '\n' then ' ' else text[i])
  }

  /** Clip `text` to `w` characters, marking the cut with "...". */
  function Clip(text: string, w: int): (r: string)
    ensures |text| <= w ==> r == text
    ensures |text| > w >= 0 ==> |r| == w
    ensures |text| > w >= 3 ==> r == text[..w - 3] + "..."
    ensures |text| > w && 0 <= w < 3 ==> r == "..."[..w]
    ensures w < 0 ==> r == "..."[..Max(0, 3 + w)]
  {
    if |text| > w then SliceTo(SliceTo(text, Max(w - 3, 0)) + "...", w) else text
  }

  /** The screen row of item `position`. */
  function ItemRow(c: Cui, position: int): int {
    position + |c.header| - c.scroll
  }

  /** Item `position` is drawn: its row is below the header and on screen. */
  predicate ItemDrawn(c: Cui, position: int, height: int) {
    |c.header| <= ItemRow(c, position) < height
  }

  /** The drawn items are exactly those of the window starting at `scroll`. */
  lemma DrawnIsWindow(c: Cui, position: int, height: int)
    ensures ItemDrawn(c, position, height) <==> c.scroll <= position < c.scroll + WindowSize(c, height)
  {
  }

  /** While the window property holds, the selected item is on screen. */
  lemma SelectionDrawn(c: Cui, height: int)
    requires Windowed(c, height)
    ensures ItemDrawn(c, c.selection, height)
  {
  }

  /** One line as it is drawn: row, text with newlines flattened and clipped
      one column short of `width`, highlighted when it is the selected item,
      bold when it is a bold header line; None when it falls off the screen. */
  function DrawLine(c: Cui, position: int, isHeader: bool, width: int, height: int): (r: Option<Placed>)
    requires isHeader ==> 0 <= position < |c.header|
    requires !isHeader ==> 0 <= position < |c.items|
    ensures isHeader ==> (r.Some? <==> position < height)
    ensures !isHeader ==> (r.Some? <==> ItemDrawn(c, position, height))
    ensures r.Some? && !isHeader ==> r.value.y == ItemRow(c, position) && r.value.standout == (position == c.selection) && !r.value.bold
    ensures r.Some? && isHeader ==> r.value.y == position && !r.value.standout && r.value.bold == c.header[position].bold
    ensures r.Some? ==> r.value.text == Clip(Flatten(if isHeader then c.header[position].text else c.items[position]), width - 1)
    ensures r.Some? && width >= 1 ==> |r.value.text| <= width - 1
    ensures r.Some? ==> forall i :: 0 <= i < |r.value.text| ==> r.value.text[i] != '\n'
  {
    var y := if isHeader then position else ItemRow(c, position);
    var top := if isHeader then 0 else Max(0, |c.header|);
    var raw := if isHeader then c.header[position].text else c.items[position];
    var text := Flatten(raw);
    if top <= y < height then
      var shown := Clip(text, width - 1);
      assert forall i :: 0 <= i < |shown| ==> shown[i] in text + "...";
      Some(Placed(y, shown, position == c.selection && !isHeader, isHeader && c.header[position].bold))
    else None
  }
}
