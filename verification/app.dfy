/** The reader's navigation: three levels (channel list, item list, item
    content), the key callback that moves between them and flips read flags,
    and the whole step the list runs for one key press. */
module App {
  import opened Seqs
  import opened RssClient
  import opened RssDatabase
  import opened CuiList
  import opened Presentation

  /** `level`: -1 exit, 0 channel list, 1 item list, 2 item content.
      `chSelection`: the channel whose items are shown. */
  datatype AppState = AppState(level: int, chSelection: int)

  /** Everything a key press can change. */
  datatype Session = Session(app: AppState, cui: Cui, db: Snapshot)

  /** The session after a key, and whether the list loop stops. */
  datatype Reaction = Reaction(session: Session, exit: bool)

  predicate IsSelect(key: Key) { key == Newline || key == KeyRight }

  predicate IsBack(key: Key) { key == LetterQ || key == KeyLeft || key == KeyBackspace }

  predicate IsToggle(key: Key) { key == SpaceBar || key == LetterM }

  predicate IsToggleAll(key: Key) { key == LetterA }

  /** The session the reader starts its list loop with. */
  function Start(chs: seq<Channel>, db: Snapshot): (s: Session)
    requires Covers(chs, db)
    ensures s.app.level == 0 && s.cui.selection == 0 && s.cui.scroll == 0
    ensures s.cui.header == [] && |s.cui.items| == |chs|
  {
    Session(AppState(0, 0), Cui([], PrintChannels(chs, db), 0, 0), db)
  }

  /** `i` indexes a configured channel whose items the snapshot holds. */
  predicate Showable(chs: seq<Channel>, db: Snapshot, i: int) {
    ValidIndex(i, |chs|) && chs[Resolve(i, |chs|)].conf.name in db
  }

  function NameAt(chs: seq<Channel>, i: int): string
    requires ValidIndex(i, |chs|)
  {
    chs[Resolve(i, |chs|)].conf.name
  }

  /** `print_items` for channel `i`: the list shows that channel's listing. */
  function ShowItems(c: Cui, chs: seq<Channel>, db: Snapshot, i: int): (r: Cui)
    requires Showable(chs, db, i)
    ensures r.selection == c.selection && r.scroll == c.scroll
    ensures r.header == PrintItems(chs[Resolve(i, |chs|)], db[NameAt(chs, i)]).header
    ensures r.items == PrintItems(chs[Resolve(i, |chs|)], db[NameAt(chs, i)]).rows
  {
    var l := PrintItems(chs[Resolve(i, |chs|)], db[NameAt(chs, i)]);
    c.(header := l.header, items := l.rows)
  }

  /** `print_channels`: the list shows the channel rows without a header. */
  function ShowChannels(c: Cui, chs: seq<Channel>, db: Snapshot): (r: Cui)
    requires Covers(chs, db)
    ensures r.selection == c.selection && r.scroll == c.scroll
    ensures r.header == [] && r.items == PrintChannels(chs, db)
  {
    c.(header := [], items := PrintChannels(chs, db))
  }

  /** Item `i` gets flag `v`; every other item is untouched. */
  function SetFlag(items: seq<Item>, i: int, v: bool): (r: seq<Item>)
    requires 0 <= i < |items|
    ensures |r| == |items|
    ensures r[i] == Item(items[i].entry, v)
    ensures forall j :: 0 <= j < |items| && j != i ==> r[j] == items[j]
  {
    items[i := items[i].(isNew := v)]
  }

  /** Every item gets flag `v`. */
  function SetAll(items: seq<Item>, v: bool): (r: seq<Item>)
    ensures |r| == |items|
    ensures forall j :: 0 <= j < |items| ==> r[j] == Item(items[j].entry, v)
  {
    seq(|items|, j requires 0 <= j < |items| => items[j].(isNew := v))
  }

  /** The key callback does not raise: every list it indexes has the index,
      every channel it looks up is in the snapshot. */
  predicate CanPress(key: Key, s: Session, chs: seq<Channel>) {
    var level := s.app.level;
    var ch := s.app.chSelection;
    if IsSelect(key) then
      && (level + 1 == 1 ==> Showable(chs, s.db, s.cui.selection))
      && (level + 1 == 2 ==> Showable(chs, s.db, ch) && ValidIndex(s.cui.selection, |s.db[NameAt(chs, ch)]|))
    else if IsBack(key) then
      level - 1 == 0 ==> Covers(chs, s.db)
    else if IsToggle(key) then
      level == 1 ==> Showable(chs, s.db, ch) && ValidIndex(s.cui.selection, |s.db[NameAt(chs, ch)]|)
    else if IsToggleAll(key) then
      level == 1 ==> Showable(chs, s.db, ch)
    else true
  }

  /** Enter or Right: from the channel list into the selected channel's
      items, or from an item into its content and back, marking it read. */
  function Select(s: Session, chs: seq<Channel>): (r: Reaction)
    requires CanPress(Newline, s, chs)
    ensures !r.exit
    ensures s.app.level == 0 ==>
              && r.session.app == AppState(1, s.cui.selection)
              && r.session.cui.selection == 0 && r.session.cui.scroll == s.cui.scroll
              && r.session.db == s.db
              && r.session.cui == ShowItems(r.session.cui, chs, s.db, s.cui.selection)
    ensures s.app.level == 1 ==>
              var name := NameAt(chs, s.app.chSelection);
              var items := s.db[name];
              var i := Resolve(s.cui.selection, |items|);
              && r.session.app == s.app
              && r.session.cui.selection == s.cui.selection && r.session.cui.scroll == s.cui.scroll
              && r.session.db.Keys == s.db.Keys
              && (forall n :: n in s.db && n != name ==> r.session.db[n] == s.db[n])
              && |r.session.db[name]| == |items|
              && r.session.db[name][i] == Item(items[i].entry, false)
              && (forall j :: 0 <= j < |items| && j != i ==> r.session.db[name][j] == items[j])
              && r.session.cui == ShowItems(r.session.cui, chs, r.session.db, s.app.chSelection)
    ensures s.app.level != 0 && s.app.level != 1 ==>
              r.session == s.(app := s.app.(level := s.app.level + 1))
  {
    var level := s.app.level + 1;
    if level == 1 then
      var app := AppState(1, s.cui.selection);
      Reaction(Session(app, ShowItems(s.cui.(selection := 0), chs, s.db, app.chSelection), s.db), false)
    else if level == 2 then
      var name := NameAt(chs, s.app.chSelection);
      var items := s.db[name];
      var db := s.db[name := SetFlag(items, Resolve(s.cui.selection, |items|), false)];
      Reaction(Session(s.app, ShowItems(s.cui, chs, db, s.app.chSelection), db), false)
    else
      Reaction(s.(app := s.app.(level := level)), false)
  }

  /** q, Left or Backspace: from the items back to the channel list with the
      channel that was opened highlighted again; from the channel list, exit. */
  function Back(s: Session, chs: seq<Channel>): (r: Reaction)
    requires CanPress(LetterQ, s, chs)
    ensures r.exit <==> s.app.level == 0
    ensures r.session.app.level == s.app.level - 1
    ensures r.session.app.chSelection == s.app.chSelection && r.session.db == s.db
    ensures s.app.level == 1 ==>
              && r.session.cui.selection == s.app.chSelection && r.session.cui.scroll == s.cui.scroll
              && r.session.cui.header == [] && r.session.cui.items == PrintChannels(chs, s.db)
    ensures s.app.level != 1 ==> r.session.cui == s.cui
  {
    var level := s.app.level - 1;
    var app := s.app.(level := level);
    if level == -1 then
      Reaction(s.(app := app), true)
    else if level == 0 then
      Reaction(Session(app, ShowChannels(s.cui, chs, s.db).(selection := s.app.chSelection), s.db), false)
    else
      Reaction(s.(app := app), false)
  }

  /** Space or m: in the item list, flip the read flag of the selected item
      and of no other; elsewhere nothing happens. */
  function ToggleRead(s: Session, chs: seq<Channel>): (r: Reaction)
    requires CanPress(SpaceBar, s, chs)
    ensures !r.exit
    ensures s.app.level != 1 ==> r.session == s
    ensures s.app.level == 1 ==>
              var name := NameAt(chs, s.app.chSelection);
              var items := s.db[name];
              var i := Resolve(s.cui.selection, |items|);
              && r.session.app == s.app
              && r.session.cui.selection == s.cui.selection && r.session.cui.scroll == s.cui.scroll
              && r.session.db.Keys == s.db.Keys
              && (forall n :: n in s.db && n != name ==> r.session.db[n] == s.db[n])
              && |r.session.db[name]| == |items|
              && r.session.db[name][i] == Item(items[i].entry, !items[i].isNew)
              && (forall j :: 0 <= j < |items| && j != i ==> r.session.db[name][j] == items[j])
              && r.session.cui == ShowItems(r.session.cui, chs, r.session.db, s.app.chSelection)
  {
    if s.app.level == 1 then
      var name := NameAt(chs, s.app.chSelection);
      var items := s.db[name];
      var i := Resolve(s.cui.selection, |items|);
      var db := s.db[name := SetFlag(items, i, !items[i].isNew)];
      Reaction(Session(s.app, ShowItems(s.cui, chs, db, s.app.chSelection), db), false)
    else
      Reaction(s, false)
  }

  /** A: in the item list, mark every item read if any was unread, and
      every item unread otherwise; elsewhere nothing happens. */
  function ToggleAll(s: Session, chs: seq<Channel>): (r: Reaction)
    requires CanPress(LetterA, s, chs)
    ensures !r.exit
    ensures s.app.level != 1 ==> r.session == s
    ensures s.app.level == 1 ==>
              var name := NameAt(chs, s.app.chSelection);
              var items := s.db[name];
              && r.session.app == s.app
              && r.session.cui.selection == s.cui.selection && r.session.cui.scroll == s.cui.scroll
              && r.session.db.Keys == s.db.Keys
              && (forall n :: n in s.db && n != name ==> r.session.db[n] == s.db[n])
              && |r.session.db[name]| == |items|
              && (forall j :: 0 <= j < |items| ==> r.session.db[name][j] == Item(items[j].entry, !AnyNew(items)))
              && r.session.cui == ShowItems(r.session.cui, chs, r.session.db, s.app.chSelection)
  {
    if s.app.level == 1 then
      var name := NameAt(chs, s.app.chSelection);
      var items := s.db[name];
      var db := s.db[name := SetAll(items, !AnyNew(items))];
      Reaction(Session(s.app, ShowItems(s.cui, chs, db, s.app.chSelection), db), false)
    else
      Reaction(s, false)
  }

  /** `key_pressed_cb`: the application's reaction to a key. Only Back from
      the channel list stops the loop; keys it does not bind change nothing. */
  function KeyPressed(key: Key, s: Session, chs: seq<Channel>): (r: Reaction)
    requires CanPress(key, s, chs)
    ensures r.exit <==> IsBack(key) && s.app.level == 0
    ensures !IsSelect(key) && !IsBack(key) && !IsToggle(key) && !IsToggleAll(key) ==> r == Reaction(s, false)
  {
    if IsSelect(key) then Select(s, chs)
    else if IsBack(key) then Back(s, chs)
    else if IsToggle(key) then ToggleRead(s, chs)
    else if IsToggleAll(key) then ToggleAll(s, chs)
    else Reaction(s, false)
  }

  /** One key press: the list moves its selection, then the callback runs.
      The list keys only move the list; the loop stops exactly on Back from
      the channel list. */
  function Step(key: Key, s: Session, chs: seq<Channel>, height: int): (r: Reaction)
    requires CanStep(key, s, chs, height)
    ensures r.exit <==> IsBack(key) && s.app.level == 0
    ensures IsNavigation(key) ==>
              && r.session.app == s.app && r.session.db == s.db
              && r.session.cui == Navigate(s.cui, key, height)
    ensures !IsNavigation(key) && !IsSelect(key) && !IsBack(key) && !IsToggle(key) && !IsToggleAll(key) ==>
              r == Reaction(s, false)
  {
    KeyPressed(key, s.(cui := Navigate(s.cui, key, height)), chs)
  }

  predicate CanStep(key: Key, s: Session, chs: seq<Channel>, height: int) {
    CanPress(key, s.(cui := Navigate(s.cui, key, height)), chs)
  }

  /** What every session of the list loop satisfies: it is on the channel
      list or an item list, the rows shown are those of that level, and the
      selection names a row whenever there is one. */
  predicate Consistent(chs: seq<Channel>, s: Session) {
    && Covers(chs, s.db)
    && (s.app.level == 0 || s.app.level == 1)
    && (s.app.level == 0 ==> s.cui == ShowChannels(s.cui, chs, s.db))
    && (s.app.level == 1 ==>
          0 <= s.app.chSelection < |chs| && s.cui == ShowItems(s.cui, chs, s.db, s.app.chSelection))
    && SelectionInRange(s.cui)
  }

  lemma StartConsistent(chs: seq<Channel>, db: Snapshot)
    requires Covers(chs, db)
    ensures Consistent(chs, Start(chs, db))
  {
  }

  /** A list key reaches the callback as a key it ignores. */
  lemma NavigationStep(key: Key, s: Session, chs: seq<Channel>, height: int)
    requires IsNavigation(key)
    ensures CanStep(key, s, chs, height)
    ensures Step(key, s, chs, height) == Reaction(s.(cui := Navigate(s.cui, key, height)), false)
  {
  }

  lemma SelectKeepsConsistent(s: Session, chs: seq<Channel>)
    requires Consistent(chs, s) && CanPress(Newline, s, chs)
    ensures Consistent(chs, Select(s, chs).session)
  {
    var r := Select(s, chs).session;
    if s.app.level == 0 {
      assert 0 <= r.app.chSelection < |chs|;
    } else {
      var name := NameAt(chs, s.app.chSelection);
      assert |r.cui.items| == |r.db[name]| == |s.db[name]| == |s.cui.items|;
    }
  }

  lemma BackKeepsConsistent(s: Session, chs: seq<Channel>)
    requires Consistent(chs, s) && CanPress(LetterQ, s, chs)
    ensures !Back(s, chs).exit ==> Consistent(chs, Back(s, chs).session)
  {
  }

  lemma ToggleReadKeepsConsistent(s: Session, chs: seq<Channel>)
    requires Consistent(chs, s) && CanPress(SpaceBar, s, chs)
    ensures Consistent(chs, ToggleRead(s, chs).session)
  {
    if s.app.level == 1 {
      var r := ToggleRead(s, chs).session;
      var name := NameAt(chs, s.app.chSelection);
      assert |r.cui.items| == |r.db[name]| == |s.db[name]| == |s.cui.items|;
    }
  }

  lemma ToggleAllKeepsConsistent(s: Session, chs: seq<Channel>)
    requires Consistent(chs, s) && CanPress(LetterA, s, chs)
    ensures Consistent(chs, ToggleAll(s, chs).session)
  {
    if s.app.level == 1 {
      var r := ToggleAll(s, chs).session;
      var name := NameAt(chs, s.app.chSelection);
      assert |r.cui.items| == |r.db[name]| == |s.db[name]| == |s.cui.items|;
    }
  }

  /** Every key press that does not end the loop keeps the session consistent. */
  lemma StepKeepsConsistent(key: Key, s: Session, chs: seq<Channel>, height: int)
    requires Consistent(chs, s) && CanStep(key, s, chs, height)
    ensures !Step(key, s, chs, height).exit ==> Consistent(chs, Step(key, s, chs, height).session)
  {
    if IsNavigation(key) {
      NavigationStep(key, s, chs, height);
      NavigateKeepsSelectionInRange(s.cui, key, height);
    } else if IsSelect(key) {
      SelectKeepsConsistent(s, chs);
    } else if IsBack(key) {
      BackKeepsConsistent(s, chs);
    } else if IsToggle(key) {
      ToggleReadKeepsConsistent(s, chs);
    } else if IsToggleAll(key) {
      ToggleAllKeepsConsistent(s, chs);
    }
  }

  /** Opening a channel and going back restores the channel list exactly as
      it was, the highlighted channel included. */
  lemma SelectThenBackRestores(s: Session, chs: seq<Channel>, height: int)
    requires Consistent(chs, s) && s.app.level == 0
    requires CanStep(Newline, s, chs, height)
    ensures var r1 := Step(Newline, s, chs, height);
            CanStep(LetterQ, r1.session, chs, height) &&
            var r2 := Step(LetterQ, r1.session, chs, height);
            !r2.exit && r2.session.app.level == 0 && r2.session.cui == s.cui && r2.session.db == s.db
  {
  }

  /** Toggling the same item twice gives back the session it started from. */
  lemma ToggleTwiceRestores(s: Session, chs: seq<Channel>, height: int)
    requires Consistent(chs, s) && s.app.level == 1
    requires CanStep(SpaceBar, s, chs, height)
    ensures var r1 := Step(SpaceBar, s, chs, height);
            CanStep(SpaceBar, r1.session, chs, height) &&
            Step(SpaceBar, r1.session, chs, height).session == s
  {
    var name := NameAt(chs, s.app.chSelection);
    var r1 := Step(SpaceBar, s, chs, height).session;
    var r2 := Step(SpaceBar, r1, chs, height).session;
    assert r2.db[name] == s.db[name];
    assert r2.db == s.db;
  }

  /** A on a non-empty item list flips whether some item is unread. */
  lemma {:induction false} SetAllFlipsAnyNew(items: seq<Item>)
    requires |items| > 0
    ensures AnyNew(SetAll(items, !AnyNew(items))) == !AnyNew(items)
  {
    var r := SetAll(items, !AnyNew(items));
    if !AnyNew(items) {
      assert r[0].isNew;
    }
  }

  /** Two presses of A alternate "some item is unread" on a non-empty list;
      on an empty list A changes nothing. */
  lemma ToggleAllAlternates(s: Session, chs: seq<Channel>, height: int)
    requires Consistent(chs, s) && s.app.level == 1
    requires CanStep(LetterA, s, chs, height)
    ensures var name := NameAt(chs, s.app.chSelection);
            var r1 := Step(LetterA, s, chs, height).session;
            && CanStep(LetterA, r1, chs, height)
            && var r2 := Step(LetterA, r1, chs, height).session;
            && (|s.db[name]| > 0 ==> AnyNew(r1.db[name]) == !AnyNew(s.db[name]) && AnyNew(r2.db[name]) == AnyNew(s.db[name]))
            && (|s.db[name]| == 0 ==> r1 == s)
  {
    var name := NameAt(chs, s.app.chSelection);
    var r1 := Step(LetterA, s, chs, height).session;
    if |s.db[name]| > 0 {
      SetAllFlipsAnyNew(s.db[name]);
      SetAllFlipsAnyNew(r1.db[name]);
    } else {
      assert r1.db[name] == s.db[name];
      assert r1.db == s.db;
    }
  }

  // ---------------------------------------------------------------------
  // Scrolling across a level change. Select and Back replace the rows and
  // move the selection but keep the scroll offset of the previous list, so
  // the highlighted row can lie outside the window. `Refit` scrolls just
  // enough to bring it back; `StepRefit` is the step with that correction.

  /** Scroll offset `t` puts the selection of `c` in the window, and is not
      negative when the selection names a row. */
  predicate Fits(c: Cui, height: int, t: int) {
    && 0 <= c.selection - t < WindowSize(c, height)
    && (c.selection >= 0 ==> t >= 0)
  }

  function Dist(a: int, b: int): nat {
    if a >= b then a - b else b - a
  }

  /** The smallest scroll change that makes the scroll offset fit. */
  function Refit(c: Cui, height: int): (r: Cui)
    requires WindowSize(c, height) >= 1
    ensures r.header == c.header && r.items == c.items && r.selection == c.selection
    ensures Fits(c, height, r.scroll) && Windowed(r, height)
    ensures forall t :: Fits(c, height, t) ==> Dist(r.scroll, c.scroll) <= Dist(t, c.scroll)
    ensures Fits(c, height, c.scroll) ==> r == c
    ensures c.selection < c.scroll ==> r.scroll == c.selection
    ensures c.selection - c.scroll >= WindowSize(c, height) && (c.scroll >= 0 || c.selection < 0) ==>
              r.scroll == c.selection - WindowSize(c, height) + 1
    ensures c.scroll < 0 <= c.selection ==> r.scroll == Max(0, c.selection - WindowSize(c, height) + 1)
  {
    var floor := if c.selection >= 0 then Max(0, c.scroll) else c.scroll;
    c.(scroll := FollowDown(c.selection, FollowUp(c.selection, floor), WindowSize(c, height)))
  }

  /** The step with the scroll corrected: it differs from `Step` only in the
      scroll offset, which it moves as little as needed. */
  function StepRefit(key: Key, s: Session, chs: seq<Channel>, height: int): (r: Reaction)
    requires CanStep(key, s, chs, height)
    requires WindowSize(Step(key, s, chs, height).session.cui, height) >= 1
    ensures var q := Step(key, s, chs, height);
            && r.exit == q.exit && r.session.app == q.session.app && r.session.db == q.session.db
            && r.session.cui == q.session.cui.(scroll := r.session.cui.scroll)
            && (Fits(q.session.cui, height, q.session.cui.scroll) ==> r == q)
    ensures Windowed(r.session.cui, height)
    ensures r.session.cui.selection >= 0 ==> r.session.cui.scroll >= 0
  {
    var r := Step(key, s, chs, height);
    r.(session := r.session.(cui := Refit(r.session.cui, height)))
  }

  /** On the list keys the correction changes nothing: the list already
      keeps the selection in the window. */
  lemma StepRefitAgreesOnNavigation(key: Key, s: Session, chs: seq<Channel>, height: int)
    requires IsNavigation(key)
    requires |s.cui.items| > 0 && SelectionInRange(s.cui) && WindowSize(s.cui, height) >= 1
    requires Windowed(s.cui, height) && s.cui.scroll >= 0
    ensures CanStep(key, s, chs, height)
    ensures WindowSize(Step(key, s, chs, height).session.cui, height) >= 1
    ensures StepRefit(key, s, chs, height) == Step(key, s, chs, height)
  {
    NavigationStep(key, s, chs, height);
    NavigateKeepsWindow(s.cui, key, height);
  }

  /** With the correction, opening a channel starts its item list at the top. */
  lemma StepRefitSelectStartsAtTop(s: Session, chs: seq<Channel>, height: int)
    requires Consistent(chs, s) && s.app.level == 0
    requires CanStep(Newline, s, chs, height)
    requires WindowSize(Step(Newline, s, chs, height).session.cui, height) >= 1
    ensures StepRefit(Newline, s, chs, height).session.cui.selection == 0
    ensures StepRefit(Newline, s, chs, height).session.cui.scroll == 0
  {
  }

  /** As written: when the channel list has scrolled, opening a channel
      selects its first item while keeping the old scroll offset, so the
      highlighted item is not drawn. */
  lemma SelectKeepsStaleScroll(s: Session, chs: seq<Channel>, height: int)
    requires Consistent(chs, s) && s.app.level == 0 && s.cui.scroll > 0
    requires CanStep(Newline, s, chs, height)
    ensures var c := Step(Newline, s, chs, height).session.cui;
            c.selection == 0 && !Windowed(c, height) && !ItemDrawn(c, 0, height)
  {
  }

  /** As written, and reachable: on a channel list longer than the window,
      Down from the bottom row of the window scrolls the list, and Enter
      then leaves the highlighted item off screen. */
  lemma DownThenSelectHidesSelection(s: Session, chs: seq<Channel>, height: int)
    requires Consistent(chs, s) && s.app.level == 0
    requires WindowSize(s.cui, height) >= 1 && s.cui.scroll >= 0
    requires s.cui.selection - s.cui.scroll == WindowSize(s.cui, height) - 1
    requires s.cui.selection < |s.cui.items| - 1
    ensures var r1 := Step(KeyDown, s, chs, height).session;
            && Consistent(chs, r1) && r1.cui.scroll > 0
            && (CanStep(Newline, r1, chs, height) ==>
                 var c := Step(Newline, r1, chs, height).session.cui;
                 c.selection == 0 && !ItemDrawn(c, 0, height))
  {
    StepKeepsConsistent(KeyDown, s, chs, height);
    var r1 := Step(KeyDown, s, chs, height).session;
    if CanStep(Newline, r1, chs, height) {
      SelectKeepsStaleScroll(r1, chs, height);
    }
  }

  /** As written: going back from an item list whose scroll offset is zero
      highlights the opened channel even when it lies below the window. */
  lemma BackKeepsStaleScroll(s: Session, chs: seq<Channel>, height: int)
    requires Consistent(chs, s) && s.app.level == 1 && s.cui.scroll == 0
    requires s.app.chSelection >= height
    ensures CanStep(LetterQ, s, chs, height)
    ensures var c := Step(LetterQ, s, chs, height).session.cui;
            c.selection == s.app.chSelection && !Windowed(c, height) && !ItemDrawn(c, c.selection, height)
  {
  }

  /** As written, and reachable: in an empty item list PageDown leaves the
      selection at -1 and Up then scrolls to -1. Going back keeps that
      offset, so the channel list is drawn one row low, its first row left
      blank. */
  lemma EmptyItemListScrollsAboveTop(s: Session, chs: seq<Channel>, height: int)
    requires Consistent(chs, s) && s.app.level == 1 && |s.cui.items| == 0
    requires s.cui.selection >= 0 && s.cui.scroll == 0 && WindowSize(s.cui, height) >= 1
    ensures CanStep(KeyPageDown, s, chs, height)
    ensures var s1 := Step(KeyPageDown, s, chs, height).session;
            && s1.cui.selection == -1 && s1.cui.scroll == 0
            && CanStep(KeyUp, s1, chs, height)
            && var s2 := Step(KeyUp, s1, chs, height).session;
               && s2.cui.scroll == -1
               && CanStep(LetterQ, s2, chs, height)
               && var s3 := Step(LetterQ, s2, chs, height).session;
                  && s3.app.level == 0 && s3.cui.selection == s.app.chSelection
                  && s3.cui.scroll == -1 && ItemRow(s3.cui, 0) == |s3.cui.header| + 1
  {
  }
}
