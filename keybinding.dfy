/** Key dispatch: how one key event changes the application state, by input
    mode and screen, and whether the program should exit. */
module Keybinding {
  import opened Wrappers
  import opened MonsterState
  import opened State

  /** The keys the dispatcher tells apart; every other key is `Other`. */
  datatype KeyCode = Char(c: char) | Enter | Esc | Up | Down | Left | Right | Backspace | Other

  datatype KeyModifier = Shift | Control | Alt | Super | Hyper | Meta

  datatype KeyEventKind = Press | Repeat | Release

  datatype KeyEvent = KeyEvent(code: KeyCode, modifiers: set<KeyModifier>, kind: KeyEventKind)

  datatype KeyHandleResult = Continue | Exit {
    /** Whether the main loop should stop. */
    predicate ShouldExit()
      ensures ShouldExit() <==> !Continue?
    {
      this == Exit
    }
  }

  /** A key press with exactly the Control modifier on a character, on the
      main screen in normal mode: the one combination the source leaves
      unimplemented (it panics). */
  predicate IsUnhandledControlChar(app: AppState, event: KeyEvent)
    reads app`inputMode, app`currentScreen
  {
    && event.kind != Release
    && app.inputMode == Normal
    && app.currentScreen == CurrentScreen.Main
    && event.modifiers == {Control}
    && event.code.Char?
  }

  /** The screen a main-menu entry opens. */
  function MenuScreen(m: MainMenuOption): (s: CurrentScreen)
    ensures s != CurrentScreen.Main
  {
    match m
    case Monster => CurrentScreen.Monster
    case Quest => CurrentScreen.Quest
    case Weapon => CurrentScreen.Weapon
    case Armor => CurrentScreen.Armor
  }

  // ---------------------------------------------------------------------------
  // What each key does, stated on the snapshots of the state

  /** The height of the description panel is set only by the renderer; no
      key changes it. */
  twostate predicate HeightKept(app: AppState)
    reads app.monsterList.descScrollbarState
  {
    app.monsterList.descScrollbarState.height == old(app.monsterList.descScrollbarState.height)
  }

  /** Nothing the key handler can change has changed. (The cached lengths are
      those of the current record whenever the invariant holds, so the
      snapshots and the height cover every field.) */
  twostate predicate Untouched(app: AppState)
    reads app, app.monsterList.Repr()
  {
    && HeightKept(app)
    && app.View() == old(app.View())
    && app.monsterList.Listing() == old(app.monsterList.Listing())
    && app.monsterList.Cursors() == old(app.monsterList.Cursors())
  }

  /** The list shows the whole bundle again with its first record selected. */
  predicate ListCleared(ml: MonsterListState)
    reads ml`filterQuery, ml`filteredList, ml`listSelected
  {
    ml.filterQuery == [] && ml.ListItems() == ml.bundle && ml.listSelected == Some(0)
  }

  /** The selection moved by one `next` (or `prev` when `forward` is false)
      over the unchanged visible list; on an empty list it stays put. */
  twostate predicate ListStepped(ml: MonsterListState, forward: bool)
    reads ml
  {
    && ml.filterQuery == old(ml.filterQuery)
    && ml.ListItems() == old(ml.ListItems())
    && (ml.ListItems() == [] ==> ml.listSelected == old(ml.listSelected))
    && (ml.ListItems() != [] ==>
          ml.listSelected == Some(if forward then ListNext(old(ml.listSelected), |ml.ListItems()|)
                                  else ListPrev(old(ml.listSelected), |ml.ListItems()|)))
  }

  /** Editing mode: Esc leaves the search and clears it, Enter leaves it and
      keeps the query, any other key updates the query to the edited text.
      Esc and editing keys also reset every panel. */
  twostate predicate EditOutcome(app: AppState, code: KeyCode, edited: string)
    reads app, app.monsterList.Repr()
  {
    var ml := app.monsterList;
    match code
    case Esc =>
      && app.View() == old(app.View()).(inputMode := Normal, input := [])
      && ListCleared(ml)
      && ml.Cursors() == ResetCursors
    case Enter =>
      && app.View() == old(app.View()).(inputMode := Normal)
      && ml.Listing() == old(ml.Listing())
      && ml.Cursors() == old(ml.Cursors())
    case _ =>
      && app.View() == old(app.View()).(input := edited)
      && ml.filterQuery == edited && ml.ListItems() == Filter(ml.bundle, edited)
      && ml.listSelected == Some(0)
      && ml.Cursors() == ResetCursors
  }

  /** Normal mode on the main screen. */
  twostate predicate MainOutcome(app: AppState, event: KeyEvent, r: KeyHandleResult)
    reads app, app.monsterList.Repr()
  {
    var ml := app.monsterList;
    if event.modifiers == {Control} then
      r == Continue && Untouched(app)
    else
      match event.code
      case Char('q') => r == Exit && Untouched(app)
      case Down | Char('j') =>
        && r == Continue
        && app.View() == old(app.View()).(mainMenu := old(app.mainMenu).Next())
        && ml.Listing() == old(ml.Listing()) && ml.Cursors() == old(ml.Cursors())
      case Up | Char('k') =>
        && r == Continue
        && app.View() == old(app.View()).(mainMenu := old(app.mainMenu).Prev())
        && ml.Listing() == old(ml.Listing()) && ml.Cursors() == old(ml.Cursors())
      case Enter =>
        && r == Continue
        && app.View() == old(app.View()).(currentScreen := MenuScreen(old(app.mainMenu)))
        && ml.Listing() == old(ml.Listing())
        && ml.Cursors() == (if old(app.mainMenu) == MainMenuOption.Monster then ResetCursors else old(ml.Cursors()))
      case _ => r == Continue && Untouched(app)
  }

  /** The panel cursors after a tab key: '4' flips the weapon/element tab
      and '$' the status/item tab of the weakness panel, '5' advances the
      material source tab and '%' flips the rank tab of the drops panel.
      Switching a table's tab puts that table's row cursor on row 0. */
  function TabSwitched(p: PanelCursors, c: char): (q: PanelCursors)
    ensures c !in {'4', '$', '5', '%'} ==> q == p
    ensures q.descPosition == p.descPosition && q.habitatPage == p.habitatPage
    ensures q.questSelected == p.questSelected
  {
    match c
    case '4' => p.(weaponElmTab := p.weaponElmTab.Toggled(), weaknessSelected := Some(0))
    case '$' => p.(statusItemTab := p.statusItemTab.Toggled())
    case '5' => p.(sourceTab := p.sourceTab.Next(), dropsSelected := Some(0))
    case '%' => p.(rankTab := p.rankTab.Toggled(), dropsSelected := Some(0))
    case _ => p
  }

  /** Down/j (`forward`) or Up/k on the monster screen: the panels are at
      their reset positions and the selection has moved by one step. */
  twostate predicate StepOutcome(app: AppState, forward: bool)
    reads app, app.monsterList.Repr()
  {
    && HeightKept(app)
    && app.View() == old(app.View())
    && app.monsterList.Cursors() == ResetCursors
    && ListStepped(app.monsterList, forward)
  }

  /** Esc on the monster screen: the search is cleared and the main screen
      shows; the panels keep their positions. */
  twostate predicate LeaveOutcome(app: AppState)
    reads app, app.monsterList.Repr()
  {
    && HeightKept(app)
    && app.View() == old(app.View()).(inputMode := Normal, input := [], currentScreen := CurrentScreen.Main)
    && ListCleared(app.monsterList)
    && app.monsterList.Cursors() == old(app.monsterList.Cursors())
  }

  /** A character other than q, j and k on the monster screen: a tab key
      switches exactly one tab, / enters the search, anything else changes
      nothing. */
  twostate predicate PanelCharOutcome(app: AppState, c: char)
    reads app, app.monsterList.Repr()
  {
    var ml := app.monsterList;
    if c in {'4', '$', '5', '%'} then
      && HeightKept(app)
      && app.View() == old(app.View()) && ml.Listing() == old(ml.Listing())
      && ml.Cursors() == TabSwitched(old(ml.Cursors()), c)
    else if c == '/' then
      && HeightKept(app)
      && app.View() == old(app.View()).(inputMode := Editing)
      && ml.Listing() == old(ml.Listing()) && ml.Cursors() == old(ml.Cursors())
    else
      Untouched(app)
  }

  /** Normal mode on the monster screen. */
  twostate predicate MonsterOutcome(app: AppState, code: KeyCode, r: KeyHandleResult)
    reads app, app.monsterList.Repr()
  {
    match code
    case Char('q') => r == Exit && Untouched(app)
    case Down | Char('j') => r == Continue && StepOutcome(app, true)
    case Up | Char('k') => r == Continue && StepOutcome(app, false)
    case Esc => r == Continue && LeaveOutcome(app)
    case Char(c) => r == Continue && PanelCharOutcome(app, c)
    case _ => r == Continue && Untouched(app)
  }

  // ---------------------------------------------------------------------------
  // The handlers

  /** Dispatches one key event: release events are ignored, the rest go to
      the handler of the current input mode. */
  method HandleKey(event: KeyEvent, app: AppState, edited: string) returns (r: KeyHandleResult)
    requires app.Valid()
    requires !IsUnhandledControlChar(app, event)
    modifies app, app.monsterList.Repr()
    ensures app.Valid()
    ensures HeightKept(app)
    ensures event.kind == Release ==> r == Continue && Untouched(app)
    ensures event.kind != Release && old(app.inputMode) == Editing ==> r == Continue && EditOutcome(app, event.code, edited)
    ensures event.kind != Release && old(app.inputMode) == Normal && old(app.currentScreen) == CurrentScreen.Main ==>
      MainOutcome(app, event, r)
    ensures event.kind != Release && old(app.inputMode) == Normal && old(app.currentScreen) == CurrentScreen.Monster ==>
      MonsterOutcome(app, event.code, r)
    ensures event.kind != Release && old(app.inputMode) == Normal && old(app.currentScreen) !in {CurrentScreen.Main, CurrentScreen.Monster} ==>
      r == Continue && Untouched(app)
  {
    if event.kind == Release {
      return Continue;
    }
    match app.inputMode {
      case Normal => r := OnNormal(event, app);
      case Editing => r := OnEdit(event, app, edited);
    }
  }

  /** Editing mode; `edited` is the text of the search box after the line
      editor has applied the key. */
  method OnEdit(event: KeyEvent, app: AppState, edited: string) returns (r: KeyHandleResult)
    requires app.Valid()
    modifies app, app.monsterList.Repr()
    ensures app.Valid()
    ensures HeightKept(app)
    ensures r == Continue && EditOutcome(app, event.code, edited)
  {
    match event.code {
      case Esc => CancelSearch(app);
      case Enter => app.inputMode := Normal;
      case _ => TypeInSearch(app, edited);
    }
    r := Continue;
  }

  /** Esc in the search box: the application reset, then the panels' reset. */
  method CancelSearch(app: AppState)
    requires app.Valid()
    modifies app, app.monsterList.Repr()
    ensures app.Valid()
    ensures HeightKept(app)
    ensures app.View() == old(app.View()).(inputMode := Normal, input := [])
    ensures ListCleared(app.monsterList) && app.monsterList.Cursors() == ResetCursors
  {
    app.Reset();
    app.monsterList.Reset();
  }

  /** Any other key in the search box: the edited text becomes the query, the
      list is filtered by it and the panels are reset. */
  method TypeInSearch(app: AppState, edited: string)
    requires app.Valid()
    modifies app, app.monsterList.Repr()
    ensures app.Valid()
    ensures HeightKept(app)
    ensures app.View() == old(app.View()).(input := edited)
    ensures app.monsterList.filterQuery == edited
    ensures app.monsterList.ListItems() == Filter(app.monsterList.bundle, edited)
    ensures app.monsterList.listSelected == Some(0) && app.monsterList.Cursors() == ResetCursors
  {
    app.input := edited;
    app.monsterList.filterQuery := [];
    app.monsterList.SetListFilter(app.input);
    app.monsterList.Reset();
  }

  /** Normal mode: dispatch on the current screen. */
  method OnNormal(event: KeyEvent, app: AppState) returns (r: KeyHandleResult)
    requires app.Valid() && app.inputMode == Normal
    requires !(app.currentScreen == CurrentScreen.Main && event.modifiers == {Control} && event.code.Char?)
    modifies app, app.monsterList.Repr()
    ensures app.Valid()
    ensures HeightKept(app)
    ensures old(app.currentScreen) == CurrentScreen.Main ==> MainOutcome(app, event, r)
    ensures old(app.currentScreen) == CurrentScreen.Monster ==> MonsterOutcome(app, event.code, r)
    ensures old(app.currentScreen) !in {CurrentScreen.Main, CurrentScreen.Monster} ==> r == Continue && Untouched(app)
  {
    match app.currentScreen {
      case Main => r := OnMainScreen(event, app);
      case Monster => r := OnMonsterScreen(event.code, app);
      case _ => r := Continue;
    }
  }

  /** Normal mode on the main screen: menu navigation, opening a screen, quit. */
  method OnMainScreen(event: KeyEvent, app: AppState) returns (r: KeyHandleResult)
    requires app.Valid() && app.inputMode == Normal && app.currentScreen == CurrentScreen.Main
    requires !(event.modifiers == {Control} && event.code.Char?)
    modifies app, app.monsterList.Repr()
    ensures app.Valid()
    ensures HeightKept(app)
    ensures MainOutcome(app, event, r)
  {
    r := Continue;
    if event.modifiers == {Control} {
      return;
    }
    match event.code {
      case Char(c) =>
        if c == 'q' {
          r := Exit;
        } else if c == 'j' {
          MoveMenu(app, true);
        } else if c == 'k' {
          MoveMenu(app, false);
        }
      case Down => MoveMenu(app, true);
      case Up => MoveMenu(app, false);
      case Enter => OpenScreen(app);
      case _ =>
    }
  }

  /** Down/j (`forward`) or Up/k on the main screen: the menu highlight moves. */
  method MoveMenu(app: AppState, forward: bool)
    requires app.Valid()
    modifies app`mainMenu
    ensures app.Valid()
    ensures app.View() == old(app.View()).(mainMenu := if forward then old(app.mainMenu).Next() else old(app.mainMenu).Prev())
  {
    app.mainMenu := if forward then app.mainMenu.Next() else app.mainMenu.Prev();
  }

  /** Enter on the main screen: the highlighted entry's screen opens. */
  method OpenScreen(app: AppState)
    requires app.Valid() && app.inputMode == Normal
    modifies app`currentScreen,
      app.monsterList.descScrollbarState`position, app.monsterList.habitatPageState`habitatCurrentPage,
      app.monsterList.monsterOnQuestListState`selected,
      app.monsterList.monsterWeaknessTabState`tableSelected,
      app.monsterList.monsterWeaknessTabState`selectedStatusItemTab,
      app.monsterList.monsterWeaknessTabState`selectedWeaponElmTab,
      app.monsterList.monsterDropsTabState`tableSelected,
      app.monsterList.monsterDropsTabState`selectedRankTab,
      app.monsterList.monsterDropsTabState`selectedSourceTab
    ensures app.Valid()
    ensures app.View() == old(app.View()).(currentScreen := MenuScreen(old(app.mainMenu)))
    ensures app.monsterList.Cursors() == (if old(app.mainMenu) == MainMenuOption.Monster then ResetCursors else old(app.monsterList.Cursors()))
  {
    var screen := SelectScreen(app);
    app.currentScreen := screen;
  }

  /** Normal mode on the monster screen: list navigation (which also resets
      the panels), tab toggles, entering the search, going back, quit. */
  method OnMonsterScreen(code: KeyCode, app: AppState) returns (r: KeyHandleResult)
    requires app.Valid() && app.inputMode == Normal && app.currentScreen == CurrentScreen.Monster
    modifies app, app.monsterList.Repr()
    ensures app.Valid()
    ensures HeightKept(app)
    ensures MonsterOutcome(app, code, r)
  {
    r := Continue;
    match code {
      case Char(c) => r := OnMonsterChar(c, app);
      case Down => StepMonster(app, true);
      case Up => StepMonster(app, false);
      case Esc => LeaveMonsterScreen(app);
      case _ =>
    }
  }

  /** A character key on the monster screen. */
  method OnMonsterChar(c: char, app: AppState) returns (r: KeyHandleResult)
    requires app.Valid() && app.inputMode == Normal && app.currentScreen == CurrentScreen.Monster
    modifies app, app.monsterList.Repr()
    ensures app.Valid()
    ensures HeightKept(app)
    ensures MonsterOutcome(app, Char(c), r)
  {
    r := Continue;
    if c == 'q' {
      r := Exit;
    } else if c == 'j' {
      StepMonster(app, true);
    } else if c == 'k' {
      StepMonster(app, false);
    } else {
      OnMonsterPanelChar(c, app);
    }
  }

  /** A character key on the monster screen other than q, j and k: a tab key
      switches one tab, / enters the search, anything else changes nothing. */
  method OnMonsterPanelChar(c: char, app: AppState)
    requires app.Valid() && app.inputMode == Normal && app.currentScreen == CurrentScreen.Monster
    requires c !in {'q', 'j', 'k'}
    modifies app`inputMode, app.monsterList.monsterWeaknessTabState, app.monsterList.monsterDropsTabState
    ensures app.Valid()
    ensures PanelCharOutcome(app, c)
  {
    if c in {'4', '$', '5', '%'} {
      SwitchTab(app.monsterList, c);
    } else if c == '/' {
      app.inputMode := Editing;
    }
  }

  /** Down/j (`forward`) or Up/k on the monster screen: the panels are reset,
      then the list selection moves. */
  method StepMonster(app: AppState, forward: bool)
    requires app.Valid()
    modifies app.monsterList.Repr()
    ensures app.Valid()
    ensures StepOutcome(app, forward)
  {
    ghost var items := app.monsterList.ListItems();
    app.monsterList.Reset();
    assert app.monsterList.ListItems() == items;
    StepList(app, forward);
  }

  /** The second half of Down/Up: `next` or `prev` on the monster list. */
  method StepList(app: AppState, forward: bool)
    requires app.Valid()
    modifies app.monsterList.Repr()
    ensures app.Valid()
    ensures HeightKept(app) && app.monsterList.Cursors() == old(app.monsterList.Cursors())
    ensures ListStepped(app.monsterList, forward)
  {
    if forward {
      app.monsterList.Next();
    } else {
      app.monsterList.Prev();
    }
  }

  /** A tab key on the monster screen: the matching panel switches its tab. */
  method SwitchTab(ml: MonsterListState, c: char)
    requires c in {'4', '$', '5', '%'}
    modifies ml.monsterWeaknessTabState`selectedWeaponElmTab, ml.monsterWeaknessTabState`selectedStatusItemTab,
      ml.monsterWeaknessTabState`tableSelected, ml.monsterDropsTabState`selectedSourceTab,
      ml.monsterDropsTabState`selectedRankTab, ml.monsterDropsTabState`tableSelected
    ensures ml.Cursors() == TabSwitched(old(ml.Cursors()), c)
  {
    if c == '4' {
      ml.monsterWeaknessTabState.ToggleSelectedWeaponElmTab();
    } else if c == '$' {
      ml.monsterWeaknessTabState.ToggleSelectedAilmentItemTab();
    } else if c == '5' {
      ml.monsterDropsTabState.ToggleSelectedSourceTab();
    } else {
      ml.monsterDropsTabState.ToggleSelectedRankTab();
    }
  }

  /** Esc on the monster screen: the application reset, then back to the
      main screen; the panels keep their positions. */
  method LeaveMonsterScreen(app: AppState)
    requires app.Valid()
    modifies app, app.monsterList.Repr()
    ensures app.Valid()
    ensures LeaveOutcome(app)
  {
    app.Reset();
    app.currentScreen := CurrentScreen.Main;
  }

  /** The screen the highlighted menu entry opens; opening the monster screen
      resets its panels first. */
  method SelectScreen(app: AppState) returns (s: CurrentScreen)
    requires app.Valid()
    modifies app.monsterList.descScrollbarState`position, app.monsterList.habitatPageState`habitatCurrentPage,
      app.monsterList.monsterOnQuestListState`selected,
      app.monsterList.monsterWeaknessTabState`tableSelected,
      app.monsterList.monsterWeaknessTabState`selectedStatusItemTab,
      app.monsterList.monsterWeaknessTabState`selectedWeaponElmTab,
      app.monsterList.monsterDropsTabState`tableSelected,
      app.monsterList.monsterDropsTabState`selectedRankTab,
      app.monsterList.monsterDropsTabState`selectedSourceTab
    ensures s == MenuScreen(app.mainMenu)
    ensures app.Valid()
    ensures app.monsterList.Cursors() == (if app.mainMenu == MainMenuOption.Monster then ResetCursors else old(app.monsterList.Cursors()))
  {
    match app.mainMenu {
      case Monster =>
        app.monsterList.Reset();
        s := CurrentScreen.Monster;
      case Quest => s := CurrentScreen.Quest;
      case Weapon => s := CurrentScreen.Weapon;
      case Armor => s := CurrentScreen.Armor;
    }
  }
}
