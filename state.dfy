/** Application-level state: the main menu, the active screen, the input
    mode and the text of the search box, around the monster list state. */
module State {
  import opened Wrappers
  import opened Cyclic
  import opened MonsterState

  /** The number of entries of the main menu. */
  const MENU_SIZE: nat := 4

  /** The main-menu entries, in display order. */
  datatype MainMenuOption = Monster | Quest | Weapon | Armor {
    /** Position in the menu, from the top. */
    function Index(): (i: nat)
      ensures i < MENU_SIZE
    {
      match this
      case Monster => 0
      case Quest => 1
      case Weapon => 2
      case Armor => 3
    }

    /** The entry below, the last wrapping to the first. */
    function Next(): (r: MainMenuOption)
      ensures r.Index() == Step(Index(), MENU_SIZE)
      ensures r != this
    {
      match this
      case Monster => MainMenuOption.Quest
      case Quest => MainMenuOption.Weapon
      case Weapon => MainMenuOption.Armor
      case Armor => MainMenuOption.Monster
    }

    /** The entry above, the first wrapping to the last. */
    function Prev(): (r: MainMenuOption)
      ensures r.Index() == StepBack(Index(), MENU_SIZE)
      ensures r != this
    {
      match this
      case Monster => MainMenuOption.Armor
      case Quest => MainMenuOption.Monster
      case Weapon => MainMenuOption.Quest
      case Armor => MainMenuOption.Weapon
    }
  }

  const DefaultMainMenuOption: MainMenuOption := MainMenuOption.Monster

  /** `prev` undoes `next` and the other way round; four presses of either
      come back to the start. */
  lemma MenuCycle(m: MainMenuOption)
    ensures m.Next().Prev() == m && m.Prev().Next() == m
    ensures m.Next().Next().Next().Next() == m
    ensures m.Prev().Prev().Prev().Prev() == m
  {
  }

  /** The screen on display. */
  datatype CurrentScreen = Main | Monster | Quest | Weapon | Armor

  const DefaultCurrentScreen: CurrentScreen := CurrentScreen.Main

  /** Whether keys drive the screens or the search box. */
  datatype InputMode = Normal | Editing

  const DefaultInputMode: InputMode := Normal

  /** The application-level fields, as one value. */
  datatype AppView = AppView(
    inputMode: InputMode, input: string, currentScreen: CurrentScreen, mainMenu: MainMenuOption)

  class AppState {
    var inputMode: InputMode
    /** The text of the search box. */
    var input: string
    var currentScreen: CurrentScreen
    var mainMenu: MainMenuOption
    const monsterList: MonsterListState

    ghost function Repr(): set<object> {
      {this} + monsterList.Repr()
    }

    function View(): AppView
      reads this`inputMode, this`input, this`currentScreen, this`mainMenu
    {
      AppView(inputMode, input, currentScreen, mainMenu)
    }

    /** The monster list keeps its own invariant, its query is always the
        text of the search box, and the search box is only edited on the
        monster screen. */
    ghost predicate Valid()
      reads this`inputMode, this`input, this`currentScreen,
        monsterList`listSelected, monsterList`filterQuery, monsterList`filteredList,
        monsterList`currentData,
        monsterList.monsterOnQuestListState`listLen, monsterList.habitatPageState`habitatTotalPage,
        monsterList.monsterWeaknessTabState`damageDataLen,
        monsterList.monsterDropsTabState`lowTargetLen, monsterList.monsterDropsTabState`lowBrokenPartLen,
        monsterList.monsterDropsTabState`lowWoundDestroyLen, monsterList.monsterDropsTabState`lowCarveLen,
        monsterList.monsterDropsTabState`highTargetLen, monsterList.monsterDropsTabState`highBrokenPartLen,
        monsterList.monsterDropsTabState`highWoundDestroyLen, monsterList.monsterDropsTabState`highCarveLen
    {
      && monsterList.Valid()
      && monsterList.filterQuery == input
      && (inputMode == Editing ==> currentScreen == CurrentScreen.Monster)
    }

    /** The application state the program starts with: every field at its
        default around the given monster list. */
    constructor(monsterList: MonsterListState)
      ensures inputMode == Normal && input == []
      ensures currentScreen == CurrentScreen.Main && mainMenu == MainMenuOption.Monster
      ensures this.monsterList == monsterList
      ensures monsterList.Valid() && monsterList.filterQuery == [] ==> Valid()
    {
      inputMode := DefaultInputMode;
      input := [];
      currentScreen := DefaultCurrentScreen;
      mainMenu := DefaultMainMenuOption;
      this.monsterList := monsterList;
    }

    /** Leaves the search: normal mode, an empty search box and an empty
        query, so the whole bundle shows with its first record selected. The
        panel cursors, the screen and the menu are left alone. */
    method Reset()
      requires monsterList.bundle != []
      modifies this, monsterList, monsterList.monsterOnQuestListState, monsterList.habitatPageState,
        monsterList.monsterWeaknessTabState, monsterList.monsterDropsTabState
      ensures Valid()
      ensures inputMode == Normal && input == []
      ensures monsterList.filterQuery == [] && monsterList.ListItems() == monsterList.bundle
      ensures monsterList.listSelected == Some(0) && monsterList.currentData == monsterList.bundle[0]
      ensures currentScreen == old(currentScreen) && mainMenu == old(mainMenu)
      ensures monsterList.Cursors() == old(monsterList.Cursors())
    {
      monsterList.SetListFilter([]);
      inputMode := Normal;
      input := [];
    }
  }
}
