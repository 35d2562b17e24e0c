# monsterex state engine, in Dafny

monsterex is a terminal browser for a bundled dataset of monsters. This project
models its state engine, which has three parts:

- **Records** (`monster.dfy`, module `Monster`): the monster record, its
  enums and the string parsers that read those enums from the dataset. Each
  parser maps an unknown string to a fallback variant and never fails. The
  module also holds the display names of the enums and the fixed six-entry
  status/item table.
- **Panel state** (`state_monster.dfy`, module `MonsterState`): the classes
  behind the monster screen:
  - the scrollable description;
  - the habitat pages;
  - the quest list;
  - the weakness table with its two tab bars;
  - the drop table, a 2 × 4 grid of material tables chosen by a rank tab and a
    source tab;
  - `MonsterListState`, which owns all of the above. It holds the bundle, the
    query and filtered buffer, the list selection and the current record. It
    also caches the current record's lengths in the panels.
- **Application state and key dispatch** (`state.dfy`, module `State`, and
  `keybinding.dfy`, module `Keybinding`):
  - the main-menu cycle;
  - the screen and input mode;
  - `AppState::reset`;
  - the key router, which maps a key event to a state change and a
    `Continue`/`Exit` result.

Four support modules carry shared pieces:

- `Wrappers`: `Option`.
- `Ints`: `u8` and `u16`, with the truncating `as` casts written out.
- `Cyclic` and `Text`:
  - `Cyclic` is the wrap-around cursor every list, table and page follows
    while its index is in range. It proves that `n` steps come back to the
    start and that a step back undoes a step forward.
  - `Text` is ASCII lower-casing and substring search.

The model is imperative where the source mutates state:

- The state structs are classes.
- Their `&mut self` methods are methods with field-level `modifies` clauses.
- The filter's pass over the bundle is a loop, proved against the recursive
  specification `Filter`.

The `MonsterListState` invariant `Valid` states four things:

- the bundle is non-empty;
- there is a selection;
- while a query is active, the filtered buffer is the filter of the bundle;
- the current record is the selected record of the visible list, and every
  cached length (quest count, habitat pages, damage rows, the eight drop-table
  row counts) is that record's, truncated to the field's width as the source
  casts it.

Every list operation keeps `Valid`. The key handler keeps `AppState.Valid`,
which adds two facts: the query is always the text of the search box, and
editing happens only on the monster screen. Each key's effect is stated
over three snapshot values and the description height:

- `AppState.View()`: mode, input, screen and menu;
- `MonsterListState.Listing()`: query, buffer, selection and record;
- `MonsterListState.Cursors()`: every panel cursor and tab;
- `HeightKept`: the description height, which no key changes.

The cached lengths are the remaining mutable fields. `Valid` fixes them as
functions of the current record, so these four pin down the whole new state.

Behaviour that the code shows, stated as the model states it:

- A non-empty query that matches nothing still leaves the list selection at
  `Some(0)`. The current record is then the default empty record
  (src/state/monster.rs:564-583 and 441-449).
- `AppState::reset` does not reset the panels (src/state/mod.rs:69-73). Only
  Esc while editing also calls the panel reset (src/keybinding.rs:32-35).
  Esc on the monster screen keeps the panel positions.
- A fresh `MonsterListState` has no quest, weakness or drop row selected
  (`None`, the widget default). The panel reset, every tab toggle that moves
  the row (src/state/monster.rs:143, 249 and 261) and `next` from no selection
  put them on row 0.
- `MonsterListState::prev` from no selection goes to row 0, not to the last row.
  The quest, weakness and drop `prev` go to the last row.
- The quest list compares the selected index after truncating it to 16 bits
  (src/state/monster.rs:68).
- The display names of the two bubble blights, lower-cased ("minor bubble
  blight"), are not the parser's keys ("minor bubbleblight"). Those two do not
  survive a display/parse round trip and come back as `NotRegister`. Every
  other status effect does survive it. `NotRegister` survives it only through
  the parser's fallback.
- `QuestType` falls back to `Optional`, not to its default `Assignments`.
  `StatusAilments` falls back to `Stun` and `ItemWeakness` to `Flashpod`.

## Model

| member | source | states |
|---|---|---|
| `Monster.Roarskind.ToString` | src/monster/monster.rs:32-41 | the display name is non-empty and starts with a capital |
| `Monster.WindPressureKind.ToString` | src/monster/monster.rs:84-94 | the display name is non-empty and starts with a capital |
| `Monster.TremorKind.ToString` | src/monster/monster.rs:137-147 | the display name is non-empty and starts with a capital |
| `Monster.QuestType.ToString` | src/monster/monster.rs:191-201 | the display name is non-empty and starts with a capital |
| `Monster.StatusAilments.ToString` | src/monster/monster.rs:274-286 | the display name is non-empty and starts with a capital |
| `Monster.ItemWeakness.ToString` | src/monster/monster.rs:335-347 | the display name is non-empty and starts with a capital |
| `Monster.MonsterStatusEffects.ToString` | src/monster/monster.rs:543-569 | the display name is non-empty and starts with a capital |
| `Monster.MonsterElements.ToString` | src/monster/monster.rs:667-680 | the display name is non-empty and starts with a capital |
| `Monster.ParseRoarskind` | src/monster/monster.rs:61-72 | "weak" gives Weak and "strong" gives Strong, each exactly for that string; every other string gives None, so parsing never fails |
| `Monster.RoarskindRoundTrip` | src/monster/monster.rs:32-41 | the lower-cased display name of every roar severity parses back to it |
| `Monster.ParseWindPressureKind` | src/monster/monster.rs:114-125 | "strong", "weak" and "minor" give their variants, each exactly for that string; everything else gives None |
| `Monster.WindPressureKindRoundTrip` | src/monster/monster.rs:84-94 | the lower-cased display name of every wind-pressure severity parses back to it |
| `Monster.ParseTremorKind` | src/monster/monster.rs:167-178 | "strong", "weak" and "minor" give their variants, each exactly for that string; everything else gives None |
| `Monster.TremorKindRoundTrip` | src/monster/monster.rs:137-147 | the lower-cased display name of every tremor severity parses back to it |
| `Monster.ParseQuestType` | src/monster/monster.rs:221-234 | the four quest-type keys give their variants; an unknown string gives Optional, which is not the default Assignments |
| `Monster.QuestTypeRoundTrip` | src/monster/monster.rs:191-201 | the lower-cased display name of every quest type parses back to it |
| `Monster.ParseStatusAilments` | src/monster/monster.rs:306-321 | the six ailment keys give their variants; every unknown string gives Stun |
| `Monster.StatusAilmentsRoundTrip` | src/monster/monster.rs:274-286 | the lower-cased display name of every ailment parses back to it |
| `Monster.ParseItemWeakness` | src/monster/monster.rs:367-382 | the six item keys give their variants; every unknown string gives Flashpod |
| `Monster.ItemWeaknessRoundTrip` | src/monster/monster.rs:335-347 | the lower-cased display name of every item parses back to it |
| `Monster.ParseMonsterStatusEffects` | src/monster/monster.rs:589-617 | "none" gives None exactly; a string outside the nineteen keys gives NotRegister exactly; the bubble blights come only from their one-word keys |
| `Monster.MonsterStatusEffectsRoundTrip` | src/monster/monster.rs:543-569 | the lower-cased display name parses back to the same effect, except for the two bubble blights, which parse to NotRegister |
| `Monster.MinorBubbleBlightDoesNotRoundTrip` | src/monster/monster.rs:562 | the lower-cased display name of MinorBubbleBlight parses to NotRegister |
| `Monster.MajorBubbleBlightDoesNotRoundTrip` | src/monster/monster.rs:563 | the lower-cased display name of MajorBubbleBlight parses to NotRegister |
| `Monster.ParseMonsterElements` | src/monster/monster.rs:700-716 | the six element keys give their variants, each exactly for that string; "none" and every unknown string give None |
| `Monster.MonsterElementsRoundTrip` | src/monster/monster.rs:667-680 | the lower-cased display name of every element parses back to it |
| `Monster.DefaultStatusAilmentItem` | src/monster/monster.rs:404-408 | the default table holds exactly six status entries (Stun, 0) and six item entries (Flashpod, not effective) |
| `Monster.DefaultMonsterEntity` | src/monster/monster.rs:10-22 | the default record has no quests, habitats, damage rows or drops, an empty name and None for the roar, wind-pressure and tremor severities |
| `MonsterState.ScrollDownFrom` | src/state/monster.rs:34-40 | the offset grows by one exactly when it is below height − 2 (saturating), else it stays; a height below 2 never scrolls |
| `MonsterState.ScrollUpFrom` | src/state/monster.rs:42-45 | the offset drops by one, floored at 0 |
| `MonsterState.ScrollDownTimesStops` | src/state/monster.rs:34-40 | from within the clamp, k presses of scroll-down give min(offset + k, height − 2) |
| `MonsterState.ScrollUpUndoesScrollDown` | src/state/monster.rs:34-45 | a scroll-up undoes a scroll-down that moved |
| `MonsterState.ScrollableParagraphState.constructor` | src/state/monster.rs:17-21 | the default paragraph state has offset 0 and height 0 |
| `MonsterState.ScrollableParagraphState.SetHeight` | src/state/monster.rs:24-27 | the height becomes the given one |
| `MonsterState.ScrollableParagraphState.Reset` | src/state/monster.rs:29-32 | the offset becomes 0 |
| `MonsterState.ScrollableParagraphState.ScrollDown` | src/state/monster.rs:34-40 | the offset becomes `ScrollDownFrom` of the old offset and the height |
| `MonsterState.ScrollableParagraphState.ScrollUp` | src/state/monster.rs:42-45 | the offset becomes `ScrollUpFrom` of the old offset |
| `MonsterState.QuestNext` | src/state/monster.rs:66-78 | no selection goes to row 0; an in-range row steps forward cyclically over the list length |
| `MonsterState.TableNext` | src/state/monster.rs:162-174 | no selection goes to row 0; an in-range row steps forward cyclically; a row past the end moves one further |
| `MonsterState.TablePrev` | src/state/monster.rs:176-188 | no selection goes to the last row; an in-range row steps back cyclically; a row past the end moves one back |
| `MonsterState.TablePrevUndoesNext` | src/state/monster.rs:162-188 | on an in-range row, prev undoes next and next undoes prev |
| `MonsterState.TableNextTimesIsSteps` | src/state/monster.rs:162-174 | k presses of next from an in-range row are k cyclic steps |
| `MonsterState.TableFullCycle` | src/state/monster.rs:162-174 | as many presses of next as there are rows return to the start row |
| `MonsterState.MonsterOnQuestListState.constructor` | src/state/monster.rs:409-412 | the quest list starts with no selection and the given length |
| `MonsterState.MonsterOnQuestListState.Next` | src/state/monster.rs:66-78 | on a non-empty list the selection becomes `QuestNext` of the old one |
| `MonsterState.MonsterOnQuestListState.Prev` | src/state/monster.rs:80-92 | on a non-empty list the selection becomes `TablePrev` of the old one |
| `MonsterState.MonsterOnQuestListState.Select` | src/state/monster.rs:94-97 | the selection becomes the given row |
| `MonsterState.MonsterOnQuestListState.Reset` | src/state/monster.rs:99-102 | the selection becomes row 0 |
| `MonsterState.TabCycles` | src/state/monster.rs:129-145 | toggling a two-way tab twice is the identity; the source tab returns after four steps and not after two |
| `MonsterState.MonsterWeaknessTabState.constructor` | src/state/monster.rs:417-420 | the weakness panel starts on the WeaponDamage and Status tabs with no row selected and the given damage-row count |
| `MonsterState.MonsterWeaknessTabState.ToggleSelectedAilmentItemTab` | src/state/monster.rs:129-135 | the status/item tab flips and nothing else changes |
| `MonsterState.MonsterWeaknessTabState.ToggleSelectedWeaponElmTab` | src/state/monster.rs:137-145 | the weapon/element tab flips and the row cursor goes to row 0 |
| `MonsterState.MonsterWeaknessTabState.Reset` | src/state/monster.rs:147-152 | row 0, the Status tab and the WeaponDamage tab |
| `MonsterState.MonsterWeaknessTabState.Next` | src/state/monster.rs:162-174 | on a non-empty damage table the row becomes `TableNext` of the old row |
| `MonsterState.MonsterWeaknessTabState.Prev` | src/state/monster.rs:176-188 | on a non-empty damage table the row becomes `TablePrev` of the old row |
| `MonsterState.MonsterWeaknessTabState.Select` | src/state/monster.rs:190-193 | the row becomes the given one |
| `MonsterState.MonsterDropTabState.constructor` | src/state/monster.rs:421-431 | default tabs, no row, and the eight row counts of the given drops |
| `MonsterState.MonsterDropTabState.CurrentDataUseLen` | src/state/monster.rs:303-318 | when the cached counts are those of some drops, the active table's length is the row count of the table the two tabs choose, truncated to 16 bits |
| `MonsterState.MonsterDropTabState.LensMatchLenFor` | src/state/monster.rs:303-318 | when the cached counts are those of a record, the count for every (rank, source) pair, and so the active table's length, is that table's row count truncated to 16 bits |
| `MonsterState.MonsterDropTabState.SetLens` | src/state/monster.rs:456-472 | the eight cached row counts become those of the given drops |
| `MonsterState.MonsterDropTabState.ToggleSelectedRankTab` | src/state/monster.rs:243-251 | the rank tab flips and the row goes to 0 |
| `MonsterState.MonsterDropTabState.ToggleSelectedSourceTab` | src/state/monster.rs:253-263 | the source tab advances Target, BrokenPart, WoundDestroy, Carve, Target and the row goes to 0 |
| `MonsterState.MonsterDropTabState.Next` | src/state/monster.rs:275-287 | on a non-empty active table the row becomes `TableNext` over the length chosen by the two tabs |
| `MonsterState.MonsterDropTabState.Prev` | src/state/monster.rs:289-301 | on a non-empty active table the row becomes `TablePrev` over the length chosen by the two tabs |
| `MonsterState.MonsterDropTabState.Select` | src/state/monster.rs:320-323 | the row becomes the given one |
| `MonsterState.MonsterDropTabState.Reset` | src/state/monster.rs:325-330 | row 0, LowRank and Target |
| `MonsterState.HabitatNext` | src/state/monster.rs:344-354 | a no-op without pages; otherwise an in-range page steps forward cyclically and a page past the end moves one further |
| `MonsterState.HabitatPrev` | src/state/monster.rs:356-366 | a no-op without pages; otherwise an in-range page steps back cyclically and a page past the end moves one back |
| `MonsterState.HabitatNextPrevInverse` | src/state/monster.rs:344-366 | an in-range page stays in range, and prev undoes next and next undoes prev |
| `MonsterState.ChangeableHabitatPageState.constructor` | src/state/monster.rs:413-416 | the given page count, on page 0 |
| `MonsterState.ChangeableHabitatPageState.Reset` | src/state/monster.rs:340-342 | the page becomes 0 |
| `MonsterState.ChangeableHabitatPageState.Next` | src/state/monster.rs:344-354 | the page becomes `HabitatNext` of the old page |
| `MonsterState.ChangeableHabitatPageState.Prev` | src/state/monster.rs:356-366 | the page becomes `HabitatPrev` of the old page |
| `Text.Lower` | src/state/monster.rs:573-576 | same length; no ASCII capital is left; every other character is kept; every ASCII capital becomes its small letter |
| `Text.Contains` | src/state/monster.rs:573-576 | a string that contains the needle is at least as long as the needle |
| `Text.ContainsIffOccurs` | src/state/monster.rs:573-576 | the search succeeds exactly when the needle occurs at some position of the string |
| `MonsterState.Filter` | src/state/monster.rs:569-579 | the result is no longer than the bundle, and every record in it is from the bundle and has a lower-cased name containing the lower-cased query |
| `MonsterState.FilterAppend` | src/state/monster.rs:569-579 | the filter keeps relative order: filtering a concatenation concatenates the filters |
| `MonsterState.FilterComplete` | src/state/monster.rs:572-577 | every matching record of the bundle is kept |
| `MonsterState.FilterEmptyQuery` | src/state/monster.rs:585-591 | the empty query keeps the whole bundle |
| `MonsterState.FilterByName` | src/state/monster.rs:567-580 | the pass over the bundle computes exactly `Filter` of the bundle and the query |
| `MonsterState.ListNext` | src/state/monster.rs:475-492 | on a non-empty list the result is in range: no selection goes to 0, an in-range index steps forward cyclically, an index at or past the last one goes to 0 |
| `MonsterState.SelectedRecord` | src/state/monster.rs:441-449 | the record at the selected index (index 0 when nothing is selected) when it is in range, otherwise the default record; so it is always a listed record or the default one, and the default on an empty list |
| `MonsterState.ListPrev` | src/state/monster.rs:494-511 | no selection goes to 0; an in-range index steps back cyclically; an index past the end moves one back |
| `MonsterState.ListNextTimesIsSteps` | src/state/monster.rs:475-492 | k presses of next from an in-range index are k cyclic steps |
| `MonsterState.ListFullCycle` | src/state/monster.rs:475-511 | as many presses of next as there are records return to the start, and prev undoes next |
| `MonsterState.MonsterListState.ListItems` | src/state/monster.rs:585-591 | while the filter is consistent, the visible list is the filter of the bundle by the query, which is the whole bundle for an empty query |
| `MonsterState.MonsterListState.Init` | src/state/monster.rs:386-434 | for a non-empty bundle: the invariant holds, the first record is selected and current, its lengths are cached, the panels are at their defaults and nothing is filtered |
| `MonsterState.MonsterListState.New` | src/state/monster.rs:386-434 | no state exactly when the bundle is empty; otherwise a valid state on the first record with the whole bundle visible |
| `MonsterState.MonsterListState.UpdateSelectedMonsterData` | src/state/monster.rs:441-473 | the current record is the selected record of the visible list, or the default record past its end; every cached length is that record's; the panel cursors are unchanged |
| `MonsterState.MonsterListState.RefreshCaches` | src/state/monster.rs:451-472 | every cached length becomes that of the given record, truncated as the source casts it; the panel cursors are unchanged |
| `MonsterState.MonsterListState.Select` | src/state/monster.rs:513-518 | the selection is the given index, the current record and caches follow it, the invariant is restored, the panel cursors are unchanged |
| `MonsterState.MonsterListState.Next` | src/state/monster.rs:475-492 | nothing changes on an empty visible list; otherwise the selection becomes `ListNext` and the record and caches follow; the invariant is kept and the panels are unchanged |
| `MonsterState.MonsterListState.Prev` | src/state/monster.rs:494-511 | nothing changes on an empty visible list; otherwise the selection becomes `ListPrev` and the record and caches follow; the invariant is kept and the panels are unchanged |
| `MonsterState.MonsterListState.SetListFilter` | src/state/monster.rs:564-583 | the query is the given one; a non-empty query rebuilds the buffer as the filter of the bundle; the visible list is that filter; the selection is Some(0) even when nothing matches; the invariant holds |
| `MonsterState.MonsterListState.Reset` | src/state/monster.rs:593-602 | every panel cursor and tab goes to its reset position; the list selection and current record are left alone; the invariant is kept |
| `State.MainMenuOption.Next` | src/state/mod.rs:19-26 | the next entry is one cyclic step down the four-entry menu and differs from the current one |
| `State.MainMenuOption.Prev` | src/state/mod.rs:27-34 | the previous entry is one cyclic step up the menu and differs from the current one |
| `State.MenuCycle` | src/state/mod.rs:19-34 | prev undoes next and next undoes prev; four presses of either return to the start |
| `State.AppState.constructor` | src/state/mod.rs:59-66 | the program starts in normal mode on the main screen with the Monster entry highlighted and an empty search box |
| `State.AppState.Reset` | src/state/mod.rs:69-73 | normal mode, an empty search box and an empty query, so the whole bundle shows with its first record selected; the screen, the menu and the panel cursors are unchanged |
| `Keybinding.KeyHandleResult.ShouldExit` | src/keybinding.rs:13-17 | the loop stops exactly when the result is not Continue |
| `Keybinding.MenuScreen` | src/keybinding.rs:132-141 | every menu entry opens a screen other than the main one |
| `Keybinding.HandleKey` | src/keybinding.rs:19-28 | a release event changes nothing and continues; otherwise the outcome is that of the current mode and screen (below); the application invariant and the description height are kept |
| `Keybinding.OnEdit` | src/keybinding.rs:30-48 | continues; Esc leaves the search, clears it and resets the panels; Enter only leaves the search; any other key makes the edited text the query, filters by it, selects row 0 and resets the panels; the description height is kept |
| `Keybinding.CancelSearch` | src/keybinding.rs:32-35 | normal mode, empty search box, the whole bundle on row 0, the panels at their reset positions, the description height kept |
| `Keybinding.TypeInSearch` | src/keybinding.rs:37-44 | the edited text is the search box and the query, the visible list is its filter, row 0 is selected and the panels are reset; the description height is kept |
| `Keybinding.OnNormal` | src/keybinding.rs:49-130 | the outcome of the main screen or the monster screen; on the quest, weapon and armor screens nothing changes, the description height included, and the result is Continue |
| `Keybinding.OnMainScreen` | src/keybinding.rs:58-76 | Ctrl on a non-character changes nothing; q exits; Down/j and Up/k move the menu; Enter opens the highlighted screen, resetting the panels only for Monster; other keys change nothing; the description height is kept |
| `Keybinding.MoveMenu` | src/keybinding.rs:70-71 | the menu highlight moves one entry down (`next`) or up (`prev`) and nothing else in the view changes; the invariant is kept |
| `Keybinding.OpenScreen` | src/keybinding.rs:72 | the screen becomes the one the highlighted entry opens, nothing else in the view changes, and the panels are reset exactly when that is the monster screen |
| `Keybinding.OnMonsterScreen` | src/keybinding.rs:77-125 | Down/Up step the list after a panel reset; Esc leaves the search state and returns to the main screen; character keys as in `OnMonsterChar`; other keys change nothing; the description height is kept |
| `Keybinding.OnMonsterChar` | src/keybinding.rs:78-116 | q exits and changes nothing; j/k step the list after a panel reset; other characters as in `OnMonsterPanelChar`; the description height is kept |
| `Keybinding.OnMonsterPanelChar` | src/keybinding.rs:96-116 | 4, $, 5 and % switch exactly one tab and leave the list and screen alone; / enters editing and changes nothing else; other characters change nothing; the description height is kept |
| `Keybinding.StepMonster` | src/keybinding.rs:79-94 | the panels are at their reset positions, the selection has moved by `ListNext` or `ListPrev` over the unchanged visible list, and the screen, mode, input, menu and description height are unchanged |
| `Keybinding.StepList` | src/keybinding.rs:84-85 | the selection moves by `ListNext` or `ListPrev` over the unchanged visible list; the panel cursors and description height are unchanged |
| `Keybinding.TabSwitched` | src/keybinding.rs:96-115 | a tab key leaves the description, habitat and quest cursors alone; any other character leaves every cursor alone |
| `Keybinding.SwitchTab` | src/keybinding.rs:96-115 | the panel cursors become `TabSwitched` of the old ones for the key |
| `Keybinding.LeaveMonsterScreen` | src/keybinding.rs:119-122 | normal mode, an empty search box, the main screen, the whole bundle on row 0, the panel cursors and description height unchanged |
| `Keybinding.SelectScreen` | src/keybinding.rs:132-142 | the screen is the one the highlighted entry opens; the panels are reset exactly when that is the monster screen |

## Left out

- Rendering: the widgets, layout, colours, icons (`color()`, `icon()`) and
  every `ScrollbarState` mirror, including each `set_scrollbar_height` and the
  list's own scrollbar. These only feed the terminal drawing.
- The paragraph height is computed by text wrapping in the widget code. Here
  it is an input to `SetHeight`.
- Terminal setup, the event loop, loading the JSON dataset, deserialisation
  other than the string parsers, and reading the ASCII-art icon file. All of
  this is I/O.
- `MonsterListState::path` and the `get_*` accessors. Each only copies a field
  of the current record.
- `TuiState.cursor`, which the state engine never reads.
- The line editor `tui_input::Input`, a foreign library. Its effect on a key is
  the `edited` parameter of `Keybinding.HandleKey`: the text of the search box
  after the key.
- `KeyEvent.state`, which the handler ignores.
- Key codes other than characters, Enter, Esc, arrows and Backspace. They all
  fall in the handler's catch-all branches.
- `Keybinding.HandleKey` requires that the event is not Ctrl plus a character
  on the main screen in normal mode. The source leaves that branch
  unimplemented and panics.
- Lower-casing is modelled on ASCII letters only. Rust's `to_lowercase` also
  folds non-ASCII letters. The dataset's names and keys do not contain any. A
  non-ASCII capital typed into the search box is not folded here, so such a
  query can match differently from the source's
  (src/state/monster.rs:573-576).
- Indices are unbounded naturals. The source's `usize` `saturating_add(1)`
  could only saturate at 2^64 − 1, which no list reaches.
- `MonsterState.MonsterOnQuestListState.Next` and `Prev` require a non-empty
  quest list. On an empty list the source's `list_len - 1` underflows. A build
  with overflow checks panics. A release build wraps it, to 65535 in `next`
  (a `u16` subtraction) and to `usize::MAX` in `prev` (a `usize` one).
- `MonsterState.MonsterWeaknessTabState.Next` and `Prev` require a non-empty
  damage table, for the same `len - 1` underflow (a panic with overflow checks,
  a wrap to `usize::MAX` in a release build).
- `MonsterState.MonsterDropTabState.Next` and `Prev` require a non-empty active
  table, for the same underflow (a panic with overflow checks, a wrap to
  `usize::MAX` in a release build).
- `MonsterState.ChangeableHabitatPageState.Next` requires the page increment to
  stay within `u8`. The page count is a `u8`, so the last in-range page is at
  most 254 and wraps to 0; an in-range page never overflows. A page can still
  end up out of range: a refresh of the caches sets the page count
  (src/state/monster.rs:452) and leaves the page, so selecting a record with
  at most as many pages as the current page leaves it past the end. From
  there each `+= 1` moves it one page further, and on page 255 the increment
  overflows. The model follows that climb and excludes only the final
  overflow.
- `MonsterState.QuestNext` states the cyclic step for in-range rows only. An
  out-of-range row is compared after 16-bit truncation, which the function
  follows but its contract does not spell out.
- `MonsterState.MonsterListState.Init`, the constructors of the panel classes
  and `MonsterState.MonsterListState.New` build the panels as separate objects.
  The source's `Rc` sharing of records is modelled by value.
