/** The per-panel state of the monster browser: the scrollable description, the
    habitat pages, the quest list, the weakness and drop tables with their tab
    toggles, and the filtered, selectable monster list that owns them all. */
module MonsterState {
  import opened Wrappers
  import opened Ints
  import opened Cyclic
  import opened Text
  import Monster

  // ===========================================================================
  // Scrollable paragraph (the ability description)

  /** The offset after one `scroll_down`: one line further, but only while the
      offset is below `height - 2` (saturating, so a height below 2 never scrolls). */
  function ScrollDownFrom(position: nat, height: nat): (r: nat)
    ensures r == position || r == position + 1
    ensures r == position + 1 <==> position < SatSub(height, 2)
    ensures position <= SatSub(height, 2) ==> r <= SatSub(height, 2)
    ensures height < 2 ==> r == position
  {
    if position < SatSub(height, 2) then position + 1 else position
  }

  /** The offset after one `scroll_up`: one line back, floored at 0. */
  function ScrollUpFrom(position: nat): (r: nat)
    ensures position > 0 ==> r + 1 == position
    ensures position == 0 ==> r == 0
  {
    SatSub(position, 1)
  }

  /** The offset after `k` presses of `scroll_down`. */
  function ScrollDownTimes(position: nat, height: nat, k: nat): nat
    decreases k
  {
    if k == 0 then position else ScrollDownTimes(ScrollDownFrom(position, height), height, k - 1)
  }

  /** From an offset within the clamp, repeated scrolling down advances one line
      per press and then stops at `height - 2`. */
  lemma {:induction false} ScrollDownTimesStops(position: nat, height: nat, k: nat)
    requires position <= SatSub(height, 2)
    ensures ScrollDownTimes(position, height, k) == Min(position + k, SatSub(height, 2))
    decreases k
  {
    if k > 0 {
      ScrollDownTimesStops(ScrollDownFrom(position, height), height, k - 1);
    }
  }

  /** Scrolling up undoes a scroll down that moved. */
  lemma ScrollUpUndoesScrollDown(position: nat, height: nat)
    requires position < SatSub(height, 2)
    ensures ScrollUpFrom(ScrollDownFrom(position, height)) == position
  {
  }

  class ScrollableParagraphState {
    var position: nat
    var height: nat

    constructor()
      ensures position == 0 && height == 0
    {
      position, height := 0, 0;
    }

    method SetHeight(height: nat)
      modifies this`height
      ensures this.height == height
    {
      this.height := height;
    }

    method Reset()
      modifies this`position
      ensures position == 0
    {
      position := 0;
    }

    method ScrollDown()
      modifies this`position
      ensures position == ScrollDownFrom(old(position), height)
    {
      if position < SatSub(height, 2) {
        position := position + 1;
      }
    }

    method ScrollUp()
      modifies this`position
      ensures position == ScrollUpFrom(old(position))
    {
      position := SatSub(position, 1);
    }
  }

  // ===========================================================================
  // Row cursors shared by the quest list and the two tables

  /** `next` on the quest list: `None` goes to row 0; the last row (compared
      after truncating the index to 16 bits) goes to row 0; any other row one
      further. */
  function QuestNext(selected: Option<nat>, len: u16): (r: Option<nat>)
    requires len > 0
    ensures r.Some?
    ensures selected.None? ==> r == Some(0)
    ensures selected.Some? && selected.value < len ==> r == Some(Step(selected.value, len))
  {
    match selected
    case None => Some(0)
    case Some(i) => if AsU16(i) == len - 1 then Some(0) else Some(i + 1)
  }

  /** `next` on the weakness and drop tables: as `QuestNext`, without truncation. */
  function TableNext(selected: Option<nat>, len: nat): (r: Option<nat>)
    requires len > 0
    ensures r.Some?
    ensures selected.None? ==> r == Some(0)
    ensures selected.Some? && selected.value < len ==> r == Some(Step(selected.value, len))
    ensures selected.Some? && selected.value >= len ==> r == Some(selected.value + 1)
  {
    match selected
    case None => Some(0)
    case Some(i) => if i == len - 1 then Some(0) else Some(i + 1)
  }

  /** `prev` on the quest list and the tables: `None` and row 0 go to the last
      row, any other row one back. */
  function TablePrev(selected: Option<nat>, len: nat): (r: Option<nat>)
    requires len > 0
    ensures r.Some?
    ensures selected.None? ==> r == Some(len - 1)
    ensures selected.Some? && selected.value < len ==> r == Some(StepBack(selected.value, len))
    ensures selected.Some? && selected.value >= len ==> r == Some(selected.value - 1)
  {
    match selected
    case None => Some(len - 1)
    case Some(i) => if i == 0 then Some(len - 1) else Some(i - 1)
  }

  /** On an in-range row, `prev` undoes `next` and `next` undoes `prev`. */
  lemma TablePrevUndoesNext(i: nat, len: nat)
    requires i < len
    ensures TablePrev(TableNext(Some(i), len), len) == Some(i)
    ensures TableNext(TablePrev(Some(i), len), len) == Some(i)
  {
    StepBackIsInverse(i, len);
  }

  /** `len` presses of `next` on a table with `len` rows return to the start row. */
  function TableNextTimes(selected: Option<nat>, len: nat, k: nat): (r: Option<nat>)
    requires len > 0
    decreases k
  {
    if k == 0 then selected else TableNextTimes(TableNext(selected, len), len, k - 1)
  }

  lemma {:induction false} TableNextTimesIsSteps(i: nat, len: nat, k: nat)
    requires i < len
    ensures TableNextTimes(Some(i), len, k) == Some(Steps(i, len, k))
    decreases k
  {
    if k > 0 {
      TableNextTimesIsSteps(Step(i, len), len, k - 1);
    }
  }

  lemma TableFullCycle(i: nat, len: nat)
    requires i < len
    ensures TableNextTimes(Some(i), len, len) == Some(i)
  {
    TableNextTimesIsSteps(i, len, len);
    FullCycle(i, len);
  }

  // ===========================================================================
  // Quest list

  class MonsterOnQuestListState {
    var selected: Option<nat>
    var listLen: u16

    /** `MonsterOnQuestListState { list_len, ..Default::default() }`: nothing selected. */
    constructor(listLen: u16)
      ensures selected == None && this.listLen == listLen
    {
      selected := None;
      this.listLen := listLen;
    }

    /** Requires a non-empty list: `list_len - 1` underflows otherwise. */
    method Next()
      requires listLen > 0
      modifies this`selected
      ensures selected == QuestNext(old(selected), listLen)
    {
      var idx: nat;
      if selected.Some? {
        if AsU16(selected.value) == listLen - 1 {
          idx := 0;
        } else {
          idx := selected.value + 1;
        }
      } else {
        idx := 0;
      }
      Select(idx);
    }

    method Prev()
      requires listLen > 0
      modifies this`selected
      ensures selected == TablePrev(old(selected), listLen)
    {
      var idx: nat;
      if selected.Some? {
        if selected.value == 0 {
          idx := listLen - 1;
        } else {
          idx := selected.value - 1;
        }
      } else {
        idx := listLen - 1;
      }
      Select(idx);
    }

    method Select(idx: nat)
      modifies this`selected
      ensures selected == Some(idx)
    {
      selected := Some(idx);
    }

    method Reset()
      modifies this`selected
      ensures selected == Some(0)
    {
      selected := Some(0);
    }
  }

  // ===========================================================================
  // Weakness panel: weapon/element damage table and status/item tab

  datatype MonsterWeaknessTab = WeaponDamage | ElementDamage {
    function Toggled(): (t: MonsterWeaknessTab)
      ensures t != this
    {
      match this
      case WeaponDamage => ElementDamage
      case ElementDamage => WeaponDamage
    }
  }

  datatype MonsterStatusAndItemWeaknessTab = Status | Item {
    function Toggled(): (t: MonsterStatusAndItemWeaknessTab)
      ensures t != this
    {
      match this
      case Status => Item
      case Item => Status
    }
  }

  class MonsterWeaknessTabState {
    var selectedWeaponElmTab: MonsterWeaknessTab
    var selectedStatusItemTab: MonsterStatusAndItemWeaknessTab
    var tableSelected: Option<nat>
    var damageDataLen: u16

    constructor(damageDataLen: u16)
      ensures selectedWeaponElmTab == WeaponDamage && selectedStatusItemTab == Status
      ensures tableSelected == None && this.damageDataLen == damageDataLen
    {
      selectedWeaponElmTab := WeaponDamage;
      selectedStatusItemTab := Status;
      tableSelected := None;
      this.damageDataLen := damageDataLen;
    }

    /** Flips the status/item tab; the damage-table row is left alone. */
    method ToggleSelectedAilmentItemTab()
      modifies this`selectedStatusItemTab
      ensures selectedStatusItemTab == old(selectedStatusItemTab).Toggled()
    {
      match selectedStatusItemTab
      case Status => selectedStatusItemTab := Item;
      case Item => selectedStatusItemTab := Status;
    }

    /** Flips the weapon/element tab and puts the row cursor back on row 0. */
    method ToggleSelectedWeaponElmTab()
      modifies this`selectedWeaponElmTab, this`tableSelected
      ensures selectedWeaponElmTab == old(selectedWeaponElmTab).Toggled()
      ensures tableSelected == Some(0)
    {
      match selectedWeaponElmTab {
        case WeaponDamage => selectedWeaponElmTab := ElementDamage;
        case ElementDamage => selectedWeaponElmTab := WeaponDamage;
      }
      tableSelected := Some(0);
    }

    method Reset()
      modifies this`tableSelected, this`selectedStatusItemTab, this`selectedWeaponElmTab
      ensures tableSelected == Some(0)
      ensures selectedStatusItemTab == Status && selectedWeaponElmTab == WeaponDamage
    {
      tableSelected := Some(0);
      selectedStatusItemTab := Status;
      selectedWeaponElmTab := WeaponDamage;
    }

    /** Requires a non-empty table: `damage_data_len - 1` underflows otherwise. */
    method Next()
      requires damageDataLen > 0
      modifies this`tableSelected
      ensures tableSelected == TableNext(old(tableSelected), damageDataLen)
    {
      var idx: nat;
      if tableSelected.Some? {
        if tableSelected.value == damageDataLen - 1 {
          idx := 0;
        } else {
          idx := tableSelected.value + 1;
        }
      } else {
        idx := 0;
      }
      Select(idx);
    }

    method Prev()
      requires damageDataLen > 0
      modifies this`tableSelected
      ensures tableSelected == TablePrev(old(tableSelected), damageDataLen)
    {
      var idx: nat;
      if tableSelected.Some? {
        if tableSelected.value == 0 {
          idx := damageDataLen - 1;
        } else {
          idx := tableSelected.value - 1;
        }
      } else {
        idx := damageDataLen - 1;
      }
      Select(idx);
    }

    method Select(idx: nat)
      modifies this`tableSelected
      ensures tableSelected == Some(idx)
    {
      tableSelected := Some(idx);
    }
  }

  // ===========================================================================
  // Drop panel: a 2 x 4 grid of material tables

  datatype MonsterDropRankTab = LowRank | HighRank {
    function Toggled(): (t: MonsterDropRankTab)
      ensures t != this
    {
      match this
      case LowRank => HighRank
      case HighRank => LowRank
    }
  }

  datatype MaterialSourceTab = Target | BrokenPart | WoundDestroy | Carve {
    /** The next source tab: Target, BrokenPart, WoundDestroy, Carve, Target. */
    function Next(): (t: MaterialSourceTab)
      ensures t != this
    {
      match this
      case Target => BrokenPart
      case BrokenPart => WoundDestroy
      case WoundDestroy => Carve
      case Carve => Target
    }
  }

  /** Toggling a two-way tab twice, or the source tab four times, is the identity. */
  lemma TabCycles(r: MonsterDropRankTab, s: MaterialSourceTab, w: MonsterWeaknessTab, a: MonsterStatusAndItemWeaknessTab)
    ensures r.Toggled().Toggled() == r
    ensures w.Toggled().Toggled() == w
    ensures a.Toggled().Toggled() == a
    ensures s.Next().Next().Next().Next() == s
    ensures s.Next().Next() != s
  {
  }

  /** The number of rows of one material table of a record. */
  function DropCount(drops: Monster.MonsterDrops, rank: MonsterDropRankTab, source: MaterialSourceTab): nat {
    var m := if rank == LowRank then drops.lowRank else drops.highRank;
    match source
    case Target => |m.target|
    case BrokenPart => |m.brokenPart|
    case WoundDestroy => |m.woundDestroy|
    case Carve => |m.carve|
  }

  class MonsterDropTabState {
    var selectedRankTab: MonsterDropRankTab
    var selectedSourceTab: MaterialSourceTab
    var tableSelected: Option<nat>
    var lowTargetLen: u16
    var lowBrokenPartLen: u16
    var lowWoundDestroyLen: u16
    var lowCarveLen: u16
    var highTargetLen: u16
    var highBrokenPartLen: u16
    var highWoundDestroyLen: u16
    var highCarveLen: u16

    /** Default tabs and no selected row, with the eight row counts of `drops`. */
    constructor(drops: Monster.MonsterDrops)
      ensures selectedRankTab == LowRank && selectedSourceTab == Target && tableSelected == None
      ensures LensMatch(drops)
    {
      selectedRankTab, selectedSourceTab, tableSelected := LowRank, Target, None;
      lowTargetLen := AsU16(|drops.lowRank.target|);
      lowBrokenPartLen := AsU16(|drops.lowRank.brokenPart|);
      lowWoundDestroyLen := AsU16(|drops.lowRank.woundDestroy|);
      lowCarveLen := AsU16(|drops.lowRank.carve|);
      highTargetLen := AsU16(|drops.highRank.target|);
      highBrokenPartLen := AsU16(|drops.highRank.brokenPart|);
      highWoundDestroyLen := AsU16(|drops.highRank.woundDestroy|);
      highCarveLen := AsU16(|drops.highRank.carve|);
    }

    /** The cached row count of the table at (`rank`, `source`). */
    function LenFor(rank: MonsterDropRankTab, source: MaterialSourceTab): u16
      reads this`lowTargetLen, this`lowBrokenPartLen, this`lowWoundDestroyLen, this`lowCarveLen,
        this`highTargetLen, this`highBrokenPartLen, this`highWoundDestroyLen, this`highCarveLen
    {
      match rank
      case LowRank =>
        (match source
         case Target => lowTargetLen
         case BrokenPart => lowBrokenPartLen
         case WoundDestroy => lowWoundDestroyLen
         case Carve => lowCarveLen)
      case HighRank =>
        (match source
         case Target => highTargetLen
         case BrokenPart => highBrokenPartLen
         case WoundDestroy => highWoundDestroyLen
         case Carve => highCarveLen)
    }

    /** The eight cached row counts are those of `drops`, each cast to 16 bits. */
    predicate LensMatch(drops: Monster.MonsterDrops)
      reads this`lowTargetLen, this`lowBrokenPartLen, this`lowWoundDestroyLen, this`lowCarveLen,
        this`highTargetLen, this`highBrokenPartLen, this`highWoundDestroyLen, this`highCarveLen
    {
      && lowTargetLen == AsU16(|drops.lowRank.target|)
      && lowBrokenPartLen == AsU16(|drops.lowRank.brokenPart|)
      && lowWoundDestroyLen == AsU16(|drops.lowRank.woundDestroy|)
      && lowCarveLen == AsU16(|drops.lowRank.carve|)
      && highTargetLen == AsU16(|drops.highRank.target|)
      && highBrokenPartLen == AsU16(|drops.highRank.brokenPart|)
      && highWoundDestroyLen == AsU16(|drops.highRank.woundDestroy|)
      && highCarveLen == AsU16(|drops.highRank.carve|)
    }

    /** With matching caches, every table's cached row count, and so the length
        `next` and `prev` use, is that table's row count in `drops` cast to 16 bits. */
    lemma LensMatchLenFor(drops: Monster.MonsterDrops)
      requires LensMatch(drops)
      ensures forall rank, source :: LenFor(rank, source) == AsU16(DropCount(drops, rank, source))
      ensures CurrentDataUseLen() == AsU16(DropCount(drops, selectedRankTab, selectedSourceTab))
    {
    }

    /** `get_current_data_use_len`: the row count of the table the two tabs select. */
    function CurrentDataUseLen(): u16
      reads this`selectedRankTab, this`selectedSourceTab,
        this`lowTargetLen, this`lowBrokenPartLen, this`lowWoundDestroyLen, this`lowCarveLen,
        this`highTargetLen, this`highBrokenPartLen, this`highWoundDestroyLen, this`highCarveLen
      ensures forall drops :: LensMatch(drops) ==>
        CurrentDataUseLen() == AsU16(DropCount(drops, selectedRankTab, selectedSourceTab))
    {
      LenFor(selectedRankTab, selectedSourceTab)
    }

    /** The eight cached row counts are as they were. */
    twostate predicate LensUnchanged()
      reads this
    {
      && lowTargetLen == old(lowTargetLen) && lowBrokenPartLen == old(lowBrokenPartLen)
      && lowWoundDestroyLen == old(lowWoundDestroyLen) && lowCarveLen == old(lowCarveLen)
      && highTargetLen == old(highTargetLen) && highBrokenPartLen == old(highBrokenPartLen)
      && highWoundDestroyLen == old(highWoundDestroyLen) && highCarveLen == old(highCarveLen)
    }

    /** Refreshes the eight cached row counts from `drops`. */
    method SetLens(drops: Monster.MonsterDrops)
      modifies this`lowTargetLen, this`lowBrokenPartLen, this`lowWoundDestroyLen, this`lowCarveLen,
        this`highTargetLen, this`highBrokenPartLen, this`highWoundDestroyLen, this`highCarveLen
      ensures LensMatch(drops)
    {
      lowTargetLen := AsU16(|drops.lowRank.target|);
      lowBrokenPartLen := AsU16(|drops.lowRank.brokenPart|);
      lowWoundDestroyLen := AsU16(|drops.lowRank.woundDestroy|);
      lowCarveLen := AsU16(|drops.lowRank.carve|);
      highTargetLen := AsU16(|drops.highRank.target|);
      highBrokenPartLen := AsU16(|drops.highRank.brokenPart|);
      highWoundDestroyLen := AsU16(|drops.highRank.woundDestroy|);
      highCarveLen := AsU16(|drops.highRank.carve|);
    }

    /** Flips the rank tab and puts the row cursor back on row 0. */
    method ToggleSelectedRankTab()
      modifies this`selectedRankTab, this`tableSelected
      ensures selectedRankTab == old(selectedRankTab).Toggled()
      ensures tableSelected == Some(0)
    {
      match selectedRankTab {
        case LowRank => selectedRankTab := HighRank;
        case HighRank => selectedRankTab := LowRank;
      }
      tableSelected := Some(0);
    }

    /** Advances the source tab and puts the row cursor back on row 0. */
    method ToggleSelectedSourceTab()
      modifies this`selectedSourceTab, this`tableSelected
      ensures selectedSourceTab == old(selectedSourceTab).Next()
      ensures tableSelected == Some(0)
    {
      match selectedSourceTab {
        case Target => selectedSourceTab := BrokenPart;
        case BrokenPart => selectedSourceTab := WoundDestroy;
        case WoundDestroy => selectedSourceTab := Carve;
        case Carve => selectedSourceTab := Target;
      }
      tableSelected := Some(0);
    }

    /** Requires a non-empty active table: `len - 1` underflows otherwise. */
    method Next()
      requires CurrentDataUseLen() > 0
      modifies this`tableSelected
      ensures tableSelected == TableNext(old(tableSelected), CurrentDataUseLen())
    {
      var idx: nat;
      if tableSelected.Some? {
        if tableSelected.value == CurrentDataUseLen() - 1 {
          idx := 0;
        } else {
          idx := tableSelected.value + 1;
        }
      } else {
        idx := 0;
      }
      Select(idx);
    }

    method Prev()
      requires CurrentDataUseLen() > 0
      modifies this`tableSelected
      ensures tableSelected == TablePrev(old(tableSelected), CurrentDataUseLen())
    {
      var idx: nat;
      if tableSelected.Some? {
        if tableSelected.value == 0 {
          idx := CurrentDataUseLen() - 1;
        } else {
          idx := tableSelected.value - 1;
        }
      } else {
        idx := CurrentDataUseLen() - 1;
      }
      Select(idx);
    }

    method Select(idx: nat)
      modifies this`tableSelected
      ensures tableSelected == Some(idx)
    {
      tableSelected := Some(idx);
    }

    method Reset()
      modifies this`tableSelected, this`selectedRankTab, this`selectedSourceTab
      ensures tableSelected == Some(0)
      ensures selectedRankTab == LowRank && selectedSourceTab == Target
    {
      tableSelected := Some(0);
      selectedRankTab := LowRank;
      selectedSourceTab := Target;
    }
  }

  // ===========================================================================
  // Habitat pages

  /** `next` on the habitat pages: a no-op without pages, otherwise the last
      page wraps to page 0. */
  function HabitatNext(current: u8, total: u8): (r: u8)
    requires total == 0 || current < U8_LIMIT - 1
    ensures total == 0 ==> r == current
    ensures 0 < total && current < total ==> r == Step(current, total)
    ensures 0 < total <= current ==> r == current + 1
  {
    if total == 0 then current
    else if current == total - 1 then 0
    else current + 1
  }

  /** `prev` on the habitat pages: a no-op without pages, otherwise page 0
      wraps to the last page. */
  function HabitatPrev(current: u8, total: u8): (r: u8)
    ensures total == 0 ==> r == current
    ensures 0 < total && current < total ==> r == StepBack(current, total)
    ensures 0 < total <= current ==> r == current - 1
  {
    if total == 0 then current
    else if current == 0 then total - 1
    else current - 1
  }

  /** On an in-range page, `next` and `prev` keep the page in range and undo each other. */
  lemma HabitatNextPrevInverse(current: u8, total: u8)
    requires current < total
    ensures HabitatNext(current, total) < total && HabitatPrev(current, total) < total
    ensures HabitatPrev(HabitatNext(current, total), total) == current
    ensures HabitatNext(HabitatPrev(current, total), total) == current
  {
    StepBackIsInverse(current, total);
  }

  class ChangeableHabitatPageState {
    var habitatTotalPage: u8
    var habitatCurrentPage: u8

    constructor(habitatTotalPage: u8)
      ensures this.habitatTotalPage == habitatTotalPage && habitatCurrentPage == 0
    {
      this.habitatTotalPage := habitatTotalPage;
      habitatCurrentPage := 0;
    }

    method Reset()
      modifies this`habitatCurrentPage
      ensures habitatCurrentPage == 0
    {
      habitatCurrentPage := 0;
    }

    /** Requires that the `u8` increment cannot overflow. */
    method Next()
      requires habitatTotalPage == 0 || habitatCurrentPage < U8_LIMIT - 1
      modifies this`habitatCurrentPage
      ensures habitatCurrentPage == HabitatNext(old(habitatCurrentPage), habitatTotalPage)
    {
      if habitatTotalPage == 0 {
        return;
      }
      if habitatCurrentPage == habitatTotalPage - 1 {
        habitatCurrentPage := 0;
      } else {
        habitatCurrentPage := habitatCurrentPage + 1;
      }
    }

    method Prev()
      modifies this`habitatCurrentPage
      ensures habitatCurrentPage == HabitatPrev(old(habitatCurrentPage), habitatTotalPage)
    {
      if habitatTotalPage == 0 {
        return;
      }
      if habitatCurrentPage == 0 {
        habitatCurrentPage := habitatTotalPage - 1;
      } else {
        habitatCurrentPage := habitatCurrentPage - 1;
      }
    }
  }

  // ===========================================================================
  // Filtering the bundle by name

  /** Whether a record's name, lower-cased, contains the lower-cased query. */
  predicate NameMatches(e: Monster.MonsterEntity, query: string) {
    Contains(Lower(e.name.name), Lower(query))
  }

  /** The records of `bundle` whose name matches `query`, in bundle order. */
  function Filter(bundle: seq<Monster.MonsterEntity>, query: string): (r: seq<Monster.MonsterEntity>)
    ensures |r| <= |bundle|
    ensures forall e :: e in r ==> e in bundle && NameMatches(e, query)
  {
    if bundle == [] then []
    else (if NameMatches(bundle[0], query) then [bundle[0]] else []) + Filter(bundle[1..], query)
  }

  /** Filtering keeps relative order: the filter of a concatenation is the
      concatenation of the filters. */
  lemma {:induction false} FilterAppend(a: seq<Monster.MonsterEntity>, b: seq<Monster.MonsterEntity>, query: string)
    ensures Filter(a + b, query) == Filter(a, query) + Filter(b, query)
    decreases |a|
  {
    if a == [] {
      assert a + b == b;
    } else {
      assert (a + b)[0] == a[0];
      assert (a + b)[1..] == a[1..] + b;
      FilterAppend(a[1..], b, query);
    }
  }

  /** No matching record is dropped. */
  lemma {:induction false} FilterComplete(bundle: seq<Monster.MonsterEntity>, query: string, e: Monster.MonsterEntity)
    requires e in bundle && NameMatches(e, query)
    ensures e in Filter(bundle, query)
    decreases |bundle|
  {
    if bundle[0] != e {
      FilterComplete(bundle[1..], query, e);
    }
  }

  /** The empty query matches every record, so it filters nothing out. */
  lemma {:induction false} FilterEmptyQuery(bundle: seq<Monster.MonsterEntity>)
    ensures Filter(bundle, "") == bundle
    decreases |bundle|
  {
    if bundle != [] {
      assert Lower("") == "";
      ContainsEmpty(Lower(bundle[0].name.name));
      FilterEmptyQuery(bundle[1..]);
    }
  }

  /** One pass over `bundle`, keeping the records whose name matches `query`. */
  method FilterByName(bundle: seq<Monster.MonsterEntity>, query: string) returns (r: seq<Monster.MonsterEntity>)
    ensures r == Filter(bundle, query)
  {
    r := [];
    var k := 0;
    while k < |bundle|
      invariant k <= |bundle|
      invariant r == Filter(bundle[..k], query)
    {
      assert bundle[..k + 1] == bundle[..k] + [bundle[k]];
      FilterAppend(bundle[..k], [bundle[k]], query);
      if NameMatches(bundle[k], query) {
        r := r + [bundle[k]];
      }
      k := k + 1;
    }
    assert bundle[..k] == bundle;
  }

  // ===========================================================================
  // The monster list

  /** The record at the selected index of `items` (index 0 when nothing is
      selected), or the default record when that index is past the end. */
  function SelectedRecord(items: seq<Monster.MonsterEntity>, selected: Option<nat>): (r: Monster.MonsterEntity)
    ensures r in items || r == Monster.DefaultMonsterEntity()
    ensures selected.Some? && selected.value < |items| ==> r == items[selected.value]
    ensures selected.None? && items != [] ==> r == items[0]
    ensures items == [] ==> r == Monster.DefaultMonsterEntity()
  {
    var idx := selected.UnwrapOr(0);
    if idx < |items| then items[idx] else Monster.DefaultMonsterEntity()
  }

  /** `next` on a non-empty monster list: `None` and any index at or past the
      last go to 0, any other index one further. */
  function ListNext(selected: Option<nat>, len: nat): (r: nat)
    requires len > 0
    ensures r < len
    ensures selected.None? ==> r == 0
    ensures selected.Some? && selected.value < len ==> r == Step(selected.value, len)
    ensures selected.Some? && selected.value >= len - 1 ==> r == 0
  {
    match selected
    case None => 0
    case Some(i) => if i >= len - 1 then 0 else i + 1
  }

  /** `prev` on a non-empty monster list: `None` goes to 0 (not to the last
      index), index 0 to the last, any other index one back. */
  function ListPrev(selected: Option<nat>, len: nat): (r: nat)
    requires len > 0
    ensures selected.None? ==> r == 0
    ensures selected.Some? && selected.value < len ==> r == StepBack(selected.value, len)
    ensures selected.Some? && selected.value >= len ==> r + 1 == selected.value
  {
    match selected
    case None => 0
    case Some(i) => if i == 0 then len - 1 else i - 1
  }

  /** The selection after `k` presses of `next` on a non-empty list. */
  function ListNextTimes(i: nat, len: nat, k: nat): nat
    requires len > 0
    decreases k
  {
    if k == 0 then i else ListNextTimes(ListNext(Some(i), len), len, k - 1)
  }

  /** From an in-range index, `len` presses of `next` return to it, and `prev`
      undoes `next`. */
  lemma {:induction false} ListNextTimesIsSteps(i: nat, len: nat, k: nat)
    requires i < len
    ensures ListNextTimes(i, len, k) == Steps(i, len, k)
    decreases k
  {
    if k > 0 {
      ListNextTimesIsSteps(Step(i, len), len, k - 1);
    }
  }

  lemma ListFullCycle(i: nat, len: nat)
    requires i < len
    ensures ListNextTimes(i, len, len) == i
    ensures ListPrev(Some(ListNext(Some(i), len)), len) == i
  {
    ListNextTimesIsSteps(i, len, len);
    FullCycle(i, len);
  }

  /** What the monster list shows: the query, the filtered buffer, the
      selection and the current record. */
  datatype ListView = ListView(
    filterQuery: string, filteredList: seq<Monster.MonsterEntity>,
    listSelected: Option<nat>, currentData: Monster.MonsterEntity)

  /** The positions of every panel cursor and tab of the monster screen. */
  datatype PanelCursors = PanelCursors(
    descPosition: nat, habitatPage: u8, questSelected: Option<nat>,
    weaknessSelected: Option<nat>, weaponElmTab: MonsterWeaknessTab,
    statusItemTab: MonsterStatusAndItemWeaknessTab,
    dropsSelected: Option<nat>, rankTab: MonsterDropRankTab, sourceTab: MaterialSourceTab)

  /** Where `reset` puts the panels: scrolled to the top, first habitat page,
      row 0 of every list and table, the first tab of every tab bar. */
  const ResetCursors: PanelCursors :=
    PanelCursors(0, 0, Some(0), Some(0), WeaponDamage, Status, Some(0), LowRank, Target)

  class MonsterListState {
    var listSelected: Option<nat>
    const descScrollbarState: ScrollableParagraphState
    const habitatPageState: ChangeableHabitatPageState
    const monsterOnQuestListState: MonsterOnQuestListState
    const monsterWeaknessTabState: MonsterWeaknessTabState
    const monsterDropsTabState: MonsterDropTabState
    var filterQuery: string
    var filteredList: seq<Monster.MonsterEntity>
    const bundle: seq<Monster.MonsterEntity>
    var currentData: Monster.MonsterEntity

    ghost function Repr(): set<object> {
      {this, descScrollbarState, habitatPageState, monsterOnQuestListState,
       monsterWeaknessTabState, monsterDropsTabState}
    }

    /** While a query is active, the filtered buffer is the filter of the bundle. */
    predicate FilterConsistent()
      reads this`filterQuery, this`filteredList
    {
      filterQuery != [] ==> filteredList == Filter(bundle, filterQuery)
    }

    /** `list_items`: the bundle when there is no query, the filtered buffer
        otherwise; either way, the filter of the bundle by the query. */
    function ListItems(): (items: seq<Monster.MonsterEntity>)
      reads this`filterQuery, this`filteredList
      ensures FilterConsistent() ==> items == Filter(bundle, filterQuery)
    {
      FilterEmptyQuery(bundle);
      if filterQuery == [] then bundle else filteredList
    }

    /** Every cached length (quest count, habitat pages, damage rows, the eight
        drop-table row counts) is that of record `e`, cast as the source casts it. */
    predicate CachesMatch(e: Monster.MonsterEntity)
      reads monsterOnQuestListState`listLen, habitatPageState`habitatTotalPage,
        monsterWeaknessTabState`damageDataLen,
        monsterDropsTabState`lowTargetLen, monsterDropsTabState`lowBrokenPartLen,
        monsterDropsTabState`lowWoundDestroyLen, monsterDropsTabState`lowCarveLen,
        monsterDropsTabState`highTargetLen, monsterDropsTabState`highBrokenPartLen,
        monsterDropsTabState`highWoundDestroyLen, monsterDropsTabState`highCarveLen
    {
      && monsterOnQuestListState.listLen == AsU16(|e.questList|)
      && habitatPageState.habitatTotalPage == AsU8(|e.habitats|)
      && monsterWeaknessTabState.damageDataLen == AsU16(|e.weaknesses.dmgData|)
      && monsterDropsTabState.LensMatch(e.drops)
    }

    /** The invariant every operation keeps: a non-empty bundle, a selection,
        a consistent filter, the current record being the selected one and the
        caches agreeing with it. */
    ghost predicate Valid()
      reads this`listSelected, this`filterQuery, this`filteredList, this`currentData,
        monsterOnQuestListState`listLen, habitatPageState`habitatTotalPage,
        monsterWeaknessTabState`damageDataLen,
        monsterDropsTabState`lowTargetLen, monsterDropsTabState`lowBrokenPartLen,
        monsterDropsTabState`lowWoundDestroyLen, monsterDropsTabState`lowCarveLen,
        monsterDropsTabState`highTargetLen, monsterDropsTabState`highBrokenPartLen,
        monsterDropsTabState`highWoundDestroyLen, monsterDropsTabState`highCarveLen
    {
      && bundle != []
      && listSelected.Some?
      && FilterConsistent()
      && currentData == SelectedRecord(ListItems(), listSelected)
      && CachesMatch(currentData)
    }

    /** The list part of the state, as one value. */
    function Listing(): ListView
      reads this`filterQuery, this`filteredList, this`listSelected, this`currentData
    {
      ListView(filterQuery, filteredList, listSelected, currentData)
    }

    /** The positions of every panel cursor and tab. */
    function Cursors(): PanelCursors
      reads descScrollbarState`position, habitatPageState`habitatCurrentPage,
        monsterOnQuestListState`selected,
        monsterWeaknessTabState`tableSelected, monsterWeaknessTabState`selectedStatusItemTab,
        monsterWeaknessTabState`selectedWeaponElmTab,
        monsterDropsTabState`tableSelected, monsterDropsTabState`selectedRankTab,
        monsterDropsTabState`selectedSourceTab
    {
      PanelCursors(descScrollbarState.position, habitatPageState.habitatCurrentPage,
        monsterOnQuestListState.selected, monsterWeaknessTabState.tableSelected,
        monsterWeaknessTabState.selectedWeaponElmTab, monsterWeaknessTabState.selectedStatusItemTab,
        monsterDropsTabState.tableSelected, monsterDropsTabState.selectedRankTab,
        monsterDropsTabState.selectedSourceTab)
    }

    /** `MonsterListState::new` for a non-empty bundle: the first record is
        selected and current, the caches hold its lengths, every panel is at
        its default and nothing is filtered. */
    constructor Init(bundle: seq<Monster.MonsterEntity>)
      requires bundle != []
      ensures fresh(Repr())
      ensures Valid()
      ensures this.bundle == bundle && listSelected == Some(0) && currentData == bundle[0]
      ensures filterQuery == [] && filteredList == []
      ensures descScrollbarState.position == 0 && descScrollbarState.height == 0
      ensures habitatPageState.habitatCurrentPage == 0
      ensures monsterOnQuestListState.selected == None
      ensures monsterWeaknessTabState.tableSelected == None
      ensures monsterWeaknessTabState.selectedWeaponElmTab == WeaponDamage
      ensures monsterWeaknessTabState.selectedStatusItemTab == Status
      ensures monsterDropsTabState.tableSelected == None
      ensures monsterDropsTabState.selectedRankTab == LowRank && monsterDropsTabState.selectedSourceTab == Target
    {
      var current := bundle[0];
      this.bundle := bundle;
      currentData := current;
      filterQuery := [];
      filteredList := [];
      listSelected := Some(0);
      descScrollbarState := new ScrollableParagraphState();
      habitatPageState := new ChangeableHabitatPageState(AsU8(|current.habitats|));
      monsterOnQuestListState := new MonsterOnQuestListState(AsU16(|current.questList|));
      monsterWeaknessTabState := new MonsterWeaknessTabState(AsU16(|current.weaknesses.dmgData|));
      monsterDropsTabState := new MonsterDropTabState(current.drops);
    }

    /** `MonsterListState::new`: no state for an empty bundle. */
    static method New(bundle: seq<Monster.MonsterEntity>) returns (r: Option<MonsterListState>)
      ensures r.None? <==> bundle == []
      ensures r.Some? ==> fresh(r.value.Repr()) && r.value.Valid()
      ensures r.Some? ==> r.value.bundle == bundle && r.value.listSelected == Some(0) && r.value.currentData == bundle[0]
      ensures r.Some? ==> r.value.filterQuery == [] && r.value.ListItems() == bundle
    {
      if bundle == [] {
        return None;
      }
      var state := new MonsterListState.Init(bundle);
      return Some(state);
    }

    /** Points `current_data` at the selected record of the visible list (or a
        default record past its end) and refreshes every cached length from it. */
    method UpdateSelectedMonsterData()
      modifies this`currentData, monsterOnQuestListState`listLen, habitatPageState`habitatTotalPage,
        monsterWeaknessTabState`damageDataLen,
        monsterDropsTabState`lowTargetLen, monsterDropsTabState`lowBrokenPartLen,
        monsterDropsTabState`lowWoundDestroyLen, monsterDropsTabState`lowCarveLen,
        monsterDropsTabState`highTargetLen, monsterDropsTabState`highBrokenPartLen,
        monsterDropsTabState`highWoundDestroyLen, monsterDropsTabState`highCarveLen
      ensures currentData == SelectedRecord(ListItems(), listSelected)
      ensures CachesMatch(currentData)
      ensures Cursors() == old(Cursors())
    {
      var idx := listSelected.UnwrapOr(0);
      var items := ListItems();
      if idx < |items| {
        currentData := items[idx];
      } else {
        currentData := Monster.DefaultMonsterEntity();
      }
      RefreshCaches(currentData);
    }

    /** The second half of `update_selected_monster_data`: every cached length
        is taken from record `e`. */
    method RefreshCaches(e: Monster.MonsterEntity)
      modifies monsterOnQuestListState`listLen, habitatPageState`habitatTotalPage,
        monsterWeaknessTabState`damageDataLen,
        monsterDropsTabState`lowTargetLen, monsterDropsTabState`lowBrokenPartLen,
        monsterDropsTabState`lowWoundDestroyLen, monsterDropsTabState`lowCarveLen,
        monsterDropsTabState`highTargetLen, monsterDropsTabState`highBrokenPartLen,
        monsterDropsTabState`highWoundDestroyLen, monsterDropsTabState`highCarveLen
      ensures CachesMatch(e)
      ensures Cursors() == old(Cursors())
    {
      monsterOnQuestListState.listLen := AsU16(|e.questList|);
      habitatPageState.habitatTotalPage := AsU8(|e.habitats|);
      monsterWeaknessTabState.damageDataLen := AsU16(|e.weaknesses.dmgData|);
      monsterDropsTabState.SetLens(e.drops);
    }

    /** Selects index `idx` of the visible list and refreshes the current record. */
    method Select(idx: nat)
      modifies this`listSelected, this`currentData, monsterOnQuestListState`listLen,
        habitatPageState`habitatTotalPage, monsterWeaknessTabState`damageDataLen,
        monsterDropsTabState`lowTargetLen, monsterDropsTabState`lowBrokenPartLen,
        monsterDropsTabState`lowWoundDestroyLen, monsterDropsTabState`lowCarveLen,
        monsterDropsTabState`highTargetLen, monsterDropsTabState`highBrokenPartLen,
        monsterDropsTabState`highWoundDestroyLen, monsterDropsTabState`highCarveLen
      ensures listSelected == Some(idx)
      ensures currentData == SelectedRecord(ListItems(), listSelected)
      ensures CachesMatch(currentData)
      ensures bundle != [] && FilterConsistent() ==> Valid()
      ensures Cursors() == old(Cursors())
    {
      listSelected := Some(idx);
      UpdateSelectedMonsterData();
    }

    /** Moves the selection forward with wrap-around; a no-op on an empty list. */
    method Next()
      modifies this`listSelected, this`currentData, monsterOnQuestListState`listLen,
        habitatPageState`habitatTotalPage, monsterWeaknessTabState`damageDataLen,
        monsterDropsTabState`lowTargetLen, monsterDropsTabState`lowBrokenPartLen,
        monsterDropsTabState`lowWoundDestroyLen, monsterDropsTabState`lowCarveLen,
        monsterDropsTabState`highTargetLen, monsterDropsTabState`highBrokenPartLen,
        monsterDropsTabState`highWoundDestroyLen, monsterDropsTabState`highCarveLen
      ensures ListItems() == [] ==> unchanged(Repr())
      ensures ListItems() != [] ==> listSelected == Some(ListNext(old(listSelected), |ListItems()|))
      ensures ListItems() != [] ==> currentData == ListItems()[listSelected.value]
      ensures ListItems() != [] ==> CachesMatch(currentData)
      ensures old(Valid()) ==> Valid()
      ensures Cursors() == old(Cursors())
    {
      if ListItems() == [] {
        return;
      }
      var idx: nat;
      if listSelected.Some? {
        if listSelected.value >= |ListItems()| - 1 {
          idx := 0;
        } else {
          idx := listSelected.value + 1;
        }
      } else {
        idx := 0;
      }
      Select(idx);
    }

    /** Moves the selection back with wrap-around; a no-op on an empty list. */
    method Prev()
      modifies this`listSelected, this`currentData, monsterOnQuestListState`listLen,
        habitatPageState`habitatTotalPage, monsterWeaknessTabState`damageDataLen,
        monsterDropsTabState`lowTargetLen, monsterDropsTabState`lowBrokenPartLen,
        monsterDropsTabState`lowWoundDestroyLen, monsterDropsTabState`lowCarveLen,
        monsterDropsTabState`highTargetLen, monsterDropsTabState`highBrokenPartLen,
        monsterDropsTabState`highWoundDestroyLen, monsterDropsTabState`highCarveLen
      ensures ListItems() == [] ==> unchanged(Repr())
      ensures ListItems() != [] ==> listSelected == Some(ListPrev(old(listSelected), |ListItems()|))
      ensures ListItems() != [] ==> currentData == SelectedRecord(ListItems(), listSelected)
      ensures ListItems() != [] ==> CachesMatch(currentData)
      ensures old(Valid()) ==> Valid()
      ensures Cursors() == old(Cursors())
    {
      if ListItems() == [] {
        return;
      }
      var idx: nat;
      if listSelected.Some? {
        if listSelected.value == 0 {
          idx := |ListItems()| - 1;
        } else {
          idx := listSelected.value - 1;
        }
      } else {
        idx := 0;
      }
      Select(idx);
    }

    /** Sets the query; a non-empty query rebuilds the filtered buffer from the
        bundle, an empty one leaves the buffer as it is (it is not shown). Then
        selects index 0. */
    method SetListFilter(filter: string)
      modifies this`filterQuery, this`filteredList, this`listSelected, this`currentData,
        monsterOnQuestListState`listLen, habitatPageState`habitatTotalPage,
        monsterWeaknessTabState`damageDataLen,
        monsterDropsTabState`lowTargetLen, monsterDropsTabState`lowBrokenPartLen,
        monsterDropsTabState`lowWoundDestroyLen, monsterDropsTabState`lowCarveLen,
        monsterDropsTabState`highTargetLen, monsterDropsTabState`highBrokenPartLen,
        monsterDropsTabState`highWoundDestroyLen, monsterDropsTabState`highCarveLen
      ensures filterQuery == filter
      ensures filter != [] ==> filteredList == Filter(bundle, filter)
      ensures filter == [] ==> filteredList == old(filteredList)
      ensures ListItems() == Filter(bundle, filter)
      ensures listSelected == Some(0)
      ensures currentData == SelectedRecord(ListItems(), listSelected)
      ensures CachesMatch(currentData)
      ensures bundle != [] ==> Valid()
      ensures Cursors() == old(Cursors())
    {
      filterQuery := filter;
      if filter != [] {
        filteredList := FilterByName(bundle, filter);
      }
      Select(0);
    }

    /** Puts every panel cursor and tab back to its initial position; the list
        selection is left alone. */
    method Reset()
      modifies descScrollbarState`position, habitatPageState`habitatCurrentPage,
        monsterOnQuestListState`selected,
        monsterWeaknessTabState`tableSelected, monsterWeaknessTabState`selectedStatusItemTab,
        monsterWeaknessTabState`selectedWeaponElmTab,
        monsterDropsTabState`tableSelected, monsterDropsTabState`selectedRankTab,
        monsterDropsTabState`selectedSourceTab
      ensures Cursors() == ResetCursors
      ensures listSelected == old(listSelected) && currentData == old(currentData)
      ensures old(Valid()) ==> Valid()
    {
      descScrollbarState.Reset();
      habitatPageState.Reset();
      monsterOnQuestListState.Reset();
      monsterWeaknessTabState.Reset();
      monsterDropsTabState.Reset();
    }
  }
}
