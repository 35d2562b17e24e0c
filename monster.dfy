/** The monster records of the bundled dataset (`MonsterEntity` and its parts),
    the severity and category enums stored in them, their string parsers (each
    maps an unknown string to a fallback variant instead of failing) and their
    display names. */
module Monster {
  import opened Ints
  import opened Text

  // ---------------------------------------------------------------------------
  // Roar, wind pressure and tremor severities

  datatype Roarskind = Weak | Strong | None {
    /** The display name: non-empty and capitalised. */
    function ToString(): (s: string)
      ensures s != [] && IsUpperAscii(s[0])
    {
      match this
      case Strong => "Strong"
      case Weak => "Weak"
      case None => "None"
    }
  }

  const DefaultRoarskind: Roarskind := Roarskind.None

  /** Parses a roar severity; every unknown string becomes `None`. */
  function ParseRoarskind(v: string): (r: Roarskind)
    ensures r == Roarskind.Weak <==> v == "weak"
    ensures r == Roarskind.Strong <==> v == "strong"
    ensures r == Roarskind.None <==> v != "weak" && v != "strong"
  {
    match v
    case "weak" => Roarskind.Weak
    case "strong" => Roarskind.Strong
    case _ => Roarskind.None
  }

  /** The lower-cased display name of a roar severity parses back to it. */
  lemma RoarskindRoundTrip(r: Roarskind)
    ensures ParseRoarskind(Lower(r.ToString())) == r
  {
    match r
    case Weak => assert Lower("Weak") == "weak";
    case Strong => assert Lower("Strong") == "strong";
    case None => assert Lower("None") == "none";
  }

  datatype WindPressureKind = Strong | Weak | Minor | None {
    /** The display name: non-empty and capitalised. */
    function ToString(): (s: string)
      ensures s != [] && IsUpperAscii(s[0])
    {
      match this
      case Strong => "Strong"
      case Weak => "Weak"
      case Minor => "Minor"
      case None => "None"
    }
  }

  const DefaultWindPressureKind: WindPressureKind := WindPressureKind.None

  /** Parses a wind-pressure severity; every unknown string becomes `None`. */
  function ParseWindPressureKind(v: string): (r: WindPressureKind)
    ensures r == WindPressureKind.Strong <==> v == "strong"
    ensures r == WindPressureKind.Weak <==> v == "weak"
    ensures r == WindPressureKind.Minor <==> v == "minor"
  {
    match v
    case "strong" => WindPressureKind.Strong
    case "weak" => WindPressureKind.Weak
    case "minor" => WindPressureKind.Minor
    case _ => WindPressureKind.None
  }

  lemma WindPressureKindRoundTrip(w: WindPressureKind)
    ensures ParseWindPressureKind(Lower(w.ToString())) == w
  {
    match w
    case Strong => assert Lower("Strong") == "strong";
    case Weak => assert Lower("Weak") == "weak";
    case Minor => assert Lower("Minor") == "minor";
    case None => assert Lower("None") == "none";
  }

  datatype TremorKind = Strong | Weak | Minor | None {
    /** The display name: non-empty and capitalised. */
    function ToString(): (s: string)
      ensures s != [] && IsUpperAscii(s[0])
    {
      match this
      case Strong => "Strong"
      case Weak => "Weak"
      case Minor => "Minor"
      case None => "None"
    }
  }

  const DefaultTremorKind: TremorKind := TremorKind.None

  /** Parses a tremor severity; every unknown string becomes `None`. */
  function ParseTremorKind(v: string): (r: TremorKind)
    ensures r == TremorKind.Strong <==> v == "strong"
    ensures r == TremorKind.Weak <==> v == "weak"
    ensures r == TremorKind.Minor <==> v == "minor"
  {
    match v
    case "strong" => TremorKind.Strong
    case "weak" => TremorKind.Weak
    case "minor" => TremorKind.Minor
    case _ => TremorKind.None
  }

  lemma TremorKindRoundTrip(t: TremorKind)
    ensures ParseTremorKind(Lower(t.ToString())) == t
  {
    match t
    case Strong => assert Lower("Strong") == "strong";
    case Weak => assert Lower("Weak") == "weak";
    case Minor => assert Lower("Minor") == "minor";
    case None => assert Lower("None") == "none";
  }

  // ---------------------------------------------------------------------------
  // Quests

  datatype QuestType = Assignments | Optional | Event | Arena {
    /** The display name: non-empty and capitalised. */
    function ToString(): (s: string)
      ensures s != [] && IsUpperAscii(s[0])
    {
      match this
      case Assignments => "Assignments"
      case Optional => "Optional"
      case Event => "Event"
      case Arena => "Arena"
    }
  }

  /** The derived default quest type; it is not the parser's fallback. */
  const DefaultQuestType: QuestType := QuestType.Assignments

  /** Parses a quest category; every unknown string becomes `Optional`,
      which differs from the default variant `Assignments`. */
  function ParseQuestType(v: string): (r: QuestType)
    ensures r == QuestType.Assignments <==> v == "assignments"
    ensures r == QuestType.Event <==> v == "event"
    ensures r == QuestType.Arena <==> v == "arena"
    ensures v !in {"assignments", "optional", "event", "arena"} ==> r == QuestType.Optional != DefaultQuestType
  {
    match v
    case "assignments" => QuestType.Assignments
    case "optional" => QuestType.Optional
    case "event" => QuestType.Event
    case "arena" => QuestType.Arena
    case _ => QuestType.Optional
  }

  lemma QuestTypeRoundTrip(q: QuestType)
    ensures ParseQuestType(Lower(q.ToString())) == q
  {
    match q
    case Assignments => assert Lower("Assignments") == "assignments";
    case Optional => assert Lower("Optional") == "optional";
    case Event => assert Lower("Event") == "event";
    case Arena => assert Lower("Arena") == "arena";
  }

  datatype MonsterQuestData = MonsterQuestData(questType: QuestType, level: u8, name: string)

  // ---------------------------------------------------------------------------
  // Status ailments and item weaknesses

  datatype StatusAilments = Poison | Stun | Paralysis | Sleep | Blast | Exhaust {
    /** The display name: non-empty and capitalised. */
    function ToString(): (s: string)
      ensures s != [] && IsUpperAscii(s[0])
    {
      match this
      case Poison => "Poison"
      case Stun => "Stun"
      case Paralysis => "Paralysis"
      case Sleep => "Sleep"
      case Blast => "Blast"
      case Exhaust => "Exhaust"
    }
  }

  const DefaultStatusAilments: StatusAilments := StatusAilments.Stun

  /** Parses a status ailment; every unknown string becomes `Stun`. */
  function ParseStatusAilments(v: string): (r: StatusAilments)
    ensures r == StatusAilments.Poison <==> v == "poison"
    ensures r == StatusAilments.Paralysis <==> v == "paralysis"
    ensures r == StatusAilments.Sleep <==> v == "sleep"
    ensures r == StatusAilments.Blast <==> v == "blast"
    ensures r == StatusAilments.Exhaust <==> v == "exhaust"
    ensures v !in {"poison", "stun", "paralysis", "sleep", "blast", "exhaust"} ==> r == StatusAilments.Stun
  {
    match v
    case "poison" => StatusAilments.Poison
    case "stun" => StatusAilments.Stun
    case "paralysis" => StatusAilments.Paralysis
    case "sleep" => StatusAilments.Sleep
    case "blast" => StatusAilments.Blast
    case "exhaust" => StatusAilments.Exhaust
    case _ => StatusAilments.Stun
  }

  lemma StatusAilmentsRoundTrip(a: StatusAilments)
    ensures ParseStatusAilments(Lower(a.ToString())) == a
  {
    match a
    case Poison => assert Lower("Poison") == "poison";
    case Stun => assert Lower("Stun") == "stun";
    case Paralysis => assert Lower("Paralysis") == "paralysis";
    case Sleep => assert Lower("Sleep") == "sleep";
    case Blast => assert Lower("Blast") == "blast";
    case Exhaust => assert Lower("Exhaust") == "exhaust";
  }

  datatype ItemWeakness = Pitfall | Shock | Meats | Flashpod | Sonicpod | Dungpod {
    /** The display name: non-empty and capitalised. */
    function ToString(): (s: string)
      ensures s != [] && IsUpperAscii(s[0])
    {
      match this
      case Pitfall => "Pitfall"
      case Shock => "Shock"
      case Meats => "Meats"
      case Flashpod => "Flashpod"
      case Sonicpod => "Sonicpod"
      case Dungpod => "Dungpod"
    }
  }

  const DefaultItemWeakness: ItemWeakness := ItemWeakness.Flashpod

  /** Parses an item weakness; every unknown string becomes `Flashpod`. */
  function ParseItemWeakness(v: string): (r: ItemWeakness)
    ensures r == ItemWeakness.Pitfall <==> v == "pitfall"
    ensures r == ItemWeakness.Shock <==> v == "shock"
    ensures r == ItemWeakness.Meats <==> v == "meats"
    ensures r == ItemWeakness.Sonicpod <==> v == "sonicpod"
    ensures r == ItemWeakness.Dungpod <==> v == "dungpod"
    ensures v !in {"pitfall", "shock", "meats", "flashpod", "sonicpod", "dungpod"} ==> r == ItemWeakness.Flashpod
  {
    match v
    case "pitfall" => ItemWeakness.Pitfall
    case "shock" => ItemWeakness.Shock
    case "meats" => ItemWeakness.Meats
    case "flashpod" => ItemWeakness.Flashpod
    case "sonicpod" => ItemWeakness.Sonicpod
    case "dungpod" => ItemWeakness.Dungpod
    case _ => ItemWeakness.Flashpod
  }

  lemma ItemWeaknessRoundTrip(w: ItemWeakness)
    ensures ParseItemWeakness(Lower(w.ToString())) == w
  {
    match w
    case Pitfall => assert Lower("Pitfall") == "pitfall";
    case Shock => assert Lower("Shock") == "shock";
    case Meats => assert Lower("Meats") == "meats";
    case Flashpod => assert Lower("Flashpod") == "flashpod";
    case Sonicpod => assert Lower("Sonicpod") == "sonicpod";
    case Dungpod => assert Lower("Dungpod") == "dungpod";
  }

  datatype MonsterStatusAilment = MonsterStatusAilment(ailment: StatusAilments, eff: u8)

  datatype MonsterStatusItem = MonsterStatusItem(item: ItemWeakness, isEffective: bool)

  const DefaultStatusAilment := MonsterStatusAilment(DefaultStatusAilments, 0)
  const DefaultStatusItem := MonsterStatusItem(DefaultItemWeakness, false)

  /** The fixed-size arrays `[MonsterStatusAilment; 6]` and `[MonsterStatusItem; 6]`. */
  type SixAilments = s: seq<MonsterStatusAilment> | |s| == 6
    witness [DefaultStatusAilment, DefaultStatusAilment, DefaultStatusAilment,
             DefaultStatusAilment, DefaultStatusAilment, DefaultStatusAilment]
  type SixItems = s: seq<MonsterStatusItem> | |s| == 6
    witness [DefaultStatusItem, DefaultStatusItem, DefaultStatusItem,
             DefaultStatusItem, DefaultStatusItem, DefaultStatusItem]

  datatype StatusAilmentItem = StatusAilmentItem(status: SixAilments, items: SixItems)

  /** The default status/item table: six default entries on each side. */
  function DefaultStatusAilmentItem(): (t: StatusAilmentItem)
    ensures |t.status| == 6 && |t.items| == 6
    ensures forall i :: 0 <= i < 6 ==> t.status[i] == MonsterStatusAilment(StatusAilments.Stun, 0)
    ensures forall i :: 0 <= i < 6 ==> t.items[i] == MonsterStatusItem(ItemWeakness.Flashpod, false)
  {
    StatusAilmentItem(
      [DefaultStatusAilment, DefaultStatusAilment, DefaultStatusAilment,
       DefaultStatusAilment, DefaultStatusAilment, DefaultStatusAilment],
      [DefaultStatusItem, DefaultStatusItem, DefaultStatusItem,
       DefaultStatusItem, DefaultStatusItem, DefaultStatusItem])
  }

  // ---------------------------------------------------------------------------
  // Status effects a monster inflicts, and elements

  datatype MonsterStatusEffects =
    | Fireblight | Blastblight | Waterblight | Thunderblight | Iceblight | Frostblight
    | Dragonblight | Frenzy | Sleep | Poison | Paralysis | Stench | DefenseDown
    | Bleeding | Flash | MinorBubbleBlight | MajorBubbleBlight | Webbed | NotRegister | None
  {
    /** The display name: non-empty and capitalised. */
    function ToString(): (s: string)
      ensures s != [] && IsUpperAscii(s[0])
    {
      match this
      case Fireblight => "Fireblight"
      case Blastblight => "Blastblight"
      case Waterblight => "Waterblight"
      case Thunderblight => "Thunderblight"
      case Iceblight => "Iceblight"
      case Frostblight => "Frostblight"
      case Dragonblight => "Dragonblight"
      case Frenzy => "Frenzy"
      case Paralysis => "Paralysis"
      case Sleep => "Sleep"
      case Poison => "Poison"
      case Stench => "Stench"
      case DefenseDown => "Defense Down"
      case Bleeding => "Bleeding"
      case Flash => "Flash"
      case MinorBubbleBlight => "Minor Bubble Blight"
      case MajorBubbleBlight => "Major Bubble Blight"
      case Webbed => "Webbed"
      case NotRegister => "Not Register"
      case None => "None"
    }
  }

  const DefaultMonsterStatusEffects: MonsterStatusEffects := MonsterStatusEffects.None

  /** The strings the status-effect parser recognises. */
  const StatusEffectKeys: set<string> := {
    "fireblight", "blastblight", "waterblight", "thunderblight", "iceblight",
    "frostblight", "dragonblight", "frenzy", "paralysis", "sleep", "poison",
    "stench", "defense down", "bleeding", "flash", "minor bubbleblight",
    "major bubbleblight", "webbed", "none"}

  /** Parses a status effect; "none" is `None`, every unlisted string `NotRegister`. */
  function ParseMonsterStatusEffects(v: string): (r: MonsterStatusEffects)
    ensures r == MonsterStatusEffects.None <==> v == "none"
    ensures r == MonsterStatusEffects.NotRegister <==> v !in StatusEffectKeys
    ensures r == MonsterStatusEffects.MinorBubbleBlight <==> v == "minor bubbleblight"
    ensures r == MonsterStatusEffects.MajorBubbleBlight <==> v == "major bubbleblight"
  {
    match v
    case "fireblight" => MonsterStatusEffects.Fireblight
    case "blastblight" => MonsterStatusEffects.Blastblight
    case "waterblight" => MonsterStatusEffects.Waterblight
    case "thunderblight" => MonsterStatusEffects.Thunderblight
    case "iceblight" => MonsterStatusEffects.Iceblight
    case "frostblight" => MonsterStatusEffects.Frostblight
    case "dragonblight" => MonsterStatusEffects.Dragonblight
    case "frenzy" => MonsterStatusEffects.Frenzy
    case "paralysis" => MonsterStatusEffects.Paralysis
    case "sleep" => MonsterStatusEffects.Sleep
    case "poison" => MonsterStatusEffects.Poison
    case "stench" => MonsterStatusEffects.Stench
    case "defense down" => MonsterStatusEffects.DefenseDown
    case "bleeding" => MonsterStatusEffects.Bleeding
    case "flash" => MonsterStatusEffects.Flash
    case "minor bubbleblight" => MonsterStatusEffects.MinorBubbleBlight
    case "major bubbleblight" => MonsterStatusEffects.MajorBubbleBlight
    case "webbed" => MonsterStatusEffects.Webbed
    case "none" => MonsterStatusEffects.None
    case _ => MonsterStatusEffects.NotRegister
  }

  predicate IsBubbleBlight(e: MonsterStatusEffects) {
    e.MinorBubbleBlight? || e.MajorBubbleBlight?
  }

  /** Round trip of "Fireblight" and "Blastblight". */
  lemma FireblightAndBlastblightRoundTrip()
    ensures ParseMonsterStatusEffects(Lower(MonsterStatusEffects.Fireblight.ToString())) == MonsterStatusEffects.Fireblight
    ensures ParseMonsterStatusEffects(Lower(MonsterStatusEffects.Blastblight.ToString())) == MonsterStatusEffects.Blastblight
  {
    assert Lower("Fireblight") == "fireblight";
    assert Lower("Blastblight") == "blastblight";
  }

  /** Round trip of "Waterblight" and "Thunderblight". */
  lemma WaterblightAndThunderblightRoundTrip()
    ensures ParseMonsterStatusEffects(Lower(MonsterStatusEffects.Waterblight.ToString())) == MonsterStatusEffects.Waterblight
    ensures ParseMonsterStatusEffects(Lower(MonsterStatusEffects.Thunderblight.ToString())) == MonsterStatusEffects.Thunderblight
  {
    assert Lower("Waterblight") == "waterblight";
    assert Lower("Thunderblight") == "thunderblight";
  }

  /** Round trip of "Iceblight" and "Frostblight". */
  lemma IceblightAndFrostblightRoundTrip()
    ensures ParseMonsterStatusEffects(Lower(MonsterStatusEffects.Iceblight.ToString())) == MonsterStatusEffects.Iceblight
    ensures ParseMonsterStatusEffects(Lower(MonsterStatusEffects.Frostblight.ToString())) == MonsterStatusEffects.Frostblight
  {
    assert Lower("Iceblight") == "iceblight";
    assert Lower("Frostblight") == "frostblight";
  }

  /** Round trip of "Dragonblight" and "Frenzy". */
  lemma DragonblightAndFrenzyRoundTrip()
    ensures ParseMonsterStatusEffects(Lower(MonsterStatusEffects.Dragonblight.ToString())) == MonsterStatusEffects.Dragonblight
    ensures ParseMonsterStatusEffects(Lower(MonsterStatusEffects.Frenzy.ToString())) == MonsterStatusEffects.Frenzy
  {
    assert Lower("Dragonblight") == "dragonblight";
    assert Lower("Frenzy") == "frenzy";
  }

  /** Round trip of "Sleep" and "Poison". */
  lemma SleepAndPoisonRoundTrip()
    ensures ParseMonsterStatusEffects(Lower(MonsterStatusEffects.Sleep.ToString())) == MonsterStatusEffects.Sleep
    ensures ParseMonsterStatusEffects(Lower(MonsterStatusEffects.Poison.ToString())) == MonsterStatusEffects.Poison
  {
    assert Lower("Sleep") == "sleep";
    assert Lower("Poison") == "poison";
  }

  /** Round trip of "Paralysis" and "Stench". */
  lemma ParalysisAndStenchRoundTrip()
    ensures ParseMonsterStatusEffects(Lower(MonsterStatusEffects.Paralysis.ToString())) == MonsterStatusEffects.Paralysis
    ensures ParseMonsterStatusEffects(Lower(MonsterStatusEffects.Stench.ToString())) == MonsterStatusEffects.Stench
  {
    assert Lower("Paralysis") == "paralysis";
    assert Lower("Stench") == "stench";
  }

  /** Round trip of "Bleeding" and "Flash". */
  lemma BleedingAndFlashRoundTrip()
    ensures ParseMonsterStatusEffects(Lower(MonsterStatusEffects.Bleeding.ToString())) == MonsterStatusEffects.Bleeding
    ensures ParseMonsterStatusEffects(Lower(MonsterStatusEffects.Flash.ToString())) == MonsterStatusEffects.Flash
  {
    assert Lower("Bleeding") == "bleeding";
    assert Lower("Flash") == "flash";
  }

  /** Round trip of "Webbed". */
  lemma WebbedRoundTrip()
    ensures ParseMonsterStatusEffects(Lower(MonsterStatusEffects.Webbed.ToString())) == MonsterStatusEffects.Webbed
  {
    assert Lower("Webbed") == "webbed";
  }

  /** Round trip of "None". */
  lemma NoneRoundTrip()
    ensures ParseMonsterStatusEffects(Lower(MonsterStatusEffects.None.ToString())) == MonsterStatusEffects.None
  {
    assert Lower("None") == "none";
  }

  /** Round trip of "Defense Down". */
  lemma DefenseDownRoundTrip()
    ensures ParseMonsterStatusEffects(Lower(MonsterStatusEffects.DefenseDown.ToString())) == MonsterStatusEffects.DefenseDown
  {
    assert Lower("Defense Down") == "defense down";
  }

  /** "not register" is no parser key, so it falls to the default, which is `NotRegister` itself. */
  lemma NotRegisterRoundTrip()
    ensures ParseMonsterStatusEffects(Lower(MonsterStatusEffects.NotRegister.ToString())) == MonsterStatusEffects.NotRegister
  {
    assert Lower("Not Register") == "not register";
  }

  /** The display name of MinorBubbleBlight lower-cases to "minor bubble blight", which is not a parser key. */
  lemma MinorBubbleBlightDoesNotRoundTrip()
    ensures ParseMonsterStatusEffects(Lower(MonsterStatusEffects.MinorBubbleBlight.ToString())) == MonsterStatusEffects.NotRegister
  {
    assert Lower("Minor Bubble Blight") == "minor bubble blight";
  }

  /** The display name of MajorBubbleBlight lower-cases to "major bubble blight", which is not a parser key. */
  lemma MajorBubbleBlightDoesNotRoundTrip()
    ensures ParseMonsterStatusEffects(Lower(MonsterStatusEffects.MajorBubbleBlight.ToString())) == MonsterStatusEffects.NotRegister
  {
    assert Lower("Major Bubble Blight") == "major bubble blight";
  }

  /** The lower-cased display name parses back to the same effect for every
      variant except the two bubble blights, whose display names have a space
      ("minor bubble blight") that the parser's keys ("minor bubbleblight")
      lack: those come back as `NotRegister`. */
  lemma MonsterStatusEffectsRoundTrip(e: MonsterStatusEffects)
    ensures !IsBubbleBlight(e) ==> ParseMonsterStatusEffects(Lower(e.ToString())) == e
    ensures IsBubbleBlight(e) ==> ParseMonsterStatusEffects(Lower(e.ToString())) == MonsterStatusEffects.NotRegister
  {
    match e
    case Fireblight => FireblightAndBlastblightRoundTrip();
    case Blastblight => FireblightAndBlastblightRoundTrip();
    case Waterblight => WaterblightAndThunderblightRoundTrip();
    case Thunderblight => WaterblightAndThunderblightRoundTrip();
    case Iceblight => IceblightAndFrostblightRoundTrip();
    case Frostblight => IceblightAndFrostblightRoundTrip();
    case Dragonblight => DragonblightAndFrenzyRoundTrip();
    case Frenzy => DragonblightAndFrenzyRoundTrip();
    case Sleep => SleepAndPoisonRoundTrip();
    case Poison => SleepAndPoisonRoundTrip();
    case Paralysis => ParalysisAndStenchRoundTrip();
    case Stench => ParalysisAndStenchRoundTrip();
    case Bleeding => BleedingAndFlashRoundTrip();
    case Flash => BleedingAndFlashRoundTrip();
    case Webbed => WebbedRoundTrip();
    case None => NoneRoundTrip();
    case DefenseDown => DefenseDownRoundTrip();
    case NotRegister => NotRegisterRoundTrip();
    case MinorBubbleBlight => MinorBubbleBlightDoesNotRoundTrip();
    case MajorBubbleBlight => MajorBubbleBlightDoesNotRoundTrip();
  }

  datatype MonsterElements = Fire | Water | Thunder | Ice | Dragon | Poison | None {
    /** The display name: non-empty and capitalised. */
    function ToString(): (s: string)
      ensures s != [] && IsUpperAscii(s[0])
    {
      match this
      case Fire => "Fire"
      case Water => "Water"
      case Thunder => "Thunder"
      case Ice => "Ice"
      case Dragon => "Dragon"
      case Poison => "Poison"
      case None => "None"
    }
  }

  const DefaultMonsterElements: MonsterElements := MonsterElements.None

  /** Parses an element; "none" and every unknown string become `None`. */
  function ParseMonsterElements(v: string): (r: MonsterElements)
    ensures r == MonsterElements.Fire <==> v == "fire"
    ensures r == MonsterElements.Water <==> v == "water"
    ensures r == MonsterElements.Thunder <==> v == "thunder"
    ensures r == MonsterElements.Ice <==> v == "ice"
    ensures r == MonsterElements.Dragon <==> v == "dragon"
    ensures r == MonsterElements.Poison <==> v == "poison"
  {
    match v
    case "fire" => MonsterElements.Fire
    case "water" => MonsterElements.Water
    case "thunder" => MonsterElements.Thunder
    case "ice" => MonsterElements.Ice
    case "dragon" => MonsterElements.Dragon
    case "poison" => MonsterElements.Poison
    case "none" => MonsterElements.None
    case _ => MonsterElements.None
  }

  lemma MonsterElementsRoundTrip(e: MonsterElements)
    ensures ParseMonsterElements(Lower(e.ToString())) == e
  {
    match e
    case Fire => assert Lower("Fire") == "fire";
    case Water => assert Lower("Water") == "water";
    case Thunder => assert Lower("Thunder") == "thunder";
    case Ice => assert Lower("Ice") == "ice";
    case Dragon => assert Lower("Dragon") == "dragon";
    case Poison => assert Lower("Poison") == "poison";
    case None => assert Lower("None") == "none";
  }

  // ---------------------------------------------------------------------------
  // The record

  datatype MonsterName = MonsterName(name: string, aka: string)

  /** `MonsterDescText` (src/monster/mod.rs): the flavour text and the ability paragraphs. */
  datatype MonsterDescText = MonsterDescText(original: string, desc: seq<string>)

  datatype MonsterBasicInfo = MonsterBasicInfo(
    mType: string,
    roar: Roarskind,
    windPressure: WindPressureKind,
    tremor: TremorKind,
    statusEffect: seq<MonsterStatusEffects>)

  datatype WeaponDamageData = WeaponDamageData(cutDamage: u8, bluntDamage: u8, ammoDamage: u8)

  datatype ElementDamageData = ElementDamageData(
    fireDamage: u8, waterDamage: u8, thunderDamage: u8, iceDamage: u8, dragonDamage: u8)

  datatype DamageData = DamageData(monsterPart: string, weapon: WeaponDamageData, element: ElementDamageData)

  datatype MonsterWeaknesses = MonsterWeaknesses(dmgData: seq<DamageData>, ailmentData: StatusAilmentItem)

  datatype MaterialDrop = MaterialDrop(material: string, percentage: u8)

  datatype DropWithPart = DropWithPart(part: string, percentage: u8)

  datatype MaterialDropWithPart = MaterialDropWithPart(material: string, carve: seq<DropWithPart>)

  datatype MonsterMaterialsDrop = MonsterMaterialsDrop(
    target: seq<MaterialDrop>,
    brokenPart: seq<MaterialDropWithPart>,
    woundDestroy: seq<MaterialDrop>,
    carve: seq<MaterialDropWithPart>)

  datatype MonsterDrops = MonsterDrops(lowRank: MonsterMaterialsDrop, highRank: MonsterMaterialsDrop)

  datatype MonsterHabitatData = MonsterHabitatData(
    region: string, startingArea: seq<u8>, visitedArea: seq<u8>, restingArea: u8)

  datatype MonsterEntity = MonsterEntity(
    id: u16,
    name: MonsterName,
    iconCode: string,
    elements: seq<MonsterElements>,
    desc: MonsterDescText,
    basicInfo: MonsterBasicInfo,
    questList: seq<MonsterQuestData>,
    habitats: seq<MonsterHabitatData>,
    weaknesses: MonsterWeaknesses,
    drops: MonsterDrops)

  /** `MonsterEntity::default()`: the record shown when the selection points
      past the end of the list; every list in it is empty. */
  function DefaultMonsterEntity(): (e: MonsterEntity)
    ensures e.questList == [] && e.habitats == [] && e.weaknesses.dmgData == []
    ensures e.drops.lowRank == e.drops.highRank == MonsterMaterialsDrop([], [], [], [])
    ensures e.name == MonsterName("", "")
    ensures e.basicInfo.roar == Roarskind.None && e.basicInfo.windPressure == WindPressureKind.None
    ensures e.basicInfo.tremor == TremorKind.None
    ensures e.weaknesses.ailmentData == DefaultStatusAilmentItem()
  {
    var noDrops := MonsterMaterialsDrop([], [], [], []);
    MonsterEntity(
      0,
      MonsterName("", ""),
      "",
      [],
      MonsterDescText("", []),
      MonsterBasicInfo("", DefaultRoarskind, DefaultWindPressureKind, DefaultTremorKind, []),
      [],
      [],
      MonsterWeaknesses([], DefaultStatusAilmentItem()),
      MonsterDrops(noDrops, noDrops))
  }
}
