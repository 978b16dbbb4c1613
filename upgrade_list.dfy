/** The upgrade schema and the game's constant catalog of upgrades (assets/js/upgradeList.js).

    Each catalog entry keeps the data fields of an `Upgrade` (type, cost, duration, once,
    scaling, requirement); the display name and description are dropped, the entry's index
    in `Catalog` identifies it. An entry's `effect` callback is written as the sequence of
    statements its body executes, in source order, and `Run` gives their meaning on a
    `State`. The mutable game object that actually runs them is `Village.Game`. */
module UpgradeList {
  import opened World

  /** The `type` field: which list the upgrade is shown in. */
  datatype Kind = Craft | Research

  /** A `requirement` array `[levelKey, min]`; the key names one of the `game.levels` fields. */
  datatype Requirement = Requirement(key: LevelKey, min: int)

  /** The statements that occur in effect callbacks. */
  datatype Stmt =
    | RaiseLevel(key: LevelKey)             // game.levels.<key> += 1
    | AddLumberjacks(count: int)            // game.lumberjack += count
    | Unlock(name: string)                  // game.unlock(name)
    | Gain(kind: Resource, amount: int)     // game.<kind> += amount
    | ScaleRate(rate: Rate, factor: real)   // game.production.<rate> *= factor
    | ShiftRate(rate: Rate, delta: real)    // game.production.<rate> += delta
    | DiscardProduct(rate: Rate, factor: real)  // game.production.<rate> * factor;  (result unused)
    | MarkMentor                            // game.mentorUnlocked = true
    | MarkManager                           // game.managerUnlocked = true
    | LogEvent                              // game.logMessage("event", …)
    | ShowStory                             // game.showStory(…)

  datatype Upgrade = Upgrade(
    kind: Kind,
    cost: map<Resource, int>,
    duration: int,
    once: bool,
    scaling: Option<real>,
    requirement: Option<Requirement>,
    effect: seq<Stmt>)

  // ---------------------------------------------------------------------------------------
  // Meaning of effect statements

  /** One statement of an effect callback, applied to the game state. */
  function Exec(st: Stmt, s: State): State
  {
    match st
    case RaiseLevel(k) => s.(levels := s.levels.Raise(k))
    case AddLumberjacks(n) => s.(lumberjack := s.lumberjack + n)
    case Unlock(name) => s.(unlocks := s.unlocks + {name})
    case Gain(k, a) => s.Grant(k, a as real)
    case ScaleRate(r, f) => s.(production := s.production.Set(r, s.production.Get(r) * f))
    case ShiftRate(r, d) => s.(production := s.production.Set(r, s.production.Get(r) + d))
    case DiscardProduct(_, _) => s
    case MarkMentor => s.(mentorUnlocked := true)
    case MarkManager => s.(managerUnlocked := true)
    case LogEvent => s.(notices := s.notices + [EventLog])
    case ShowStory => s.(notices := s.notices + [StoryShown])
  }

  /** A whole effect body: its statements one after the other, first to last. */
  function Run(stmts: seq<Stmt>, s: State): State
  {
    if stmts == [] then s else Exec(stmts[|stmts| - 1], Run(stmts[..|stmts| - 1], s))
  }

  lemma RunSnoc(stmts: seq<Stmt>, st: Stmt, s: State)
    ensures Run(stmts + [st], s) == Exec(st, Run(stmts, s))
  {
    assert (stmts + [st])[..|stmts|] == stmts;
  }

  /** No two statements of the effect raise a level. */
  predicate AtMostOneRaise(stmts: seq<Stmt>)
  {
    forall j, j' :: 0 <= j < j' < |stmts| ==> !(stmts[j].RaiseLevel? && stmts[j'].RaiseLevel?)
  }

  /** An effect without a `levels` statement leaves every level as it was. */
  lemma {:induction false} RunKeepsLevels(stmts: seq<Stmt>, s: State)
    requires forall j :: 0 <= j < |stmts| ==> !stmts[j].RaiseLevel?
    ensures Run(stmts, s).levels == s.levels
  {
    if stmts != [] {
      RunKeepsLevels(stmts[..|stmts| - 1], s);
    }
  }

  /** An effect whose only `levels` statement is `levels.<k> += 1` adds exactly one to level
      `k` and nothing to the others. */
  lemma {:induction false} RunRaisesOnce(stmts: seq<Stmt>, s: State, j: nat)
    requires AtMostOneRaise(stmts) && j < |stmts| && stmts[j].RaiseLevel?
    ensures Run(stmts, s).levels == s.levels.Raise(stmts[j].key)
  {
    var n := |stmts| - 1;
    var init := stmts[..n];
    if j == n {
      RunKeepsLevels(init, s);
    } else {
      assert init[j] == stmts[j];
      RunRaisesOnce(init, s, j);
    }
  }

  /** No effect statement takes a stock away when every amount it adds is non-negative. */
  lemma {:induction false} RunNeverLowersStocks(stmts: seq<Stmt>, s: State, k: Resource)
    requires forall j :: 0 <= j < |stmts| && stmts[j].Gain? ==> stmts[j].amount >= 0
    ensures Run(stmts, s).Stock(k) >= s.Stock(k)
  {
    if stmts != [] {
      var init := stmts[..|stmts| - 1];
      assert forall j :: 0 <= j < |init| ==> init[j] == stmts[j];
      RunNeverLowersStocks(init, s, k);
      ExecNeverLowersStocks(stmts[|stmts| - 1], Run(init, s), k);
    }
  }

  lemma ExecNeverLowersStocks(st: Stmt, s: State, k: Resource)
    requires st.Gain? ==> st.amount >= 0
    ensures Exec(st, s).Stock(k) >= s.Stock(k)
  {
  }

  /** `game.unlock` only ever adds names: an effect never takes an unlock back. */
  lemma {:induction false} RunKeepsUnlocks(stmts: seq<Stmt>, s: State)
    ensures s.unlocks <= Run(stmts, s).unlocks
    ensures Run(stmts, s).unlocks - s.unlocks <= set j | 0 <= j < |stmts| && stmts[j].Unlock? :: stmts[j].name
  {
    if stmts != [] {
      var init := stmts[..|stmts| - 1];
      var n := |init|;
      RunKeepsUnlocks(init, s);
      var named := set j | 0 <= j < |stmts| && stmts[j].Unlock? :: stmts[j].name;
      forall x | x in Run(init, s).unlocks - s.unlocks ensures x in named {
        var j :| 0 <= j < |init| && init[j].Unlock? && init[j].name == x;
        assert stmts[j] == init[j];
      }
      if stmts[n].Unlock? {
        assert stmts[n].name in named;
      }
    }
  }

  // ---------------------------------------------------------------------------------------
  // The catalog

  // Major system progression upgrades

  /** 搭建帳篷 */
  const PitchTent := Upgrade(Craft, map[Wood := 10, Food := 10], 2, true, None, None,
      [RaiseLevel(Tent), AddLumberjacks(2), Unlock("assign"), Unlock("income"), LogEvent])

  /** 展開帳篷 */
  const ExpandTent := Upgrade(Craft, map[Wood := 20, Food := 40], 2, false, Some(1.5), Some(Requirement(Tent, 1)),
      [RaiseLevel(Tent), AddLumberjacks(1), LogEvent])

  /** 建造碼頭 */
  const BuildPier := Upgrade(Craft, map[Wood := 100], 4, true, None, Some(Requirement(Tent, 1)),
      [RaiseLevel(Pier), Unlock("fisherman"), LogEvent])

  /** 擴建碼頭 */
  const ExtendPier := Upgrade(Craft, map[Wood := 200], 4, false, Some(4.0), Some(Requirement(Pier, 1)),
      [ScaleRate(Fisherman, 2.0), RaiseLevel(Pier), LogEvent])

  /** 建造礦場 */
  const BuildQuarry := Upgrade(Craft, map[Wood := 200], 5, true, None, Some(Requirement(Pier, 1)),
      [Unlock("stone"), Unlock("miner"), LogEvent, RaiseLevel(Quarry)])

  /** 開發礦場 */
  const DevelopQuarry := Upgrade(Craft, map[Wood := 250, Stone := 100], 5, false, Some(4.0), Some(Requirement(Quarry, 1)),
      [RaiseLevel(Quarry), ScaleRate(Miner, 2.0), LogEvent])

  /** 建造工坊 */
  const BuildWorkshop := Upgrade(Craft, map[Wood := 200, Stone := 200], 6, true, None, Some(Requirement(Quarry, 2)),
      [RaiseLevel(Smithy), Unlock("blacksmith"), Unlock("craftSpeed"), LogEvent])

  /** 現代化改造工坊 */
  const ModernizeWorkshop := Upgrade(Craft, map[Wood := 400, Stone := 400], 6, false, Some(2.0), Some(Requirement(Smithy, 1)),
      [RaiseLevel(Smithy), ScaleRate(Blacksmith, 0.75), LogEvent])

  /** 建造學院 */
  const BuildAcademy := Upgrade(Craft, map[Wood := 1000, Stone := 1000], 10, true, None, Some(Requirement(Smithy, 3)),
      [RaiseLevel(Academy), Unlock("professor"), Unlock("research"), Unlock("researchSpeed"), LogEvent])

  /** 發展學院 */
  const DevelopAcademy := Upgrade(Craft, map[Wood := 1500, Stone := 2000], 10, false, Some(2.0), Some(Requirement(Academy, 1)),
      [RaiseLevel(Academy), ScaleRate(Professor, 0.75), LogEvent])

  /** 導師計劃 */
  const MentorProgram := Upgrade(Research, map[Food := 1500], 6, true, None, Some(Requirement(Academy, 1)),
      [MarkMentor, Unlock("mentor"), LogEvent])

  /** 人員管理 */
  const PeopleManagement := Upgrade(Research, map[Food := 6000], 12, true, None, Some(Requirement(Academy, 3)),
      [MarkManager, Unlock("manager"), LogEvent])

  // Job upgrades

  /** 工藝木斧 */
  const WoodenAxe := Upgrade(Craft, map[Wood := 40], 3, true, None, Some(Requirement(Tent, 1)),
      [ScaleRate(Lumberjack, 1.75), LogEvent])

  /** 製作木製釣竿 */
  const WoodenRod := Upgrade(Craft, map[Wood := 100], 3, true, None, Some(Requirement(Pier, 1)),
      [ScaleRate(Fisherman, 1.75), LogEvent])

  /** 製作木製鎬 */
  const WoodenPickaxe := Upgrade(Craft, map[Wood := 120], 3, true, None, Some(Requirement(Quarry, 1)),
      [ScaleRate(Miner, 1.75), LogEvent])

  /** 工藝石斧 */
  const StoneAxe := Upgrade(Craft, map[Wood := 20, Stone := 50], 4, true, None, Some(Requirement(Quarry, 1)),
      [ScaleRate(Lumberjack, 1.75), LogEvent])

  /** 製作石鎬 */
  const StonePickaxe := Upgrade(Craft, map[Wood := 50, Stone := 100], 5, true, None, Some(Requirement(Quarry, 2)),
      [ScaleRate(Miner, 1.75), LogEvent])

  /** 磨利鎬頭 */
  const SharpenPickaxes := Upgrade(Craft, map[Wood := 60, Stone := 120], 8, true, None, Some(Requirement(Smithy, 1)),
      [ScaleRate(Miner, 1.25), LogEvent])

  /** 舒適的凳子 */
  const ComfyStools := Upgrade(Craft, map[Wood := 160, Stone := 40], 8, true, None, Some(Requirement(Smithy, 1)),
      [ScaleRate(Fisherman, 1.25), LogEvent])

  /** 貨物儲存 */
  const CargoStorage := Upgrade(Craft, map[Wood := 200, Stone := 120], 10, true, None, Some(Requirement(Smithy, 2)),
      [ScaleRate(Lumberjack, 1.25), LogEvent])

  /** 多層礦場 */
  const MultilevelQuarry := Upgrade(Craft, map[Wood := 400, Stone := 100], 10, true, None, Some(Requirement(Smithy, 2)),
      [ScaleRate(Miner, 1.5), LogEvent])

  /** 捕魚陷阱 */
  const FishTraps := Upgrade(Craft, map[Wood := 500], 12, true, None, Some(Requirement(Smithy, 3)),
      [ScaleRate(Fisherman, 1.5), LogEvent])

  /** 背部支撐 */
  const BackSupport := Upgrade(Craft, map[Wood := 300, Stone := 300], 12, true, None, Some(Requirement(Smithy, 3)),
      [DiscardProduct(Lumberjack, 1.75), LogEvent])

  /** 時間管理 */
  const TimeManagement := Upgrade(Research, map[Food := 2000], 15, true, None, Some(Requirement(Academy, 1)),
      [ShiftRate(Blacksmith, -0.05), ShiftRate(Professor, -0.05), LogEvent])

  /** 要更聰明地揮動 */
  const SwingSmarter := Upgrade(Research, map[Food := 600], 15, true, None, Some(Requirement(Academy, 1)),
      [ScaleRate(Lumberjack, 2.0), LogEvent])

  /** 任務掌握 */
  const TaskMastery := Upgrade(Research, map[Food := 3000], 16, true, None, Some(Requirement(Academy, 2)),
      [ShiftRate(MentorBoost, 0.1), LogEvent])

  // Story upgrades

  /** 調查巨石 */
  const InvestigateMonolith := Upgrade(Craft, map[Food := 50], 60, true, None, Some(Requirement(Quarry, 2)),
      [ShowStory])

  /** 研究巨石 */
  const StudyMonolith := Upgrade(Research, map[Food := 800], 240, true, None, Some(Requirement(Academy, 2)),
      [ShowStory])

  /** 摧毀巨石 */
  const DestroyMonolith := Upgrade(Research, map[Wood := 100000, Food := 300000, Stone := 500000], 120000, true, None,
      Some(Requirement(Academy, 4)),
      [ShowStory])

  // Random upgrades

  /** 追捕當地野生動物 */
  const HuntWildlife := Upgrade(Craft, map[Wood := 5, Food := 5], 2, true, None, Some(Requirement(Tent, 1)),
      [Gain(Food, 40), LogEvent])

  /** 砍倒了一棵大橡樹 */
  const FellGreatOak := Upgrade(Craft, map[Wood := 20], 4, true, None, Some(Requirement(Pier, 1)),
      [Gain(Wood, 100), LogEvent])

  /** 平整地面 */
  const LevelGround := Upgrade(Craft, map[Stone := 20], 5, true, None, Some(Requirement(Quarry, 1)),
      [Gain(Stone, 120), LogEvent])

  /** 把深海巨獸釣出來 */
  const CatchSeaMonster := Upgrade(Craft, map[Food := 40], 5, true, None, Some(Requirement(Quarry, 2)),
      [Gain(Food, 200), LogEvent])

  /** 探索基礎知識 */
  const ExploreBasics := Upgrade(Research, map[Wood := 50, Stone := 50, Food := 100], 10, true, None,
      Some(Requirement(Academy, 1)),
      [Gain(Wood, 1000), Gain(Stone, 1000), LogEvent])

  /** 外來部落 */
  const ForeignTribe := Upgrade(Research, map[Food := 400], 15, true, None, Some(Requirement(Academy, 2)),
      [Gain(Wood, 1600), Gain(Stone, 1600), Gain(Food, 800), LogEvent])

  // The four groups of the list, in source order
  const Progression: seq<Upgrade> := [
    PitchTent, ExpandTent, BuildPier, ExtendPier, BuildQuarry, DevelopQuarry,
    BuildWorkshop, ModernizeWorkshop, BuildAcademy, DevelopAcademy, MentorProgram, PeopleManagement]
  const Jobs: seq<Upgrade> := [
    WoodenAxe, WoodenRod, WoodenPickaxe, StoneAxe, StonePickaxe, SharpenPickaxes, ComfyStools,
    CargoStorage, MultilevelQuarry, FishTraps, BackSupport, TimeManagement, SwingSmarter, TaskMastery]
  const Story: seq<Upgrade> := [InvestigateMonolith, StudyMonolith, DestroyMonolith]
  const Random: seq<Upgrade> := [
    HuntWildlife, FellGreatOak, LevelGround, CatchSeaMonster, ExploreBasics, ForeignTribe]

  /** `Game.prototype.upgradeList`, in source order. */
  const Catalog: seq<Upgrade> := Progression + Jobs + Story + Random

  /** Where catalog index `i` lies in the four groups. */
  lemma CatalogAt(i: nat)
    requires i < |Catalog|
    ensures |Catalog| == 35
    ensures Catalog[i] == if i < 12 then Progression[i]
                          else if i < 26 then Jobs[i - 12]
                          else if i < 29 then Story[i - 26]
                          else Random[i - 29]
  {
  }

  /** A property that holds of every entry of every group holds of every catalog entry. */
  lemma EveryGroup(P: Upgrade -> bool)
    requires forall i :: 0 <= i < |Progression| ==> P(Progression[i])
    requires forall i :: 0 <= i < |Jobs| ==> P(Jobs[i])
    requires forall i :: 0 <= i < |Story| ==> P(Story[i])
    requires forall i :: 0 <= i < |Random| ==> P(Random[i])
    ensures forall i :: 0 <= i < |Catalog| ==> P(Catalog[i])
  {
    forall i | 0 <= i < |Catalog| ensures P(Catalog[i]) {
      CatalogAt(i);
    }
  }

  // ---------------------------------------------------------------------------------------
  // Schema rules (the field comments of class Upgrade)

  /** Every amount of a cost map is positive, written resource by resource. */
  predicate PositiveAmounts(m: map<Resource, int>)
  {
    && (Wood in m ==> m[Wood] > 0)
    && (Food in m ==> m[Food] > 0)
    && (Stone in m ==> m[Stone] > 0)
  }

  lemma PositiveAmountsAll(m: map<Resource, int>)
    requires PositiveAmounts(m)
    ensures forall r :: r in m ==> m[r] > 0
  {
    forall r | r in m ensures m[r] > 0 {
      match r
      case Wood =>
      case Food =>
      case Stone =>
    }
  }

  /** What the schema promises of every definition. */
  predicate WellFormed(u: Upgrade)
  {
    // at least one cost entry, each with a positive amount
    && |u.cost| > 0
    && PositiveAmounts(u.cost)
    && u.duration > 0
    // a repeatable upgrade carries a scaling factor above one; a one-shot carries none
    && (if u.once then u.scaling.None? else u.scaling.Some? && u.scaling.value > 1.0)
    // a requirement asks for a level of at least one
    && (u.requirement.Some? ==> u.requirement.value.min >= 1)
  }

  // (each group is checked in halves to keep each proof small)
  lemma ProgressionWellFormed()
    ensures forall i :: 0 <= i < |Progression| ==> WellFormed(Progression[i])
  {
    ProgressionWellFormedFirstHalf();
    ProgressionWellFormedSecondHalf();
  }

  lemma ProgressionWellFormedFirstHalf()
    ensures forall i :: 0 <= i < 6 ==> WellFormed(Progression[i])
  {
  }

  lemma ProgressionWellFormedSecondHalf()
    ensures forall i :: 6 <= i < |Progression| ==> WellFormed(Progression[i])
  {
  }

  lemma JobsWellFormed()
    ensures forall i :: 0 <= i < |Jobs| ==> WellFormed(Jobs[i])
  {
    JobsWellFormedFirstHalf();
    JobsWellFormedSecondHalf();
  }

  lemma JobsWellFormedFirstHalf()
    ensures forall i :: 0 <= i < 7 ==> WellFormed(Jobs[i])
  {
  }

  lemma JobsWellFormedSecondHalf()
    ensures forall i :: 7 <= i < |Jobs| ==> WellFormed(Jobs[i])
  {
  }

  lemma StoryAndRandomWellFormed()
    ensures forall i :: 0 <= i < |Story| ==> WellFormed(Story[i])
    ensures forall i :: 0 <= i < |Random| ==> WellFormed(Random[i])
  {
  }

  /** Every definition of the catalog obeys the schema. */
  lemma CatalogWellFormed()
    ensures |Catalog| == 35
    ensures forall i :: 0 <= i < |Catalog| ==> WellFormed(Catalog[i])
  {
    ProgressionWellFormed();
    JobsWellFormed();
    StoryAndRandomWellFormed();
    EveryGroup(WellFormed);
  }

  /** Every amount of every catalog cost is positive. */
  lemma CatalogCostsPositive()
    ensures forall i, r :: 0 <= i < |Catalog| && r in Catalog[i].cost ==> Catalog[i].cost[r] > 0
  {
    CatalogWellFormed();
    forall i | 0 <= i < |Catalog| ensures forall r :: r in Catalog[i].cost ==> Catalog[i].cost[r] > 0 {
      PositiveAmountsAll(Catalog[i].cost);
    }
  }

  /** Everything after the main progression is a one-shot upgrade behind a requirement. */
  lemma LaterGroupsGated()
    ensures forall i :: 0 <= i < |Jobs| ==> Jobs[i].once && Jobs[i].requirement.Some?
    ensures forall i :: 0 <= i < |Story| ==> Story[i].once && Story[i].requirement.Some?
    ensures forall i :: 0 <= i < |Random| ==> Random[i].once && Random[i].requirement.Some?
  {
  }

  /** The repeatable upgrades are entries 1, 3, 5, 7 and 9, with scaling 1.5, 4, 4, 2 and 2. */
  lemma RepeatableScalings()
    ensures forall i :: 0 <= i < |Catalog| ==> (!Catalog[i].once <==> i in {1, 3, 5, 7, 9})
    ensures [Catalog[1].scaling, Catalog[3].scaling, Catalog[5].scaling, Catalog[7].scaling, Catalog[9].scaling]
         == [Some(1.5), Some(4.0), Some(4.0), Some(2.0), Some(2.0)]
  {
    LaterGroupsGated();
    assert forall i :: 0 <= i < |Progression| ==> (!Progression[i].once <==> i in {1, 3, 5, 7, 9});
    forall i | 0 <= i < |Catalog| ensures !Catalog[i].once <==> i in {1, 3, 5, 7, 9} {
      CatalogAt(i);
    }
  }

  // ---------------------------------------------------------------------------------------
  // Visibility: an upgrade shows up only when levels[key] >= min

  predicate Visible(u: Upgrade, levels: Levels)
  {
    match u.requirement
    case None => true
    case Some(r) => levels.Get(r.key) >= r.min
  }

  /** Levels `b` are everywhere at least levels `a`. */
  predicate AtLeast(b: Levels, a: Levels)
  {
    forall k :: b.Get(k) >= a.Get(k)
  }

  /** Raising levels never hides an upgrade that was visible. */
  lemma VisibleMonotone(u: Upgrade, a: Levels, b: Levels)
    requires AtLeast(b, a)
    ensures Visible(u, a) ==> Visible(u, b)
  {
    if u.requirement.Some? {
      assert b.Get(u.requirement.value.key) >= a.Get(u.requirement.value.key);
    }
  }

  /** At the start of a game (every level zero) only the first tent is on offer. */
  lemma OnlyTentAtStart()
    ensures forall i :: 0 <= i < |Catalog| ==> (Visible(Catalog[i], Levels(0, 0, 0, 0, 0)) <==> i == 0)
  {
    CatalogWellFormed();
    LaterGroupsGated();
    assert forall i :: 0 <= i < |Progression| ==> (Progression[i].requirement.None? <==> i == 0);
    forall i | 0 <= i < |Catalog| ensures Visible(Catalog[i], Levels(0, 0, 0, 0, 0)) <==> i == 0 {
      CatalogAt(i);
    }
  }

  /** The gating example: an upgrade requiring ["quarry", 2] is hidden at quarry level 1
      and shown from quarry level 2 on. */
  lemma QuarryGate(i: nat, levels: Levels)
    requires i < |Catalog| && Catalog[i].requirement == Some(Requirement(Quarry, 2))
    ensures levels.quarry == 1 ==> !Visible(Catalog[i], levels)
    ensures levels.quarry >= 2 ==> Visible(Catalog[i], levels)
  {
  }

  // ---------------------------------------------------------------------------------------
  // What the catalog's effects do to levels and stocks

  /** An effect raises at most one level and adds only positive amounts to the stocks. */
  predicate SoundEffect(u: Upgrade)
  {
    && AtMostOneRaise(u.effect)
    && forall j :: 0 <= j < |u.effect| && u.effect[j].Gain? ==> u.effect[j].amount > 0
  }

  lemma ProgressionEffectsSound()
    ensures forall i :: 0 <= i < |Progression| ==> SoundEffect(Progression[i])
  {
  }

  lemma JobsEffectsSound()
    ensures forall i :: 0 <= i < |Jobs| ==> SoundEffect(Jobs[i])
  {
  }

  lemma StoryAndRandomEffectsSound()
    ensures forall i :: 0 <= i < |Story| ==> SoundEffect(Story[i])
    ensures forall i :: 0 <= i < |Random| ==> SoundEffect(Random[i])
  {
  }

  lemma CatalogEffectsSound()
    ensures forall i :: 0 <= i < |Catalog| ==> SoundEffect(Catalog[i])
  {
    ProgressionEffectsSound();
    JobsEffectsSound();
    StoryAndRandomEffectsSound();
    EveryGroup(SoundEffect);
  }

  /** Every effect of the catalog either adds exactly one to a single level or leaves all
      levels alone. */
  lemma EffectLevels(i: nat, s: State)
    requires i < |Catalog|
    ensures var after := Run(Catalog[i].effect, s).levels;
      after == s.levels || exists k :: after == s.levels.Raise(k)
  {
    var e := Catalog[i].effect;
    CatalogEffectsSound();
    if j :| 0 <= j < |e| && e[j].RaiseLevel? {
      RunRaisesOnce(e, s, j);
    } else {
      RunKeepsLevels(e, s);
    }
  }

  /** The one-shot upgrade that first builds each level, and the statement that does it. */
  function Builder(k: LevelKey): (r: (nat, nat))
    ensures r.0 < |Catalog| && Catalog[r.0].once
    ensures r.1 < |Catalog[r.0].effect| && Catalog[r.0].effect[r.1] == RaiseLevel(k)
  {
    match k
    case Tent => (0, 0)
    case Pier => (2, 0)
    case Quarry => (4, 3)
    case Smithy => (6, 0)
    case Academy => (8, 0)
  }

  /** Every level a requirement names is raised, by exactly one, by some catalog effect. */
  lemma RequiredLevelsAreRaised(i: nat)
    requires i < |Catalog| && Catalog[i].requirement.Some?
    ensures exists j :: 0 <= j < |Catalog| &&
                        forall s: State :: Run(Catalog[j].effect, s).levels == s.levels.Raise(Catalog[i].requirement.value.key)
  {
    var (j, at) := Builder(Catalog[i].requirement.value.key);
    CatalogEffectsSound();
    forall s: State ensures Run(Catalog[j].effect, s).levels == s.levels.Raise(Catalog[i].requirement.value.key) {
      RunRaisesOnce(Catalog[j].effect, s, at);
    }
  }

  // ---------------------------------------------------------------------------------------
  // The exact effect of individual catalog entries

  lemma RunOne(a: Stmt, s: State)
    ensures Run([a], s) == Exec(a, s)
  {
    assert [a][..0] == [];
  }

  lemma RunTwo(a: Stmt, b: Stmt, s: State)
    ensures Run([a, b], s) == Exec(b, Exec(a, s))
  {
    RunOne(a, s);
    assert [a, b] == [a] + [b];
    RunSnoc([a], b, s);
  }

  lemma RunThree(a: Stmt, b: Stmt, c: Stmt, s: State)
    ensures Run([a, b, c], s) == Exec(c, Exec(b, Exec(a, s)))
  {
    RunTwo(a, b, s);
    assert [a, b, c] == [a, b] + [c];
    RunSnoc([a, b], c, s);
  }

  lemma RunFour(a: Stmt, b: Stmt, c: Stmt, d: Stmt, s: State)
    ensures Run([a, b, c, d], s) == Exec(d, Exec(c, Exec(b, Exec(a, s))))
  {
    RunThree(a, b, c, s);
    assert [a, b, c, d] == [a, b, c] + [d];
    RunSnoc([a, b, c], d, s);
  }

  lemma RunFive(a: Stmt, b: Stmt, c: Stmt, d: Stmt, e: Stmt, s: State)
    ensures Run([a, b, c, d, e], s) == Exec(e, Exec(d, Exec(c, Exec(b, Exec(a, s)))))
  {
    RunFour(a, b, c, d, s);
    assert [a, b, c, d, e] == [a, b, c, d] + [e];
    RunSnoc([a, b, c, d], e, s);
  }

  /** 搭建帳篷: one more tent level, two lumberjacks, the assign and income features. */
  lemma PitchTentEffect(s: State)
    ensures Run(PitchTent.effect, s)
         == s.(levels := s.levels.(tent := s.levels.tent + 1),
               lumberjack := s.lumberjack + 2,
               unlocks := s.unlocks + {"assign", "income"},
               notices := s.notices + [EventLog])
  {
    RunFive(RaiseLevel(Tent), AddLumberjacks(2), Unlock("assign"), Unlock("income"), LogEvent, s);
  }

  /** 展開帳篷: one more tent level and one more lumberjack, nothing else. */
  lemma ExpandTentEffect(s: State)
    ensures Run(ExpandTent.effect, s)
         == s.(levels := s.levels.(tent := s.levels.tent + 1),
               lumberjack := s.lumberjack + 1,
               notices := s.notices + [EventLog])
  {
    RunThree(RaiseLevel(Tent), AddLumberjacks(1), LogEvent, s);
  }

  /** 背部支撐: the product `production.lumberjack * 1.75` is computed and dropped, so no
      production figure changes. */
  lemma BackSupportEffect(s: State)
    ensures Run(BackSupport.effect, s).production == s.production
    ensures Run(BackSupport.effect, s) == s.(notices := s.notices + [EventLog])
  {
    RunTwo(DiscardProduct(Lumberjack, 1.75), LogEvent, s);
  }

  /** 追捕當地野生動物: food + 40. */
  lemma HuntWildlifeEffect(s: State)
    ensures Run(HuntWildlife.effect, s) == s.(food := s.food + 40.0, notices := s.notices + [EventLog])
  {
    RunTwo(Gain(Food, 40), LogEvent, s);
  }

  /** 砍倒了一棵大橡樹: wood + 100. */
  lemma FellGreatOakEffect(s: State)
    ensures Run(FellGreatOak.effect, s) == s.(wood := s.wood + 100.0, notices := s.notices + [EventLog])
  {
    RunTwo(Gain(Wood, 100), LogEvent, s);
  }

  /** 平整地面: stone + 120. */
  lemma LevelGroundEffect(s: State)
    ensures Run(LevelGround.effect, s) == s.(stone := s.stone + 120.0, notices := s.notices + [EventLog])
  {
    RunTwo(Gain(Stone, 120), LogEvent, s);
  }

  /** 把深海巨獸釣出來: food + 200. */
  lemma CatchSeaMonsterEffect(s: State)
    ensures Run(CatchSeaMonster.effect, s) == s.(food := s.food + 200.0, notices := s.notices + [EventLog])
  {
    RunTwo(Gain(Food, 200), LogEvent, s);
  }

  /** 探索基礎知識: wood + 1000 and stone + 1000; food is untouched. */
  lemma ExploreBasicsEffect(s: State)
    ensures Run(ExploreBasics.effect, s)
         == s.(wood := s.wood + 1000.0, stone := s.stone + 1000.0, notices := s.notices + [EventLog])
  {
    RunThree(Gain(Wood, 1000), Gain(Stone, 1000), LogEvent, s);
  }

  /** 外來部落: wood + 1600, stone + 1600, food + 800. */
  lemma ForeignTribeEffect(s: State)
    ensures Run(ForeignTribe.effect, s)
         == s.(wood := s.wood + 1600.0, stone := s.stone + 1600.0, food := s.food + 800.0,
               notices := s.notices + [EventLog])
  {
    RunFour(Gain(Wood, 1600), Gain(Stone, 1600), Gain(Food, 800), LogEvent, s);
  }

  /** No catalog effect lowers a stock: every amount an effect adds is positive. */
  lemma EffectsNeverLowerStocks(i: nat, s: State, k: Resource)
    requires i < |Catalog|
    ensures Run(Catalog[i].effect, s).Stock(k) >= s.Stock(k)
  {
    CatalogEffectsSound();
    RunNeverLowersStocks(Catalog[i].effect, s, k);
  }
}
