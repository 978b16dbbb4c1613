/** The part of the village's game state that upgrades and tutorial pop-ups read and write,
    as plain values. The mutable `Game` object in module Village holds one field per
    component here, and `Game.Snapshot()` packs them into a `State`. */
module World {

  datatype Option<T> = None | Some(value: T)

  /** The three stock resources (`game.wood`, `game.food`, `game.stone`). */
  datatype Resource = Wood | Food | Stone

  /** The building fields of `game.levels`. */
  datatype LevelKey = Tent | Pier | Quarry | Smithy | Academy

  /** `game.levels`: one level per building, all starting at zero. */
  datatype Levels = Levels(tent: int, pier: int, quarry: int, smithy: int, academy: int)
  {
    function Get(k: LevelKey): int
    {
      match k
      case Tent => tent
      case Pier => pier
      case Quarry => quarry
      case Smithy => smithy
      case Academy => academy
    }

    /** `game.levels.<k> += 1`: that one building goes up a level, no other moves. */
    function Raise(k: LevelKey): (r: Levels)
      ensures r.Get(k) == Get(k) + 1
      ensures forall j :: j != k ==> r.Get(j) == Get(j)
    {
      match k
      case Tent => this.(tent := tent + 1)
      case Pier => this.(pier := pier + 1)
      case Quarry => this.(quarry := quarry + 1)
      case Smithy => this.(smithy := smithy + 1)
      case Academy => this.(academy := academy + 1)
    }
  }

  /** The fields of `game.production` that upgrade effects adjust. */
  datatype Rate = Lumberjack | Fisherman | Miner | Blacksmith | Professor | MentorBoost

  /** `game.production`: per-job multipliers (crafting and research speed for the
      blacksmith and professor entries) and the mentor bonus. */
  datatype Production = Production(lumberjack: real, fisherman: real, miner: real,
                                   blacksmith: real, professor: real, mentorBoost: real)
  {
    function Get(r: Rate): real
    {
      match r
      case Lumberjack => lumberjack
      case Fisherman => fisherman
      case Miner => miner
      case Blacksmith => blacksmith
      case Professor => professor
      case MentorBoost => mentorBoost
    }

    /** Assigns one field; every other field keeps its value. */
    function Set(r: Rate, v: real): (p: Production)
      ensures p.Get(r) == v
      ensures forall q :: q != r ==> p.Get(q) == Get(q)
    {
      match r
      case Lumberjack => this.(lumberjack := v)
      case Fisherman => this.(fisherman := v)
      case Miner => this.(miner := v)
      case Blacksmith => this.(blacksmith := v)
      case Professor => this.(professor := v)
      case MentorBoost => this.(mentorBoost := v)
    }
  }

  /** What an effect leaves behind that is not game state proper: an entry in the event
      log (`game.logMessage("event", …)`) or the start of a story sequence
      (`game.showStory(…)`). The texts themselves are not modelled. */
  datatype Notice = EventLog | StoryShown

  /** Everything of the game object that the upgrade effects and the tutorial read. */
  datatype State = State(
    wood: real, food: real, stone: real,
    lumberjack: int,                 // villagers working as lumberjacks
    levels: Levels,
    production: Production,
    unlocks: set<string>,            // names passed to game.unlock
    mentorUnlocked: bool,
    managerUnlocked: bool,
    chaos: map<string, real>,        // game.chaos, computed elsewhere, only read here
    notices: seq<Notice>)
  {
    function Stock(k: Resource): real
    {
      match k
      case Wood => wood
      case Food => food
      case Stone => stone
    }

    /** `game.<k> += amount`: one stock grows by `amount`, nothing else changes. */
    function Grant(k: Resource, amount: real): (s: State)
      ensures s.Stock(k) == Stock(k) + amount
      ensures forall j :: j != k ==> s.Stock(j) == Stock(j)
      ensures s.(wood := wood, food := food, stone := stone) == this
    {
      match k
      case Wood => this.(wood := wood + amount)
      case Food => this.(food := food + amount)
      case Stone => this.(stone := stone + amount)
    }
  }
}
