/** The game object the upgrade effects and the tutorial work on. Its fields are the parts
    of `game` that assets/js/upgradeList.js and assets/js/tutorial.js read and write; they
    are updated in place, one statement at a time, as the effect callbacks and
    `updatePopups` do. */
module Village {
  import opened World
  import opened UpgradeList
  import opened Offers
  import Tutorial

  class Game {
    var wood: real
    var food: real
    var stone: real
    var lumberjack: int
    var levels: Levels
    var production: Production
    var unlocks: set<string>
    var mentorUnlocked: bool
    var managerUnlocked: bool
    var chaos: map<string, real>
    var notices: seq<Notice>
    /** `this.tutorial`, the object holding the pop-up flags. */
    var tutorial: Tutorial.Shown
    /** One entry per catalog definition: its current cost, completions and whether it is gone. */
    var offers: seq<Offer>

    /** The fields the effects and the tutorial conditions are about, as one value. */
    function Snapshot(): State
      reads this`wood, this`food, this`stone, this`lumberjack, this`levels, this`production,
            this`unlocks, this`mentorUnlocked, this`managerUnlocked, this`chaos, this`notices
    {
      State(wood, food, stone, lumberjack, levels, production, unlocks,
            mentorUnlocked, managerUnlocked, chaos, notices)
    }

    /** One entry per definition, each as it stands after the completions it records. */
    ghost predicate Valid()
      reads this
    {
      && |offers| == |Catalog|
      && forall i :: 0 <= i < |Catalog| ==> offers[i] == AfterCompletions(Catalog[i], offers[i].completions)
    }

    /** A repeatable upgrade's current cost is its defined cost times its scaling to the power
        of the number of times it has completed. */
    lemma CurrentCost(i: nat, r: Resource)
      requires Valid() && i < |Catalog| && !Catalog[i].once && r in Catalog[i].cost
      ensures !offers[i].gone
      ensures Catalog[i].scaling.Some? && r in offers[i].cost
      ensures offers[i].cost[r] == Scaled(Catalog[i].cost[r] as real, Pow(Catalog[i].scaling.value, offers[i].completions))
    {
      CatalogWellFormed();
      RepeatableCost(Catalog[i], offers[i].completions, r);
    }

    /** A game starting from `start`, with every tutorial flag clear and every definition as
        written in the catalog. */
    constructor(start: State)
      ensures Valid()
      ensures Snapshot() == start
      ensures fresh(tutorial) && tutorial.Value() == {}
      ensures forall i :: 0 <= i < |Catalog| ==> offers[i] == Fresh(Catalog[i])
    {
      wood, food, stone := start.wood, start.food, start.stone;
      lumberjack, levels, production := start.lumberjack, start.levels, start.production;
      unlocks, mentorUnlocked, managerUnlocked := start.unlocks, start.mentorUnlocked, start.managerUnlocked;
      chaos, notices := start.chaos, start.notices;
      tutorial := new Tutorial.Shown();
      offers := seq(|Catalog|, i requires 0 <= i < |Catalog| => Fresh(Catalog[i]));
    }

    /** `game.<k> += amount`. */
    method Add(k: Resource, amount: real)
      modifies this
      ensures Snapshot() == old(Snapshot()).Grant(k, amount)
      ensures tutorial == old(tutorial) && offers == old(offers)
    {
      match k
      case Wood => wood := wood + amount;
      case Food => food := food + amount;
      case Stone => stone := stone + amount;
    }

    /** One statement of an effect callback, executed on the fields. */
    method Perform(st: Stmt)
      modifies this
      ensures Snapshot() == Exec(st, old(Snapshot()))
      ensures tutorial == old(tutorial) && offers == old(offers)
    {
      match st
      case RaiseLevel(k) => levels := levels.Raise(k);
      case AddLumberjacks(n) => lumberjack := lumberjack + n;
      case Unlock(name) => unlocks := unlocks + {name};
      case Gain(k, a) => Add(k, a as real);
      case ScaleRate(r, f) => production := production.Set(r, production.Get(r) * f);
      case ShiftRate(r, d) => production := production.Set(r, production.Get(r) + d);
      case DiscardProduct(r, f) =>
        var unused := production.Get(r) * f;
      case MarkMentor => mentorUnlocked := true;
      case MarkManager => managerUnlocked := true;
      case LogEvent => notices := notices + [EventLog];
      case ShowStory => notices := notices + [StoryShown];
    }

    /** `effect(game)`: an effect callback's statements run on the fields, first to last. */
    method ApplyEffect(body: seq<Stmt>)
      modifies this
      ensures Snapshot() == Run(body, old(Snapshot()))
      ensures tutorial == old(tutorial) && offers == old(offers)
    {
      var k := 0;
      while k < |body|
        invariant 0 <= k <= |body|
        invariant Snapshot() == Run(body[..k], old(Snapshot()))
        invariant tutorial == old(tutorial) && offers == old(offers)
      {
        assert body[..k + 1] == body[..k] + [body[k]];
        RunSnoc(body[..k], body[k], old(Snapshot()));
        Perform(body[k]);
        k := k + 1;
      }
      assert body[..k] == body;
    }

    /** An upgrade is bought and completes, as one step: its effect runs and its entry is
        updated — a one-shot disappears, a repeatable one has its cost multiplied by its
        scaling. A definition
        that has already disappeared is left alone and `done` is false. */
    method Finish(i: nat) returns (done: bool)
      requires Valid() && i < |Catalog|
      modifies this
      ensures Valid()
      ensures done == !old(offers[i].gone)
      ensures done ==> Snapshot() == Run(Catalog[i].effect, old(Snapshot()))
      ensures done ==> offers == old(offers)[i := Completed(Catalog[i], old(offers[i]))]
      ensures !done ==> Snapshot() == old(Snapshot()) && offers == old(offers)
      ensures tutorial == old(tutorial)
    {
      if offers[i].gone {
        return false;
      }
      CatalogWellFormed();
      ApplyEffect(Catalog[i].effect);
      offers := offers[i := Completed(Catalog[i], offers[i])];
      done := true;
    }

    /** `updatePopups`: the guarded writes in source order, each requesting its pop-up
        (`showPopup`) and setting its flag when its condition holds and its flag is clear.
        Only the flags change; they end up as the latching rule says, and the requests are
        the due checkpoints in order. */
    method UpdatePopups() returns (requests: seq<Tutorial.Request>)
      modifies tutorial
      ensures tutorial.Value() == Tutorial.Latched(old(tutorial.Value()), Snapshot())
      ensures requests == Tutorial.Requests(old(tutorial.Value()), Snapshot())
      ensures Snapshot() == old(Snapshot()) && offers == old(offers)
    {
      ghost var f, s := tutorial.Value(), Snapshot();
      requests := [];
      var k := 0;
      while k < |Tutorial.Order|
        invariant 0 <= k <= |Tutorial.Order|
        invariant Snapshot() == s
        invariant tutorial.Value() == Tutorial.LatchedOver(f, s, Tutorial.Order[..k])
        invariant requests == Tutorial.Pending(f, s, Tutorial.Order[..k])
      {
        var c := Tutorial.Order[k];
        Tutorial.WriteStep(f, s, k);
        if Tutorial.Holds(c, Snapshot()) && !tutorial.Has(c) {
          requests := requests + [Tutorial.Popup(c)];
          tutorial.Mark(c);
        }
        k := k + 1;
      }
      assert Tutorial.Order[..k] == Tutorial.Order;
    }
  }
}
