# Village upgrades and tutorial pop-ups, modelled in Dafny

This project models two parts of an incremental village-building browser game:

- **The upgrade catalog** (`assets/js/upgradeList.js`). It holds the `Upgrade` schema and all
  35 upgrade definitions, in four groups: main progression, job upgrades, story upgrades and
  random upgrades. Each definition has a kind (craft or research), a cost in wood, food and
  stone, a duration, a one-shot flag, an optional cost scaling and an optional level
  requirement. Each also has an effect callback, the "function to run on buy".
- **The tutorial** (`assets/js/tutorial.js`). Ten one-way flags record which pop-up has
  been shown. `updatePopups` asks for each pop-up the first time its condition on the game
  state holds. `showPopup` places the pop-up next to its target element or in the middle of
  the viewport.

The Dafny modules:

| module | file | contents |
|---|---|---|
| `World` | `world.dfy` | The parts of the game state the effects and pop-ups use, as values: stocks, buildings (`levels`), production rates, unlocked features, the chaos map and log/story notices. |
| `UpgradeList` | `upgrade_list.dfy` | The schema as a datatype. The catalog as constants in source order. Each effect callback as the sequence of statements it runs, with `Run` giving their meaning. Lemmas about the schema, gating, visibility and each effect. |
| `Offers` | `offers.dfy` | What the field comments promise about an entry over a game: a one-shot entry disappears once bought, and a repeatable one has its cost multiplied by its scaling at each completion. |
| `Tutorial` | `tutorial.dfy` | The checkpoints and their conditions. The flag object as a class (`Shown`). The specification of one `updatePopups` call: which flags latch and which pop-ups are asked for, in what order. |
| `Placement` | `placement.dfy` | `showPopup`'s placement arithmetic: anchored beside or below the target and clamped into the viewport, or centred when there is no target. |
| `Village` | `village.dfy` | The game object as a class (`Game`), whose fields are updated in place. It runs an effect callback statement by statement, buys an upgrade (purchase and completion as one step), and runs `updatePopups`. Each operation is proved against the value-level functions above. |

`updatePopups` runs ten guarded writes in a fixed order. `Game.UpdatePopups` does the same as one loop over the checkpoints in that order. Its loop invariant says that after the first `k` checkpoints:

- the flags are those `LatchedOver` computes for `Order[..k]`;
- the requests are those `Pending` computes for `Order[..k]`.

The functions `Latched` and `Requests` describe a whole call, and the lemmas in `Tutorial` prove what the source promises about them:

- a flag never goes back to false;
- a pop-up is asked for exactly when its condition holds and its flag is clear;
- requests come out in declaration order;
- a second call on the same state does nothing.

## Model

| member | source | states |
|---|---|---|
| World.Levels.Raise | assets/js/upgradeList.js:34 | `levels.<k> += 1` adds one to that building's level and leaves every other level unchanged |
| World.Production.Set | assets/js/upgradeList.js:96 | `game.production.<rate> *= f` (or `+=`, `-=`) assigns exactly that production field and leaves the others unchanged |
| World.State.Grant | assets/js/upgradeList.js:652 | `game.<resource> += amount` adds the amount to that one stock; the other stocks and the rest of the state are unchanged |
| UpgradeList.RunSnoc | assets/js/upgradeList.js:17 | An effect callback runs its statements first to last: appending a statement runs it after the others |
| UpgradeList.RunKeepsLevels | assets/js/upgradeList.js:225-243 | An effect with no `levels` statement (such as 導師計劃's) leaves every building level as it was |
| UpgradeList.RunRaisesOnce | assets/js/upgradeList.js:33-42 | An effect whose only `levels` statement is `levels.<k> += 1` raises level `k` by exactly one and no other level |
| UpgradeList.RunNeverLowersStocks | assets/js/upgradeList.js:651-652 | An effect that adds only non-negative amounts never lowers a stock |
| UpgradeList.ExecNeverLowersStocks | assets/js/upgradeList.js:652 | A single statement that adds a non-negative amount (or touches no stock) never lowers a stock |
| UpgradeList.RunKeepsUnlocks | assets/js/upgradeList.js:36-37 | `game.unlock` only adds names: unlocks survive an effect, and the only new ones are those the effect passes to `unlock` |
| UpgradeList.CatalogAt | assets/js/upgradeList.js:21-759 | The catalog has 35 entries: 12 progression, then 14 jobs, then 3 story, then 6 random, in source order |
| UpgradeList.CatalogWellFormed | assets/js/upgradeList.js:7-19 | Every definition obeys the schema: a non-empty cost with positive amounts, a positive duration, a scaling above 1 exactly when the entry repeats (none on a one-shot entry), and a requirement whose minimum is at least 1 |
| UpgradeList.CatalogCostsPositive | assets/js/upgradeList.js:12 | Every amount of every catalog cost is positive |
| UpgradeList.LaterGroupsGated | assets/js/upgradeList.js:264-759 | Every job, story and random upgrade is one-shot and has a requirement |
| UpgradeList.RepeatableScalings | assets/js/upgradeList.js:44-224 | Exactly the entries at indices 1, 3, 5, 7 and 9 repeat, with scalings 1.5, 4, 4, 2 and 2 |
| UpgradeList.VisibleMonotone | assets/js/upgradeList.js:16 | A requirement is a minimum level, so raising levels never hides an upgrade that was shown |
| UpgradeList.OnlyTentAtStart | assets/js/upgradeList.js:23-43 | With every level at zero, exactly one definition is visible: 搭建帳篷, the only one without a requirement |
| UpgradeList.QuarryGate | assets/js/upgradeList.js:152 | A definition that requires `["quarry", 2]` is hidden at quarry level 1 and shown from level 2 on |
| UpgradeList.CatalogEffectsSound | assets/js/upgradeList.js:21-759 | Every effect raises at most one level, and every amount it adds to a stock is positive |
| UpgradeList.EffectLevels | assets/js/upgradeList.js:21-759 | Running any catalog effect either raises exactly one building by one or leaves all levels unchanged |
| UpgradeList.Builder | assets/js/upgradeList.js:23-224 | For each building, names a one-shot catalog entry and the statement of its effect that runs `levels.<k> += 1` |
| UpgradeList.RequiredLevelsAreRaised | assets/js/upgradeList.js:16 | Every level a requirement names is raised, by exactly one, by some catalog effect, so no requirement waits on a level nothing can build |
| UpgradeList.PitchTentEffect | assets/js/upgradeList.js:33-42 | 搭建帳篷: tent level + 1, two lumberjacks, the `assign` and `income` features unlocked, one log entry |
| UpgradeList.ExpandTentEffect | assets/js/upgradeList.js:56-63 | 展開帳篷: tent level + 1 and one lumberjack, with nothing else changed but the log |
| UpgradeList.BackSupportEffect | assets/js/upgradeList.js:467-473 | 背部支撐 computes `production.lumberjack * 1.75` and discards it: production is unchanged and only the log grows |
| UpgradeList.HuntWildlifeEffect | assets/js/upgradeList.js:651-657 | 追捕當地野生動物: food + 40 and a log entry, nothing else |
| UpgradeList.FellGreatOakEffect | assets/js/upgradeList.js:670-676 | 砍倒了一棵大橡樹: wood + 100 and a log entry, nothing else |
| UpgradeList.LevelGroundEffect | assets/js/upgradeList.js:689-695 | 平整地面: stone + 120 and a log entry, nothing else |
| UpgradeList.CatchSeaMonsterEffect | assets/js/upgradeList.js:708-714 | 把深海巨獸釣出來: food + 200 and a log entry, nothing else |
| UpgradeList.ExploreBasicsEffect | assets/js/upgradeList.js:729-735 | 探索基礎知識: wood + 1000 and stone + 1000; food is unchanged |
| UpgradeList.ForeignTribeEffect | assets/js/upgradeList.js:749-756 | 外來部落: wood + 1600, stone + 1600 and food + 800 |
| UpgradeList.EffectsNeverLowerStocks | assets/js/upgradeList.js:21-759 | No catalog effect lowers the wood, food or stone stock |
| Offers.Fresh | assets/js/upgradeList.js:12 | Before its first completion an entry costs exactly its defined amounts, has no completions and has not disappeared |
| Offers.Completed | assets/js/upgradeList.js:14-15 | One completion: a one-shot entry disappears with its cost unchanged; a repeatable entry stays and each amount is multiplied by its scaling |
| Offers.AfterCompletions | assets/js/upgradeList.js:14-15 | After `n` completions an entry has `n` completions and the same cost resources, and it has disappeared exactly when it is one-shot and `n > 0` |
| Offers.CompletionStep | assets/js/upgradeList.js:15 | Each completion of a repeatable entry multiplies each of its cost amounts by its scaling |
| Offers.RepeatableCost | assets/js/upgradeList.js:15 | A repeatable entry never disappears, and after `n` completions each cost amount is its base amount times scaling to the power `n` |
| Offers.CostNeverFalls | assets/js/upgradeList.js:15 | For a well-formed repeatable entry, no cost amount ever falls from one completion to the next |
| Offers.OnceGoneForGood | assets/js/upgradeList.js:14 | A one-shot entry has disappeared once bought and is never offered again, whatever the levels |
| Offers.OfferedExactly | assets/js/upgradeList.js:14-16 | The list shows exactly the entries that have not disappeared and whose requirement is met, each once and in catalog order |
| Tutorial.Rank | assets/js/tutorial.js:10-21 | Each of the ten flags has a position below 10 in declaration order |
| Tutorial.OrderRank | assets/js/tutorial.js:10-21 | `Rank` is the checkpoint's position in the declaration order |
| Tutorial.Shown.constructor | assets/js/tutorial.js:10-21 | All ten flags start false |
| Tutorial.Shown.Mark | assets/js/tutorial.js:31 | `this.tutorial.<c> = true` sets that one flag and leaves the others as they were |
| Tutorial.Shown.Value | assets/js/tutorial.js:10-21 | The set of shown checkpoints contains exactly the checkpoints whose flag is true |
| Tutorial.Popup | assets/js/tutorial.js:27-30 | Every pop-up request has an anchor selector; a tab, when one is given, is `assign` (`research` for the academy pop-up) |
| Tutorial.LatchedHas | assets/js/tutorial.js:25-128 | After a call a flag is set exactly when it was set before or its condition holds |
| Tutorial.PendingExactly | assets/js/tutorial.js:25-128 | A run of guarded writes asks for a checkpoint's pop-up exactly when that checkpoint is among them and is due (its condition holds and its flag is clear) |
| Tutorial.RequestIffDue | assets/js/tutorial.js:25-128 | A call asks for a pop-up if and only if its condition holds and its flag was clear on entry |
| Tutorial.PendingArePopups | assets/js/tutorial.js:27-30 | Every request is the `showPopup` call of its own checkpoint |
| Tutorial.PendingInOrder | assets/js/tutorial.js:25-128 | The requests of a run of guarded writes come out in the order of those writes |
| Tutorial.RequestsInOrder | assets/js/tutorial.js:25-128 | Several pop-ups can be asked for in one call, and they come out in declaration order |
| Tutorial.PendingSnoc | assets/js/tutorial.js:116-127 | One more guarded write at the end adds its own request, if due, after the earlier ones |
| Tutorial.WriteStep | assets/js/tutorial.js:26-31 | Each guarded write reads its own flag as it was on entry (no earlier write touches it), sets the flag when its condition holds, and adds its request when it is due |
| Tutorial.FlagsNeverReset | assets/js/tutorial.js:25-128 | Flags only go from false to true, and a clear flag is set by a call exactly when its pop-up is due |
| Tutorial.NothingPending | assets/js/tutorial.js:25-128 | When no checkpoint is due, nothing is asked for |
| Tutorial.SecondCallQuiet | assets/js/tutorial.js:25-128 | A second call on the same state asks for nothing and sets no further flag |
| Tutorial.FirstCallRequests | assets/js/tutorial.js:26-41 | With 12 wood, 10 food and nothing built or unlocked, the first call asks for exactly two pop-ups: the resource pop-up, then the tent pop-up |
| Tutorial.FirstCallFlags | assets/js/tutorial.js:26-41 | The same call sets exactly the resource and tent flags |
| Tutorial.LatchedMonotone | assets/js/tutorial.js:25-128 | More flags set before a call give more flags set after it |
| Placement.Clamp | assets/js/tutorial.js:185-194 | `min(max(x, 0), hi)` is at most `hi`, at least 0 when `hi` is, and is `x` itself when `x` is already within bounds |
| Placement.PopupPosition | assets/js/tutorial.js:144-211 | The step-by-step computation of `left` and `top` gives the placement `Place` describes |
| Placement.BesideChoice | assets/js/tutorial.js:158-182 | On its axis the pop-up goes just past the target if it fits, and two margins and its own size before the target otherwise |
| Placement.BesideClear | assets/js/tutorial.js:158-182 | With a non-negative margin the pop-up's box does not overlap the target on the axis it was moved along |
| Placement.CentredWithoutTarget | assets/js/tutorial.js:205-211 | Without a target the pop-up's centre is the viewport's centre |
| Placement.AnchoredKeepsOtherAxis | assets/js/tutorial.js:152-157 | Anchored placement moves along one axis only: beside the target when the viewport is at least as wide as high, below it otherwise |
| Placement.ClampedIntoViewport | assets/js/tutorial.js:185-194 | After the clamp the pop-up starts no further than the viewport size minus its size and two margins, and not before the viewport's edge when it fits |
| Placement.PlacedClearOfTarget | assets/js/tutorial.js:152-194 | When the clamp does not move it, an anchored pop-up does not cover its target |
| Placement.CentredExample | assets/js/tutorial.js:205-211 | In a 1000 × 800 viewport a 300 × 200 pop-up without a target goes to (350, 300) |
| Placement.AnchoredExample | assets/js/tutorial.js:158-172 | A target at x = 900 with width 50 leaves no room on the right, so the pop-up goes to the left at 580 |
| Village.Game.constructor | assets/js/tutorial.js:10-21 | A new game has its given state, every tutorial flag clear and every catalog entry as defined (so each entry stands as after zero completions) |
| Village.Game.Perform | assets/js/upgradeList.js:33-42 | Running one statement of an effect updates the game's fields as its meaning `Exec` says, and leaves the tutorial and the upgrade list alone |
| Village.Game.Add | assets/js/upgradeList.js:652 | `game.<resource> += amount` on the fields changes the game state as `Grant` says: that stock grows by the amount and nothing else changes |
| Village.Game.ApplyEffect | assets/js/upgradeList.js:17 | `effect(game)` updates the fields as `Run` says for the callback's statements, taken first to last |
| Village.Game.Finish | assets/js/upgradeList.js:14-17 | Buying (and completing) an upgrade that has not disappeared runs its effect and updates its entry as `Completed` says, so every entry still stands as after the completions it records; an entry that has disappeared changes nothing |
| Village.Game.CurrentCost | assets/js/upgradeList.js:14-15 | In a running game a repeatable upgrade has not disappeared, and each cost amount is its defined amount times its scaling to the power of its completions so far |
| Village.Game.UpdatePopups | assets/js/tutorial.js:25-128 | The flags end up as `Latched` says and the requests are `Requests` (the due checkpoints in declaration order); the game state and the upgrade list are unchanged |

## Left out

- The DOM, timers (`setTimeout`), styles, z-index, the dismiss listener and tab-button clicks are left out. Placement takes the viewport size, the target box, the pop-up size and the margin as parameters.
- Names, descriptions, log texts and pop-up texts are not modelled. A log entry or story start is recorded only as a `Notice`.
- The story sequence that `showStory` plays, including the commented-out game-over, is not modelled; only the fact that a story starts is.
- The shop around a purchase is left out: the affordability check, deducting the cost, the `duration` timer and the game's tick loop are in shop code that is not part of this model.
- Village.Game.Finish: buying and completing an upgrade are one step in the model. In the source a one-shot entry disappears when it is bought (upgradeList.js:14) and the effect is the function run on buy (upgradeList.js:17), while the cost scaling happens at each completion (upgradeList.js:15). The `duration` window between purchase and completion (upgradeList.js:13) is not modelled, so during construction a one-shot entry is still `!gone` and on offer in the model, where in the source it has already disappeared.
- `game.chaos` is computed elsewhere. Here it is only read, as a map from names to numbers.
- `game.unlock` is modelled as adding its argument to a set of names. What unlocking does to the interface is not part of this model.
- `this.unlocks.mentor` and `this.unlocks.manager` are modelled as set membership. `this.chaos.pier > 0` is false when the entry is missing, as `undefined > 0` is.
- The flag object lives on `Game.prototype`, so every game instance shares it. The model gives each `Game` its own `Shown` object, and this sharing is not modelled.
- Numbers are real numbers, not IEEE doubles, so rounding is not modelled.
- Placement.PopupPosition: the margin is a whole number. The case where `parseInt` returns `NaN` is not modelled.
- Village.Game.UpdatePopups: the ten guarded `if` blocks are modelled as one loop over the checkpoints in source order. Each block's condition is taken from `Tutorial.Holds`, and each write goes through `Shown.Mark`.
- 背部支撐's effect computes `production.lumberjack * 1.75` and discards the result. It is kept as a statement that changes nothing (`DiscardProduct`).
