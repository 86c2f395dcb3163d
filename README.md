# WebRewards reward lifecycle in Dafny

WebRewards is a Minecraft (Bukkit) plugin. `/rewards` gives a player an offer
of three random rewards. The offer has a random id, and the player claims it on a
web page at `<base>?reward_id=<id>`. While the gate's database query works,
the player may then not receive another offer for two hours. An operator can lift that wait with
`/rewards reset <name>`. The plugin keeps its state in three SQL tables:

- `rewards_web`: the pending offer of each player, keyed by player;
- `rewards_usage`: the time of each player's last issuance, keyed by player;
- `rewards_log`: the claimed rewards, append-only and unkeyed.

This project models that lifecycle and proves its properties. It swaps the
SQL for three Dafny values: two maps keyed by player and a sequence. Times are
whole seconds. Randomness, the clock and database failures are parameters:

- the shuffle is a permutation of catalog positions;
- the offer id is the fresh id given in `Env`;
- a `Fault` says which statement or commit throws.

Files and modules:

- `catalog.dfy`, module `Catalog`: the `Reward` record and the draw
  `shuffled().take(count)`. It proves that the draw has `min(count, |catalog|)`
  entries and never takes a catalog position twice (a sub-multiset).
- `store.dfy`, module `Store`: the tables as a value, plus each operation's
  effect as a function of the tables before it:
  - the cooldown gate, which fails open;
  - the all-or-nothing save and claim transactions;
  - the reset;
  - the issue path.

  It also holds the lemmas about these functions.
- `lifecycle.dfy`, module `Lifecycle`: runs of many operations. The log only
  grows. A cooldown started by an issue lasts until that player is reset,
  under two conditions: the gate's query works when it is asked, and no
  later issue to that player reads a clock earlier than the one that started
  the cooldown. Without the second condition the cooldown can end early
  (`Lifecycle.ClockBackShortensCooldown`). A failing query lets an issue
  through at any clock value, and that issue writes the time it read.
- `command.dfy`, module `Command`: the pure decision `onCommand` takes from
  the command name, the arguments, and whether the sender is a player and
  whether an operator.
- `plugin.dfy`, module `Plugin`: the class `WebRewards`. Its fields are the
  three tables. `SaveReward`, `ClaimReward` and `ResetRewards` change them one
  statement at a time and roll back on a throw. `Issue` and `OnCommand` drive
  them. Each method is proved against the `Store` function for that operation.

Behaviour of the code that the model keeps, where one might expect otherwise:

- `claimReward` logs one reward, not the three of an offer. It does not check
  whether a pending offer exists, or whether its id matches: it deletes by
  player only. Claiming is therefore not exactly-once. `Store.ClaimIgnoresOffer`
  and `Store.ClaimTwiceLogsTwice` show this. No code in
  `WebRewards.kt` calls `claimReward`, so the claim path exists only as
  that function.
- The gate fails open. With no connection, or when its query throws, it allows
  issuance (`Store.FailOpenIssuesInsideCooldown`).
- `saveReward` reports nothing to its caller. So the player gets the claim
  address even when the save was rolled back or there was no connection
  (`Plugin.IssueReply`).
- The gate and the save are separate database calls, not one transaction.

## Model

| member | source | states |
|---|---|---|
| `Catalog.Draw` | src/main/java/cz/hesovodoupe/webrewards/WebRewards.kt:192-201 | the draw has `min(count, |catalog|)` rewards in shuffle order, each from the catalog, and forms a sub-multiset of the catalog (no position used twice) |
| `Catalog.PickSubMultiset` | src/main/java/cz/hesovodoupe/webrewards/WebRewards.kt:201 | taking entries at distinct positions takes each catalog entry at most once |
| `Catalog.DrawAllIsPermutation` | src/main/java/cz/hesovodoupe/webrewards/WebRewards.kt:201 | a draw of at least the catalog's size is a rearrangement of the whole catalog |
| `Store.CanUse` | src/main/java/cz/hesovodoupe/webrewards/WebRewards.kt:162-189 | the gate denies exactly when there is a connection, the query succeeds, a usage row exists and `now < lastUsed + 7200`; with no row, no connection or a failing query it allows |
| `Store.GateBoundary` | src/main/java/cz/hesovodoupe/webrewards/WebRewards.kt:171-179 | at `lastUsed + 7199` the player is denied, at `lastUsed + 7200` allowed |
| `Store.GateMonotone` | src/main/java/cz/hesovodoupe/webrewards/WebRewards.kt:174 | once allowed, a player stays allowed at every later time |
| `Store.SaveSpec` | src/main/java/cz/hesovodoupe/webrewards/WebRewards.kt:205-253 | on commit, `pending[p]` becomes the new offer with the first three rewards in draw order and `usage[p]` the new time; on any failure or without a connection the tables are unchanged; other players' rows and the log never change |
| `Store.ClaimSpec` | src/main/java/cz/hesovodoupe/webrewards/WebRewards.kt:256-298 | on commit, exactly one row `(p, id, reward, now)` is appended to the log and `pending[p]` is removed; otherwise nothing changes; usage and other players' offers never change |
| `Store.ResetSpec` | src/main/java/cz/hesovodoupe/webrewards/WebRewards.kt:301-315 | a successful reset removes only `usage[p]`; pending offers and the log never change; a failing one changes nothing |
| `Store.IssueSpec` | src/main/java/cz/hesovodoupe/webrewards/WebRewards.kt:126-142 | a denied gate or a catalog under three leaves the tables unchanged; otherwise a commit stores the offer `(now, id, catalog[perm[0..2]])` and `usage[p] = now`; the log and other players' rows never change |
| `Store.IssueStartsCooldown` | src/main/java/cz/hesovodoupe/webrewards/WebRewards.kt:229-235 | after an issue commits at `now`, the gate denies that player at every time before `now + 7200` |
| `Store.IssueAdvancesCooldown` | src/main/java/cz/hesovodoupe/webrewards/WebRewards.kt:126-130 | while the gate's query works, a player's usage time stays put or moves forward by at least 7200 |
| `Store.FailOpenIssuesInsideCooldown` | src/main/java/cz/hesovodoupe/webrewards/WebRewards.kt:183-188 | a player still inside the cooldown gets a new offer and usage time when the gate's query throws |
| `Store.ClaimIgnoresOffer` | src/main/java/cz/hesovodoupe/webrewards/WebRewards.kt:274-280 | a claim is logged even when no offer, or an offer under another id, is pending |
| `Store.ClaimTwiceLogsTwice` | src/main/java/cz/hesovodoupe/webrewards/WebRewards.kt:262-271 | claiming the same offer twice appends two log rows (claims are not once-only) |
| `Store.ClaimKeepsCooldown` | src/main/java/cz/hesovodoupe/webrewards/WebRewards.kt:256-298 | a claim, committed or not, leaves every player's gate answer as it was |
| `Store.ResetIdempotent` | src/main/java/cz/hesovodoupe/webrewards/WebRewards.kt:304-309 | resetting twice equals resetting once; resetting a player without a usage row changes nothing |
| `Store.ResetReopensGate` | src/main/java/cz/hesovodoupe/webrewards/WebRewards.kt:301-309 | after a successful reset the player passes the gate at any time |
| `Lifecycle.LogAppendOnly` | src/main/java/cz/hesovodoupe/webrewards/WebRewards.kt:262-271 | across any run of operations the old log is a prefix of the new one |
| `Lifecycle.UsagePersists` | src/main/java/cz/hesovodoupe/webrewards/WebRewards.kt:229-235 | a usage time of at least `since` stays at least `since` across operations that do not reset the player, while no issue to that player reads a time before `since` |
| `Lifecycle.DeniedUntilReset` | src/main/java/cz/hesovodoupe/webrewards/WebRewards.kt:126-142 | after an issue commits at `now`, across operations without a reset of that player and in which no issue to that player reads a clock earlier than `now`, a gate whose query works denies the player at every time before `now + 7200` |
| `Lifecycle.ClockBackShortensCooldown` | src/main/java/cz/hesovodoupe/webrewards/WebRewards.kt:183-188 | when the clock runs back to `earlier` and the gate's query throws, the fail-open issue writes `earlier`; a working gate then allows the player at `earlier + 7200`, where the first issue alone would still deny |
| `Lifecycle.ResetLiftsCooldown` | src/main/java/cz/hesovodoupe/webrewards/WebRewards.kt:144-148 | an issue with any outcome, followed by a reset, leaves the player allowed at any time |
| `Command.Dispatch` | src/main/java/cz/hesovodoupe/webrewards/WebRewards.kt:119-159 | handled exactly for `rewards` in any case; issue exactly for no arguments from a player; reset of `args[1]` exactly for `[reset, name]` (any case) from an operator; refusal exactly for that from a non-operator |
| `Command.ResetAnyCase` | src/main/java/cz/hesovodoupe/webrewards/WebRewards.kt:144 | `RESET`, `Reset`, `reset` under `REWARDS` all reset for an operator and are refused for anyone else |
| `Command.ResetNeedsOneName` | src/main/java/cz/hesovodoupe/webrewards/WebRewards.kt:144 | `reset` with no name or with two names is handled and does nothing |
| `Plugin.RewardUrl` | src/main/java/cz/hesovodoupe/webrewards/WebRewards.kt:131-132 | the address is the base, then `?reward_id=`, then the offer id |
| `Plugin.IssueReply` | src/main/java/cz/hesovodoupe/webrewards/WebRewards.kt:126-142 | "already claimed" exactly when the gate denies, "not enough rewards" exactly when it allows and the catalog has fewer than three, otherwise the claim address, whether or not the save committed |
| `Plugin.WebRewards.constructor` | src/main/java/cz/hesovodoupe/webrewards/WebRewards.kt:63-116 | the plugin starts over the tables as they already are |
| `Plugin.WebRewards.Rollback` | src/main/java/cz/hesovodoupe/webrewards/WebRewards.kt:240-250 | after a rollback the tables equal those at the start of the transaction |
| `Plugin.WebRewards.SaveReward` | src/main/java/cz/hesovodoupe/webrewards/WebRewards.kt:205-253 | two upserts and a commit, with rollback after any throw, have exactly the effect of `Store.SaveSpec`; reports whether it committed |
| `Plugin.WebRewards.ClaimReward` | src/main/java/cz/hesovodoupe/webrewards/WebRewards.kt:256-298 | the insert, the delete and the commit, with rollback after any throw, have exactly the effect of `Store.ClaimSpec` |
| `Plugin.WebRewards.ResetRewards` | src/main/java/cz/hesovodoupe/webrewards/WebRewards.kt:301-315 | the single delete has exactly the effect of `Store.ResetSpec` |
| `Plugin.WebRewards.Issue` | src/main/java/cz/hesovodoupe/webrewards/WebRewards.kt:126-142 | gate, draw of three and save have the effect of `Store.IssueSpec` and answer `Plugin.IssueReply` |
| `Plugin.WebRewards.OnCommand` | src/main/java/cz/hesovodoupe/webrewards/WebRewards.kt:119-159 | returns whether the command was handled, and for each action of `Command.Dispatch` gives the new tables and the message; refusals and no-ops leave the tables unchanged |

## Left out

- Connection setup and teardown (`DatabaseManager.kt`), configuration loading and logging (`onEnable`, `onDisable` and its `synchronized` block) are I/O. The model keeps only whether a connection exists (`connected`).
- Table creation: only the key structure of the three tables is modelled. A table is a map when it has a key and a sequence when it has none.
- Randomness: `shuffled()` is the permutation `perm`, and `UUID.randomUUID()` is the given `freshId`. That UUIDs are unique cannot be stated.
- The clock: `canUseRewards` and `saveReward` read `Instant.now()` three times, and the model uses one `now` for all three. `SaveReward` itself takes the offer time and the usage time separately. Sub-second precision and the database's rounding of timestamps are not modelled.
- Reading the catalog from the configuration: a missing `rewards` section is the empty catalog. An entry without `img`, `command` or `labelName` makes `!!` throw, and that is not modelled.
- A failing rollback is not modelled: rollback always restores the state before the transaction. The source also leaves `autoCommit` off after a failed transaction, so a later `resetRewards` stays uncommitted until the next commit on that connection. If the next `saveReward` or `claimReward` then fails, its rollback returns to the last commit and discards that reset too; a disconnect may discard it as well. The model treats every reset as committed at once, and `Plugin.WebRewards.Rollback` restores the tables as they were when the method began, not as of the last commit.
- `Command.EqualsIgnoreCase`: folds only ASCII letters. Kotlin's `equals(ignoreCase = true)` folds Unicode letters too.
- Chat messages and colours, the `%url%` and `%player%` substitutions, and a null configured address (printed as `null`). `Bukkit.getOfflinePlayer` is a foreign call: the id it resolves a name to is the `resolved` input.
- Concurrency: races between players, between two commands of one player, and with the web claimer. The code takes no measure against them, and every operation here is sequential.
- Exceptions other than `SQLException` (for example a draw of fewer than three passed to `saveReward`, which `Issue` never does) are outside the model.
