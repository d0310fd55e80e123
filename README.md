# Idle-clicker economy engine, modelled in Dafny

This project models the economy engine inside the `App` component of `App.tsx`. The engine is a
single-writer state machine over the player's points, vault, click count, prestige level, timed lab
boosts, quests, clans (bank, members, roles, one chat channel), clan membership, used redemption
codes, ban list and admin flag, plus the session-only global chat feed and clock.

Layout, one module per concept of the component:

- `ranks.dfy` (`Ranks`): the rank-tier table and `currentRank`, a reverse find over the table.
- `boosts.dfy` (`Boosts`): lab boosts, i.e. which are active at a moment, the expiry sweep, passive
  income per tick, click power and the consumable xenon shield.
- `quests.dfy` (`Quests`): `updateQuest` with capped progress, claim once, and the admin reset.
- `chat.dfy` (`Chat`): messages and the 50-message feed bound (`slice(-49)` then append).
- `clans.dfy` (`Clans`): clans and their single-clan mutations (bank credit and debit with
  `clanPoints = floor(balance / 250)`, join, recruit, leave, post), the 25-member cap, the
  role-based withdraw permission, and one tick of bot activity.
- `codes.dfy` (`Codes`): code normalisation (upper-case, then trim), the fixed code registry, single
  use, and the two admin codes that are reusable forever.
- `wager.dfy` (`Wager`): gamble resolution from one draw in [0, 1) and its payout.
- `economy.dfy` (`Economy`): class `Game` holds the component's state fields. Each handler is a
  method, and so is the one-second tick. Each instance method promises `Valid()` and states its exact new
  `State()` in terms of the old one. The static `StepClans` is the tick's loop over the registry.
- `text.dfy`, `seqs.dfy`, `wrappers.dfy`: ASCII `toUpperCase`/`trim`, decimal rendering of a
  timestamp, `filter`/`find`, and `Option`.

Randomness and time are inputs:

- The gamble draw and the cobalt critical draw are `real` values in [0, 1).
- Each clan's bot behaviour on a tick is a `BotRoll`: contribute or not, post or not, which bot posts,
  and the message text.
- The 85% recruit draw is a `bool`. So is the ascension confirmation dialog.
- The global bot post is an `Option<GlobalPost>` carrying the bot's name, random points and text.
- `Date.now()` is the parameter `now`. The tick stores it in `currentTime`.

The iridium multiplier `Math.floor(amt * 1.5)` is written exactly as `amt * 3 / 2`. Dafny's integer
division by a positive divisor is floor division, so `clanPoints = balance / 250` is exact for the
non-negative balances the model keeps.

Three behaviours of the code that a reader might not expect, kept as written:

- The xenon shield removes every xenon entry, not a single one.
- `points` can go negative through the admin injection, so `Valid()` does not bound `points`.
- Joins and recruits do not check member ids for uniqueness, and neither does the model.

## Model

| member | source | states |
|---|---|---|
| `Ranks.TableIsStrictlyIncreasing` | App.tsx:80-94 | the tier minimums strictly increase, tier 0 starts at 0, the Emperor tier (index 4) at 4500 and the top tier at 100000000 |
| `Ranks.LastAtMost` | App.tsx:181 | the reverse find returns the last index below `k` whose minimum is reached, every later index is unreached, and `None` means no index is reached |
| `Ranks.CurrentRank` | App.tsx:181 | the resolved tier is in the table, its minimum is reached for non-negative points, every higher tier is out of reach, and negative points fall back to tier 0 |
| `Ranks.RankIsUniqueBand` | App.tsx:80-94 | for non-negative points, tier `i` is resolved exactly when its minimum is reached and the next tier's minimum (if any) is not |
| `Ranks.RankIsMonotone` | App.tsx:181 | more points never resolve to a lower tier |
| `Text.ToUpper` | App.tsx:182 | upper-casing keeps the length, maps each character by itself, and leaves no lower-case letter |
| `Text.Trim` | App.tsx:469 | trimming never lengthens a string and leaves no whitespace at either end |
| `Text.TrimIsSlice` | App.tsx:469 | the trimmed string is one contiguous slice of the input with only whitespace before and after it |
| `Text.NatToString` | App.tsx:387 | a timestamp renders as a non-empty string of decimal digits that reads back as the same number, with no leading zero |
| `Text.ToUpperIdempotent` | App.tsx:182 | upper-casing an already upper-cased string changes nothing, so the ban check's upper-casing is stable |
| `Text.TrimEmptyIffBlank` | App.tsx:470 | `trim()` leaves nothing exactly when the input is whitespace only, which is the blank test the code and message handlers apply |
| `Seqs.Filter` | App.tsx:220 | `filter` keeps each element exactly as often as it occurs when the predicate holds and drops it otherwise, and membership follows |
| `Seqs.FindFirst` | App.tsx:191 | `find` yields the first index whose element satisfies the predicate, or none when no element does |
| `Boosts.IsActive` | App.tsx:224 | `boosts.find(b => b.id === kind && b.endTime > now)` is truthy, which means a boost of that kind exists in the list with an end time after `now` |
| `Boosts.ActiveIsFind` | App.tsx:224 | the existential reading of activity agrees with the first-match `find` the source calls |
| `Boosts.SweepExpired` | App.tsx:220 | the sweep keeps exactly the boosts with `endTime > now`, with their multiplicities |
| `Boosts.SweepKeepsActive` | App.tsx:220 | sweeping at `now` keeps every boost kind active at `now` or later exactly as active as before |
| `Boosts.RemoveKind` | App.tsx:511 | consuming the shield removes every xenon entry, keeps every other entry with its multiplicity, and leaves every other kind exactly as active as before |
| `Boosts.PassiveIncome` | App.tsx:222-228 | the tick's `autoRate` is at most 5 + 15 + 100 and is zero exactly when none of barium, plutonium and antimatter is active |
| `Boosts.IncomeIgnoresSweep` | App.tsx:220-226 | the income computed from the boosts before the sweep equals the income of the swept list |
| `Boosts.DuplicateDoesNotStack` | App.tsx:224-226 | a second active copy of a kind adds no income, because each collector kind counts once |
| `Boosts.ClickPower` | App.tsx:192-196 | click power is at least `1 + 2 * prestige`, and it is even exactly when radium is active (the doubling) |
| `Boosts.ClickPowerGrowsWithPrestige` | App.tsx:192-196 | each prestige level adds 2 to the click power, or 4 while radium is active |
| `Quests.UpdateQuest` | App.tsx:340-342 | only unclaimed quests of the given type move, only their `current` changes, it becomes `min(target, current + amt)`, and for `amt >= 0` progress never decreases and stays within `0..target` |
| `Quests.Advance` | App.tsx:341 | one quest's step changes only `current`, leaves claimed quests and other types alone, never pushes progress past the target, and for `amt >= 0` keeps an in-range quest in range without going back |
| `Quests.AdvanceCompletes` | App.tsx:340-342 | an unclaimed in-range quest reaches its target exactly when the advance covers the remaining distance |
| `Quests.Claimable` | App.tsx:804 | the claim button's condition: a claimable quest is unclaimed, and an in-range one sits exactly at its target |
| `Quests.MarkClaimed` | App.tsx:805 | after the claim no quest with that id is claimable, only the `claimed` flag of any quest changes, a claimed quest stays claimed, and quests stay in range |
| `Quests.ClaimIsFinal` | App.tsx:804-805 | a claimed quest is no longer claimable and no later advance changes it, so its reward can be credited only once |
| `Quests.ResetAll` | App.tsx:547 | the admin reset changes only progress and the claim flag; afterwards no quest is claimed, a quest is claimable again only if its target is not positive, and with non-negative targets every quest is in range |
| `Quests.ResetKeepsRange` | App.tsx:547 | after a reset every quest with a non-negative target is within range |
| `Chat.AppendBounded` | App.tsx:246 | `[...feed.slice(-49), msg]` has length `min(|feed|, 49) + 1` |
| `Chat.AppendKeepsNewest` | App.tsx:262 | the bounded append is exactly the newest part of `feed + [msg]` |
| `Chat.FeedStaysBounded` | App.tsx:395 | a feed never holds more than 50 messages, the new message is last, and below 50 nothing is dropped |
| `Clans.ClanPointsOf` | App.tsx:239 | `clanPoints` is the floor of `balance / 250`: the largest `p` with `p * 250 <= balance` |
| `Clans.HasMemberNamed` | App.tsx:402 | `c.members.some(m => m.name === name)`: some member of the clan carries that name |
| `Clans.Found` | App.tsx:355-364 | a new clan has an empty bank, the founder as sole Owner member, the default roles and an empty feed, and is well formed |
| `Clans.Apply` | App.tsx:421-427 | every single-clan mutation keeps id, name, owner and roles, keeps the clan well formed (a debit needs a covering balance), moves the balance only for credits and debits, and changes the feed only for posts |
| `Clans.BankUpdateKeepsPoints` | App.tsx:441 | a credit or debit moves the balance by exactly the amount, keeps the members, and leaves `clanPoints == floor(balance / 250)` |
| `Clans.DepositWithdrawRoundTrip` | App.tsx:425-441 | depositing and then withdrawing the same amount restores the clan exactly |
| `Clans.AdmitRespectsCap` | App.tsx:375-379 | a join appends exactly the joiner, and only while the clan has fewer than 25 members |
| `Clans.EnlistSkipsTakenNames` | App.tsx:400-409 | a recruit is appended only below the cap and only when no member has its name, otherwise the clan is unchanged |
| `Clans.ExpelRemovesExactly` | App.tsx:683 | leaving removes every member with the leaver's id and keeps every other member with its multiplicity |
| `Clans.FindClan` | App.tsx:191 | the clan lookup returns the first index holding that id, or none when no clan has it |
| `Clans.SameIdsSameLookup` | App.tsx:191 | two registries with the same ids in the same order answer every clan lookup alike and are equally free of duplicate ids |
| `Clans.UpdateWhere` | App.tsx:419-430 | the registry-wide `map` applies the mutation to exactly the clans with the given id and leaves the others unchanged; it keeps every clan's id and owner, so id uniqueness and every `myClan` lookup are unchanged |
| `Clans.UpdateWhereKeepsInvariants` | App.tsx:441 | every such map keeps all clans well formed and ids unique, provided the targeted balance covers a withdrawal |
| `Clans.AddKeepsInvariants` | App.tsx:366 | appending a well-formed clan with a fresh id keeps the registry invariants |
| `Clans.RoleOf` | App.tsx:435 | the role returned is the first role whose id is the `roleId` of the first member with the actor's id; it is present whenever that member exists and some role has that id, and absent for a non-member |
| `Clans.CanWithdraw` | App.tsx:435-436 | the owner may always withdraw, nobody outside the clan except the owner may, and with no role granting `withdraw` only the owner may |
| `Clans.DefaultRolesGrantWithdraw` | App.tsx:115-119 | under the default roles, withdrawing is allowed exactly for the owner and for a first matching member whose role is Commander or Officer |
| `Clans.FounderMayWithdraw` | App.tsx:436 | in a new clan the founder may withdraw and nobody else may |
| `Clans.BotMessage` | App.tsx:244 | a bot's clan message carries the bot's name, rank and the drawn text, is stamped `now`, is not a player's message, and its id ends with the bot's name |
| `Clans.BotStep` | App.tsx:231-250 | a bot tick keeps the clan well formed, keeps id, members, owner and roles, and adds exactly 50 per bot member when the contribution draw fires and there are bots |
| `Clans.BotPostsComeFromBots` | App.tsx:241-246 | when a tick changes a clan's feed, the post draw fired and the newest message comes from a bot member |
| `Clans.StepAll` | App.tsx:230-251 | the tick's `map` gives each clan its own bot step; every clan keeps its id, members and roles, no balance goes down, and id uniqueness and every clan lookup are unchanged |
| `Clans.StepAllKeepsInvariants` | App.tsx:230-251 | a tick of bot activity keeps every clan well formed and clan ids unique |
| `Codes.Normalize` | App.tsx:469 | the normalised code is no longer than the input, has no lower-case letter, has no whitespace at either end, and is empty exactly when the input is whitespace only |
| `Codes.NormalizeIdempotent` | App.tsx:469 | upper-casing and then trimming an already normalised code changes nothing |
| `Codes.Decide` | App.tsx:470-487 | a code is granted exactly when it is COINS, PLAYER67 or PLAYER123 and unused (radium only for PLAYER123), admin mode is granted exactly for ROOT and ADMINCASH, "already used" means a used, non-admin, non-blank code, and blank means the empty code |
| `Codes.Redeem` | App.tsx:467-487 | a redemption is ignored as blank exactly when the input is whitespace only, a grant needs a code not used before, and with nothing used yet no non-admin code is rejected as already used |
| `Codes.GrantedCodeIsSingleUse` | App.tsx:472-485 | once a code is granted and recorded, any spelling that normalises to it is rejected as already used |
| `Codes.AdminCodesAreReusable` | App.tsx:472-478 | the admin codes grant admin mode whatever codes were used before |
| `Codes.RedeemDependsOnlyOnNormalForm` | App.tsx:469 | case and surrounding whitespace do not change the outcome of a redemption |
| `Wager.Resolve` | App.tsx:502-514 | a resolved gamble is never a rejection, and a shielded outcome needs an active shield |
| `Wager.Payout` | App.tsx:503-508 | the credit after the debit is at most ten times the stake, nothing on a loss, at least twice the stake on a win, and the stake back when shielded |
| `Wager.NetEffect` | App.tsx:495-514 | the net balance change is +9x, +1x, 0 or -1x the stake by band, and the shield matters exactly on a losing draw |
| `Wager.OutcomeBands` | App.tsx:502-505 | the bands partition [0, 1) into widths 0.05 (jackpot), 0.40 (success) and 0.55 (loss or shielded) |
| `Economy.DefaultState` | App.tsx:129-155 | the first-session state is valid, with zero points, no prestige, no clans and no membership |
| `Economy.IsBanned` | App.tsx:182 | a ban needs a non-empty list, and the verdict does not change when the alias and e-mail are upper-cased first |
| `Economy.BanTakesEffect` | App.tsx:540 | banning an alias bans every name that upper-cases to the same string, so case does not matter, and it never lifts an earlier ban |
| `Economy.MyClan` | App.tsx:191 | `myClan` is a clan whose id is `userClanId`, or none when no clan has that id |
| `Economy.DepositCredit` | App.tsx:417-424 | the bank is credited `floor(amt * 1.5)` while iridium is active, otherwise exactly `amt` |
| `Economy.WithGlobalPost` | App.tsx:253-262 | a global bot post, if any, is the newest message, carries the bot's name and the rank of its points, is not a player's message, and keeps the feed bound |
| `Economy.Game.Load` | App.tsx:129-155 | a session starts from a valid saved snapshot, with an empty chat feed and the clock at `now` |
| `Economy.Game.Click` | App.tsx:302-317 | a logged-in, unbanned click adds the click power, times 5 on a cobalt critical (`roll < 0.15`), adds one click and advances the click quests by one; otherwise nothing changes |
| `Economy.Game.BuyLabItem` | App.tsx:344-350 | too few points change nothing; otherwise exactly `cost` is debited, exactly one boost ending at `now + duration` is appended last (duplicates allowed), active now for a positive duration and gone from the sweep at `now + duration`, and the lab quests advance by one |
| `Economy.Game.CreateClan` | App.tsx:352-369 | needs 5000 points and a non-blank name; then the founded clan is appended, the player joins it and pays 5000; otherwise nothing changes |
| `Economy.Game.JoinClan` | App.tsx:371-382 | refused while in a clan or banned; otherwise the player joins exactly when a clan with that id has fewer than 25 members |
| `Economy.Game.LeaveClan` | App.tsx:683 | membership is cleared and every member with the player's id leaves the player's clan |
| `Economy.Game.BroadcastRecruitment` | App.tsx:384-396 | a clan member who is not banned posts the recruitment message carrying the clan id to the bounded global feed |
| `Economy.Game.CompleteRecruitment` | App.tsx:398-412 | on a successful draw the recruit is enlisted in the target clan, subject to the cap and the name check |
| `Economy.Game.DepositClan` | App.tsx:415-431 | succeeds exactly with a clan, enough points and no ban; debits `amt`, credits the iridium-scaled amount, and advances the clan quests by `floor(amt / 250)` |
| `Economy.Game.WithdrawClan` | App.tsx:433-442 | refused without a clan, with too small a bank or when banned; denied without the owner role or a withdraw permission; otherwise moves exactly `amt` from the bank to the player |
| `Economy.Game.SendGlobalMessage` | App.tsx:444-451 | a non-blank message from an unbanned player joins the bounded global feed and advances the chat quests by one |
| `Economy.Game.SendClanMessage` | App.tsx:453-465 | a non-blank message from an unbanned member joins the clan's bounded feed and advances no quest |
| `Economy.Game.RedeemCode` | App.tsx:467-488 | applies the code decision: admin codes set admin mode only; granted codes credit their coins (plus radium for 300000 ms) and are recorded; any other outcome changes nothing |
| `Economy.Game.Gamble` | App.tsx:490-517 | refused when banned or for a stake outside `1..points`; otherwise debits the stake, credits the payout of its band and, on a shielded loss, removes every xenon entry |
| `Economy.Game.VaultDeposit` | App.tsx:787 | moves exactly 1000 into the vault when the player holds 1000, and keeps `points + vaultPoints` |
| `Economy.Game.VaultWithdraw` | App.tsx:788 | moves exactly 1000 out of the vault when the vault holds 1000, and keeps `points + vaultPoints` |
| `Economy.Game.ClaimQuest` | App.tsx:804-805 | a claimable quest credits its reward once and becomes claimed; otherwise nothing changes |
| `Economy.Game.Rename` | App.tsx:753 | the alias box replaces only the alias, and the ban verdict follows the new alias |
| `Economy.Game.Abort` | App.tsx:911 | the Abort button logs the session out and changes nothing else |
| `Economy.Game.AdminInject` | App.tsx:533 | in admin mode adds the amount, which may be negative |
| `Economy.Game.AdminBan` | App.tsx:540 | in admin mode appends the upper-cased alias to the ban list, which bans the current player when the alias matches theirs in any case |
| `Economy.Game.AdminMaxTier` | App.tsx:544 | in admin mode sets the balance to the top tier's minimum, which resolves to the top tier |
| `Economy.Game.AdminResetQuests` | App.tsx:547 | in admin mode resets every quest |
| `Economy.Game.Ascend` | App.tsx:836-843 | needs the Emperor minimum (4500) and confirmation; raises prestige by exactly one and zeroes points, vault, clicks and boosts |
| `Economy.Game.StepClans` | App.tsx:230-251 | the loop over clans yields exactly the registry in which each clan took its bot step |
| `Economy.Game.SweepAndEarn` | App.tsx:217-227 | the tick sets the clock, sweeps expired boosts and credits an unbanned player with the income of the boosts active before the sweep |
| `Economy.Game.RunBots` | App.tsx:230-251 | the tick replaces the registry by each clan's bot step, keeping the invariants |
| `Economy.Game.PostGlobal` | App.tsx:253-262 | the tick appends the global bot post, if any, under the feed bound |
| `Economy.Game.Tick` | App.tsx:216-264 | one tick is exactly the sweep and income, the bot activity of every clan, and the optional global post, and keeps the state valid |

## Left out

- Rendering, particles, the shake animation, news strings and `RankBadge` are presentation only.
- The `tierProgress` percentage and `nextRank` only compute a float progress bar.
- Loading from and saving to `localStorage` is persistence I/O. The model starts from an already
  loaded snapshot (`Economy.Game.Load`). `factory_wipe` clears storage and reloads the page, so it
  is not modelled.
- The login flow (`handleAuth`) is left out because it is a timed e-mail and alias assignment.
  `isLoggedIn`, `userName` and `email` are state fields.
- Delays are not modelled:
  - the gamble's 1500 ms await and status reset;
  - the 3000 ms recruit delay (split into `BroadcastRecruitment` and `CompleteRecruitment`);
  - the 80 ms and 800 ms UI timers.

  Each operation is one atomic step. Two gambles running concurrently, which could both see one
  shield, are not modelled.
- The leaderboard's regenerated mock players and the clan sort are display-only.
- The contents of the canned name and message pools are inputs. So are `Math.random` picks.
- `Economy.Game.Gamble`: `parseInt` returning `NaN` is not modelled, because the stake is an integer
  parameter. The admin injection's `parseInt` is an integer parameter in the same way.
- `Text.ToUpper`, `Text.Trim`: only ASCII letters are upper-cased and only ASCII whitespace is
  trimmed. JavaScript's full Unicode case mapping and whitespace set are not modelled.
- `Economy.Game.CreateClan` requires that the clock-derived id `clan-<now>` is not already taken.
  The source relies on `Date.now()` never repeating.
- A clan keeps exactly one channel, so the model keeps a single `feed`. Channel ids and names are
  left out.
- Message, clan and bot ids are built from `now` as the source builds them, but the model does not
  state that they are unique.
- `Wager.OutcomeBands`: the 5% / 40% / 55% outcome distribution is stated as the widths of the draw
  bands, not as a probability.
- `Economy.Game.BuyLabItem` takes the cost and duration as parameters. The catalogue the buttons pass
  them from is `Boosts.LabCatalog`.
- The files outside `App.tsx` (the Gemini service, chat, image, voice and live-voice components,
  sidebar, constants, types) are not part of this model. They are UI, network calls to an external
  SDK, or browser audio APIs.
