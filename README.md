# Institut Biznisa: XP progression, permissions and the message route

This project models the two pieces of the platform that hold real logic, and proves
properties of them.

- **The progression and permission library** (`src/lib/roles.ts`, module `Roles` in
  `roles.dfy`). It maps accumulated XP to one of seven ranks through a fixed band
  table. It reports progress within the current band and the XP still needed for the
  next rank, and tests the 70% "acceleration" threshold. It also maps the ten role
  names to levels 1..10 (unknown roles get 0) and derives the permission predicates
  and the `getPermissions` record from those levels. Everything is a pure function.
- **The messages route** (`src/app/api/messages/route.ts`, module `MessagesRoute` in
  `messages_route.dfy`).
  - `GET` gives 400 without a channel id. Otherwise it returns the channel's newest
    `limit` messages after skipping `offset`, oldest first.
  - `POST` gives 401 without a session and 400 without a channel or content.
    Otherwise it stores the message and grants 5 XP per message under a daily cap of
    100 XP, resetting the daily count when the stored day is not today. A grant is
    logged and then followed by `checkAndUpdateRank`. That step scans the route's own
    threshold table and writes the rank only when it rises.
  - A user row is the class `Account` (its `xp`, `dailyXp`, `dailyXpDate` and `rank`
    columns), updated in place by `GrantMessageXp` and `CheckAndUpdateRank`. The rows
    the route touches (messages, XP log, users by id) are the class `Forum`. Each
    method is specified by the pure functions `AfterMessage`, `RankAfterCheck` and
    `Page`, and the lemmas are proved about those functions.

`wrappers.dfy` holds the `Option` and `Result` datatypes used for absent request
fields and HTTP error statuses.

The two source files disagree, and each is modelled as written:
- The route caps message XP at 100 per day; the library's `DAILY_XP_LIMIT` is 150.
- The route ranks on thresholds 0, 100, 500, 1500, 5000, 15000, 50000; the library
  uses bands starting at 0, 1000, 2500, 4000, 5500, 7000, 8500.

`MessagesRoute.RankTablesDiverge` exhibits both differences. For example, 100 XP is
rank 2 for the route and rank 1 for the library.

## Model

| member | source | states |
|---|---|---|
| `Roles.Threshold` | src/lib/roles.ts:90-98 | every band is non-empty and each band ends where the next rank's band starts |
| `Roles.GetRankFromXp` | src/lib/roles.ts:101-109 | the rank is always between 1 and 7 |
| `Roles.RankBand` | src/lib/roles.ts:90-109 | rank r is returned exactly on its band `[min, max)`; rank 1 also takes negative XP; rank 7 holds for every XP from 8500 up, past the table's max of 10000 |
| `Roles.RankIsHighestReached` | src/lib/roles.ts:101-109 | for non-negative XP the rank is the highest one whose band minimum is reached |
| `Roles.RankMonotone` | src/lib/roles.ts:101-109 | more XP never gives a lower rank |
| `Roles.RankBoundaries` | src/lib/roles.ts:101-109 | 999 gives 1, 1000 gives 2, 8499 gives 6, 8500 gives 7, 1000000 gives 7 |
| `Roles.GetRankProgress` | src/lib/roles.ts:112-113 | the reported current rank is the rank of the XP |
| `Roles.ProgressAtTop` | src/lib/roles.ts:115-117 | at rank 7 the result is current 7, next 7, progress 100, 0 XP to next |
| `Roles.XpInRankBounds` | src/lib/roles.ts:121-122 | below rank 7 and for non-negative XP, the XP into the band is at least 0 and less than the band's width |
| `Roles.ProgressBelowTop` | src/lib/roles.ts:119-129 | below rank 7: next is current + 1; XP to next is the next band's minimum minus XP, and positive; progress times the band width is the XP into the band times 100; progress is below 100, at least 0 for non-negative XP, and 0 exactly at the band's minimum |
| `Roles.CanAccelerate` | src/lib/roles.ts:133-142 | acceleration is never reported at rank 7; its exact condition is carried by `Roles.CanAccelerateIff` |
| `Roles.CanAccelerateIff` | src/lib/roles.ts:133-142 | acceleration holds exactly below rank 7 when `10 * (xp - min) >= 7 * (max - min)` |
| `Roles.CanAccelerateMeansProgress` | src/lib/roles.ts:133-142 | acceleration holds exactly below rank 7 when the reported progress is at least 70 |
| `Roles.CanAccelerateExamples` | src/lib/roles.ts:133-142 | 699 cannot accelerate and 700 can; 2049 cannot and 2050 can; 8500 cannot |
| `Roles.RoleLevel` | src/lib/roles.ts:149-214 | a listed role has a level in 1..10; an unknown role has level 0 |
| `Roles.HasRoleLevel` | src/lib/roles.ts:213-216 | an unknown role meets exactly the levels 0 and below; a listed role meets level 1 |
| `Roles.CanManageChannels` | src/lib/roles.ts:219-222 | only a listed role manages channels; the level 5 threshold is in `Roles.PermissionsByLevel` |
| `Roles.CanCreateOwnChannel` | src/lib/roles.ts:225-227 | a role that may create its own channel has level 5 (it is the professor, `Roles.OwnChannelIsProfessorOnly`) |
| `Roles.CanAccessAllChannels` | src/lib/roles.ts:230-232 | only a listed role accesses every channel; exactly level 6 and up by `Roles.AccessAllChannelsIsLevelSix` |
| `Roles.CanManageUsers` | src/lib/roles.ts:235-237 | only a listed role manages users; the level 7 threshold is in `Roles.PermissionsByLevel` |
| `Roles.CanManageCourses` | src/lib/roles.ts:240-242 | only a listed role manages courses; the level 6 threshold is in `Roles.PermissionsByLevel` |
| `Roles.RoleLevelsDistinct` | src/lib/roles.ts:149-160 | no two listed roles share a level |
| `Roles.RoleLevelExamples` | src/lib/roles.ts:149-214 | admin is 7, founder 10, user 1, and `unknown_role` and the empty name are 0 |
| `Roles.PermissionLadder` | src/lib/roles.ts:219-242 | managing users implies managing courses; managing courses implies managing channels and accessing every channel |
| `Roles.AccessAllChannelsIsLevelSix` | src/lib/roles.ts:149-232 | access to every channel (edukator, or level 7 and up) holds exactly at level 6 and up |
| `Roles.OwnChannelIsProfessorOnly` | src/lib/roles.ts:219-242 | only the professor may create its own channel; the professor is level 5, manages channels and does not manage courses |
| `Roles.GetPermissions` | src/lib/roles.ts:245-253 | the record's level is the role's table level, 0 when unknown |
| `Roles.PermissionsByLevel` | src/lib/roles.ts:213-253 | each field of the record, stated through the level: channels at 5 and up, all channels and courses at 6 and up, users at 7 and up, own channel for the professor only |
| `Roles.UnknownRoleHasNothing` | src/lib/roles.ts:213-253 | an unknown role gets every permission false and level 0 |
| `Roles.PermissionExamples` | src/lib/roles.ts:230-253 | admin manages users, user does not; edukator sees every channel but does not manage users; professor creates its own channel |
| `MessagesRoute.EffectiveDailyXp` | src/app/api/messages/route.ts:99-105 | the daily XP is 0 when the stored day differs from today, the stored value otherwise |
| `MessagesRoute.MessageGrant` | src/app/api/messages/route.ts:107-109 | below the cap the grant is 1..5 and never takes the daily XP past 100; it is 5 unless it fills the cap exactly; at or above the cap it is 0 |
| `MessagesRoute.ScanRank` | src/app/api/messages/route.ts:161-166 | the loop's `newRank` is either the stored rank or the rank of a row whose threshold is reached; which row is fixed by `MessagesRoute.ScanPicksHighestReached` |
| `MessagesRoute.RankAfterCheck` | src/app/api/messages/route.ts:161-173 | the rank after the check is never below the stored rank; its exact value is given by `MessagesRoute.RouteRankIsHighestReached` |
| `MessagesRoute.ScanPicksHighestReached` | src/app/api/messages/route.ts:161-166 | on an ascending table whose first threshold is reached, the loop ends on the row of the highest threshold reached |
| `MessagesRoute.ScanBelowTable` | src/app/api/messages/route.ts:161-166 | when no threshold is reached the loop leaves the stored rank |
| `MessagesRoute.RouteRankIsHighestReached` | src/app/api/messages/route.ts:151-166 | with the route's table, non-negative XP scans to the highest rank in 1..7 whose threshold is reached; negative XP keeps the stored rank |
| `MessagesRoute.RankCheckMonotoneAndIdempotent` | src/app/api/messages/route.ts:161-173 | the stored rank never decreases, and a second check with unchanged XP changes nothing |
| `MessagesRoute.RankAfterCheckRange` | src/app/api/messages/route.ts:151-173 | from a rank in 1..7 and non-negative XP the checked rank stays in 1..7 |
| `MessagesRoute.RankAfterCheckMonotone` | src/app/api/messages/route.ts:151-173 | for every stored rank, more XP never gives a lower checked rank |
| `MessagesRoute.RankCheckComposes` | src/app/api/messages/route.ts:151-173 | a check at a lower XP followed by one at a higher XP leaves the rank a single check at the higher XP gives |
| `MessagesRoute.RankTablesDiverge` | src/app/api/messages/route.ts:108-159 | the route gives rank 2 at 100 XP and rank 5 at 8500 XP where the library gives 1 and 7; the route's cap is not the library's 150 |
| `MessagesRoute.AfterMessage` | src/app/api/messages/route.ts:99-130 | one message grants 0..5 XP, raises XP by exactly the grant, never lowers the rank, and changes nothing when it grants 0 |
| `MessagesRoute.AfterMessages` | src/app/api/messages/route.ts:99-130 | n messages raise XP by at most 5n and never lower the rank |
| `MessagesRoute.AfterMessageEffect` | src/app/api/messages/route.ts:99-130 | below the cap one message raises XP by the grant (1..5), sets the daily XP to the effective value plus the grant (at most 100) and the day to today, and never lowers the rank; at the cap nothing changes |
| `MessagesRoute.MessagesInOneDay` | src/app/api/messages/route.ts:99-130 | n messages in one day raise XP by `min(5n, 100 - effective daily XP)`, and, when at least one message is granted XP (n > 0 and the effective daily XP is below 100), the daily XP ends at the effective value plus that amount and the day is today, and from non-negative XP the rank reached is the one a single check at the final XP gives |
| `MessagesRoute.AfterMessagesAtCap` | src/app/api/messages/route.ts:108-130 | once the daily cap is reached, any number of further messages that day change nothing |
| `MessagesRoute.DailyCapExamples` | src/app/api/messages/route.ts:99-117 | at 95 daily XP a message grants 5 and the next grants 0; at 100 daily XP from yesterday the count resets and a message grants 5 |
| `MessagesRoute.Account.GrantMessageXp` | src/app/api/messages/route.ts:99-117 | the grant is the one `AfterMessage` specifies; with a grant, XP rises by it, the daily XP is effective plus grant and the day is today; without one the row is unchanged |
| `MessagesRoute.Account.CheckAndUpdateRank` | src/app/api/messages/route.ts:144-174 | the loop over the table computes the scanned rank, and the stored rank becomes the larger of it and the old rank |
| `MessagesRoute.Given` | src/app/api/messages/route.ts:13-18 | a request field counts as given when present and not empty, as JavaScript truthiness of a string; used by `Forum.Get` and `Forum.Post`, whose contracts state the 400 cases |
| `MessagesRoute.ChannelHistory` | src/app/api/messages/route.ts:20-21 | the history holds only messages of the channel, and every stored message of the channel |
| `MessagesRoute.ChannelHistoryCounts` | src/app/api/messages/route.ts:20-21 | each message of the channel occurs in the history as often as in the store, and no message of another channel occurs |
| `MessagesRoute.ChannelHistoryAppend` | src/app/api/messages/route.ts:20-21 | storing a message appends it to the end of its channel's history and leaves other channels' histories unchanged, so the history keeps store order |
| `MessagesRoute.Page` | src/app/api/messages/route.ts:33-38 | a page holds at most `limit` messages and no more than the history; its exact contents are given by `MessagesRoute.PageIsSlice` |
| `MessagesRoute.PageIsSlice` | src/app/api/messages/route.ts:33-38 | newest first, skip `offset`, take `limit`, reversed, is the run of the history ending `offset` messages before the newest and holding at most `limit` messages, oldest first |
| `MessagesRoute.PageBounds` | src/app/api/messages/route.ts:33-38 | a page holds at most `limit` messages; with no offset and a large enough limit it is the whole history |
| `MessagesRoute.PagesTile` | src/app/api/messages/route.ts:33-38 | the page at `offset + limit` followed by the page at `offset` is the page of size `2 * limit` at `offset` |
| `MessagesRoute.StoredMessageEndsFirstPage` | src/app/api/messages/route.ts:33-38 | after a message is stored, the next page of its channel at offset 0 with a positive limit ends with that message |
| `MessagesRoute.Forum.Get` | src/app/api/messages/route.ts:6-38 | 400 exactly when the channel id is missing or empty; otherwise the defaults 50 and 0 apply and the result is the slice of the channel's history described by `PageIsSlice` |
| `MessagesRoute.Forum.Post` | src/app/api/messages/route.ts:49-133 | 401 without a session and 400 without a channel or content, both with nothing changed; otherwise 201, the message is appended, the sender's row moves as `AfterMessage` says, a grant is logged with its amount, and no other row changes |

## Left out

- Persistence (Prisma), the session lookup (next-auth) and HTTP plumbing are replaced by in-memory rows, an optional user id and integer status codes. Database errors and the 500 answers they cause are not modelled.
- The read-then-update race between loading a user row and writing it is not modelled; concurrency is out of scope.
- Wall-clock time and time zones: "today" and `dailyXpDate` are integer day numbers. The midnight normalisation of dates is not modelled.
- `createdAt` timestamps: messages are kept in insertion order, which stands for creation-time order. Ties between equal timestamps are not modelled.
- GET's `limit` and `offset` are optional naturals. A non-numeric or negative value, which `parseInt` and the database would treat in their own ways, is not modelled.
- POST's request fields are optional strings. Non-string JSON values and their truthiness are not modelled.
- Roles.GetRankProgress: `progress` is an exact real, not a floating-point number. The bands are at most 1500 wide, so floating point gives the same answer to the 0.7 comparison; rounding for display is not modelled.
- Roles.RoleLevel: the JavaScript lookup `ROLE_LEVELS[role] || 0` also hits inherited object properties such as `constructor`. Such names are treated here as unknown roles with level 0.
- Display-only tables in `src/lib/roles.ts` (rank benefits, names and colours; role names and colours) and the display-only constant `SUBSCRIPTION_DAYS` and the unused constants `XP_PER_LEVEL` and `WARNING_DAYS` carry no logic and are not modelled.
- The uncapped XP grants of the payment webhook and of praise and advice are outside this model.
