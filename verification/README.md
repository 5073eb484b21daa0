# Co-op platformer core, modelled in Dafny

The repository is a small browser game with two front ends:

- a **co-operative mode**, where a Node server (`server.js`) gives each
  connected socket one of three abilities (Phase Walker, Dash Sprinter,
  Ceiling Walker) or makes it a spectator. The server tracks every player's
  reported position and goal flag. When all three active players report
  reaching the goal it records the run on a five-entry leaderboard and later resets
  the level. The browser client (`public/js/game.js`) keeps a map of
  avatars in step with the server's snapshots and runs the local avatar's
  physics: ability timers, input, gravity, collision against the level's
  platforms, and clamping to the world. It also formats the run clock.
- a **single-player retro mode** (`public/js/retro-platformer.js`): three
  built-in levels of platforms and dots, a box steered with the keyboard
  that can double-jump, collision and screen clamping, dot collection,
  progress from level to level, a run timer armed by the first move key,
  and a local five-entry leaderboard.

The project models these three files as follows.

| file | Dafny |
|---|---|
| `server.js` | `server.dfy`: module `Server` with class `Session`, which holds the players, the join order, the level flag, the start time, the leaderboard and the pending resets |
| `game.js` | `client.dfy`: module `Client`. Class `Avatar` is the per-player record and `Game` is the avatar map. `collision.dfy` (module `Collision`) is the functional specification of the collision pass. |
| `retro-platformer.js` | `retro.dfy`: module `Retro` with class `Platformer` |
| shared pieces | `ranking.dfy` (push, stable sort by time, keep the best five), `clock.dfy` (`MM:SS.mmm` text, JavaScript `%` and `Math.trunc`), `levels.dfy` (level shapes), `wrappers.dfy` (`Option`) |

Each method's postcondition gives the state it leaves, mostly as a
function of the old state: `Settle` for the collision loop, `Clamped` for
the world clamp, `Driven` for input, `Merge`/`Synced` for the avatar map,
`Recorded`/`Pushed` for the leaderboards, `Resolved` for the retro step.
Lemmas state the properties of those functions. `Tick` is the one method
that states only a summary (see "Left out"). Examples:

- the leaderboard after a record is sorted, holds at most five entries and
  keeps the fastest ones;
- the clock text reads back to the milliseconds it was made from;
- a collision push separates the box from the tile;
- one ability per active player, so at most three active players;
- the double jump never exceeds two jumps;
- the leaderboard sort is stable: equal times keep their push order.

`Game` keeps a ghost map `View` from each id to its avatar's state as a
value (`Profile`: the fields the server sends, and the contact flag,
gravity and ability timers only the client simulates). Its invariant ties
every avatar to its `View` entry, so the contents of the avatar map after
`syncPlayers` or `triggerAbility` are stated on `View`: the `Synced` pass
over the snapshots, or one avatar's entry with the ability's fields
replaced.

## Model

| member | source | states |
|---|---|---|
| Ranking.InsertionPoint | server.js:123 | the returned slot follows every entry with time at most the new one and precedes the first strictly slower one (the stable-sort position) |
| Ranking.Insert | server.js:122-123 | the result is one longer and is a permutation of the board plus the new entry |
| Ranking.InsertSorted | server.js:122-123 | inserting into a sorted board keeps it sorted |
| Ranking.InsertionPointUnique | server.js:123 | any slot with the stable-sort property is the insertion point |
| Ranking.SortByKey | server.js:123 | the sorted board has the same length, is ordered by time and is a permutation of the input |
| Ranking.WithKey | server.js:123 | the entries with one key, in order, are no more than the whole table |
| Ranking.InsertWithKey | server.js:123 | inserting into a sorted board puts the new entry after every entry with the same time and leaves the others' order alone |
| Ranking.SortStable | server.js:123 | the sort is stable: for every time, the entries with that time come out in the order they were pushed |
| Ranking.AfterInsertionPoint | server.js:123 | on a sorted board, every entry from the insertion slot on is strictly slower than the new one |
| Ranking.Record | server.js:122-126 | the pop loop leaves exactly min(5, n+1) entries: the sorted prefix of the pushed board, itself sorted |
| Ranking.PrefixKeepsBest | server.js:123-126 | the kept prefix is sorted, drawn from the pushed entries, and every kept time is at most every dropped time |
| Ranking.PrefixDropsSlower | server.js:123-126 | every entry the cut drops from the pushed entries is at least as slow as every entry it keeps |
| Ranking.CutDropsSlower | server.js:124-126 | a cut whose kept entries are no slower than its dropped positions drops nothing faster than it keeps |
| Ranking.InsertLast | public/js/retro-platformer.js:172-173 | an entry no faster than all others goes to the end |
| Ranking.SortSortedIsIdentity | public/js/retro-platformer.js:173 | sorting an already sorted board changes nothing |
| Ranking.SpliceTake | public/js/retro-platformer.js:174-176 | cutting a spliced board back to its old length drops exactly the old last entry |
| Ranking.FasterEntryEvictsLast | public/js/retro-platformer.js:172-176 | on a full sorted board, an entry faster than slot k lands at k and the slowest entry falls off |
| Clock.DigitChar | public/js/game.js:80 | the digit character of d is a digit |
| Clock.NatToString | public/js/game.js:80-81 | the decimal text of a natural number is non-empty and all digits |
| Clock.PadStart | public/js/game.js:81 | padding gives max(len, width) characters, with the fill before the original text |
| Clock.Trunc | public/js/game.js:82 | truncation agrees with floor on non-negative numbers |
| Clock.JsRemInt | public/js/retro-platformer.js:133-136 | JavaScript `%` agrees with the mathematical remainder on non-negative operands |
| Clock.DigitsValueOfText | public/js/game.js:80 | reading the decimal text of n gives back n |
| Clock.LeadingZerosValue | public/js/game.js:81 | leading zeros added by `padStart` do not change the value read |
| Clock.ZerosValue | public/js/game.js:81 | a run of zeros is digits and reads as 0 |
| Clock.FieldValue | public/js/game.js:79-87 | a padded field is digits and reads back to its number |
| Clock.TwoDigitText | public/js/game.js:82-84 | a number below 100 padded to two characters is exactly two characters |
| Clock.ThreeDigitText | public/js/game.js:85-87 | a number below 1000 padded to three characters is exactly three characters |
| Clock.ParseFields | public/js/game.js:88 | `a:bb.ccc` reads as 60000·a + 1000·bb + ccc |
| Clock.ClockTextRoundTrip | public/js/game.js:77-89 | the clock text of minutes, seconds and milliseconds reads back to their total |
| Clock.ClockTextShape | public/js/game.js:80-88 | in-range fields give `MM:SS.mmm` text: colon and point in place, digits elsewhere, exactly nine characters below 100 minutes |
| Clock.FloorDiv | public/js/game.js:78-79 | flooring x/k equals the integer division of floor(x) by k |
| Clock.FloorIntDiv | public/js/retro-platformer.js:130 | flooring a/k over reals is Dafny's integer division |
| Clock.SplitMillis | public/js/retro-platformer.js:129-136 | minutes, seconds within the minute and milliseconds within the second recombine to the count |
| Collision.IntersectSymmetric | public/js/game.js:397-404 | the strict overlap test is symmetric |
| Collision.TouchingDoNotIntersect | public/js/game.js:397-404 | rectangles that only share an edge do not intersect |
| Collision.Intersect | public/js/game.js:397-404 | for boxes of positive size, strict overlap is an open stretch shared on both axes |
| Collision.Settle | public/js/game.js:406-469 | the pass never clears the grounded flag it started with, and a box grounded during the pass ends with vertical speed 0 |
| Collision.Solid | public/js/game.js:417-423 | the non-wall platforms: membership iff in the level and not a wall |
| Collision.SettleSkipsWalls | public/js/game.js:417-423 | a phasing phase walker's pass is the pass over the platforms with walls removed; any other player skips nothing |
| Collision.Push | public/js/game.js:433-466 | one push moves the box along the axis of smaller overlap by exactly that overlap, leaving it flush against the tile and no longer intersecting it. Size is kept and abs(vx), abs(vy) never grow. A horizontal push zeroes vx. The box becomes grounded, with vy 0, exactly on a vertical push toward the current gravity. |
| Collision.ClearSettleUnchanged | public/js/game.js:408-469 | a box that overlaps no platform it may not pass through keeps its position and velocity through the pass, so an already-resolved position is a fixed point |
| Collision.SettleSlows | public/js/game.js:416-467 | the whole pass keeps the box size and never increases abs(vx) or abs(vy) |
| Collision.SettleGroundedWitness | public/js/game.js:408-467 | if the pass ends grounded, the box was grounded already or some platform pushed it against gravity |
| Server.CatalogIndex | server.js:144 | `findIndex`: -1 exactly when no ability has the id, otherwise the slot holding it |
| Server.Taken | server.js:54-59 | with a well-formed roster, every taken ability id is a catalog id |
| Server.FirstFree | server.js:60 | the first catalog slot from `from` whose id is not taken; None exactly when all are taken |
| Server.AvailableAbility | server.js:54-61 | None iff every ability is held by an active player; otherwise a free ability with every earlier one taken |
| Server.SpawnPositionFor | server.js:63-70 | the player's spawn point when its index is in range, else the first; always one of the level's spawn points |
| Server.ResetPlayer | server.js:72-78 | the player is moved to its spawn point with zero velocity and cleared goal and ability-used flags; identity, ability and colour are kept |
| Server.NewPlayer | server.js:140-157 | the record built on connection: the ability's id, name, colour and catalog slot, or a spectator with no ability |
| Server.ResetIdempotent | server.js:72-78 | resetting twice is resetting once |
| Server.ActiveIds | server.js:117-118 | the non-spectators in join order: membership iff, distinct, no longer than the order |
| Server.TeamNames | server.js:117-119 | one ability name per active player |
| Server.Without | server.js:226 | deleting a key removes exactly it from the order and keeps it distinct |
| Server.CatalogIdsCount | server.js:13-17 | the three catalog ids are distinct |
| Server.ResetAll | server.js:80-84 | resetting all players keeps the same keys |
| Server.ResetEach | server.js:80-84 | the loop over the players yields the reset-all map |
| Server.RosterResetAll | server.js:80-84 | a reset keeps the roster invariant (ids match keys, no shared ability) |
| Server.RosterPut | server.js:158 | adding a player whose ability no other active player holds keeps the roster invariant |
| Server.RosterRemove | server.js:226 | deleting a player keeps the roster invariant |
| Server.DistinctAbilitiesBound | server.js:54-61 | distinct active players holding abilities from a pool are no more than the pool |
| Server.TeamAtMostCatalog | server.js:54-61 | there are never more active players than abilities |
| Server.ResetSpawnSlot | server.js:63-70 | an active player spawns at its ability's slot, a spectator at the first point |
| Server.Session.constructor | server.js:43-48 | empty roster, stored leaderboard, level inactive, start time now |
| Server.Session.ResetLevel | server.js:80-84 | the level becomes active from now and every player is reset |
| Server.Session.Connect | server.js:138-180 | the new socket is registered with the first free ability or as a spectator. An inactive level is reset (start time now); an active one keeps the others untouched. |
| Server.Session.Register | server.js:140-159 | the roster gains the reset new player and the join order gains its id |
| Server.Session.PlayerUpdate | server.js:182-205 | an unknown id changes nothing. Otherwise position, velocity and goal flag are stored, and the level completes iff it was active, three players are active and all are at the goal. Completion records the entry and schedules a reset. |
| Server.Session.CompleteLevel | server.js:108-136 | an inactive level is left alone. Otherwise the level stops, the entry (elapsed time, active ability names) is recorded, and one reset is scheduled. |
| Server.Session.Finish | server.js:112-135 | the level stops, the entry is recorded with the push/sort/pop loop and one reset is scheduled; players, order and start time are kept |
| Server.Session.Completion | server.js:112-121 | the entry's time is now minus the start time, stamped now, with one ability name per active player and never more names than catalog abilities |
| Server.Session.RequestAbility | server.js:207-222 | unknown or spectator: ignored. Already used or level inactive: denied. Otherwise the flag is set and the player's ability is announced. |
| Server.Session.Disconnect | server.js:224-232 | the player leaves the roster and the order; the level stops iff fewer than three active players remain |
| Server.Session.FireReset | server.js:133-135 | a scheduled reset resets the level and is consumed |
| Server.RecordEntry | server.js:122-126 | the leaderboard after the push/sort/pop loop is the recorded board |
| Server.Recorded | server.js:122-126 | the recorded board has min(5, n+1) entries, all from the old board plus the new entry |
| Server.RecordedKeepsBest | server.js:122-126 | the recorded board is sorted and has min(5, n+1) entries taken from the pushed ones; every entry left out is at least as slow as every entry kept |
| Client.Direction | public/js/game.js:338 | 0 iff both or neither key, 1 iff only right, -1 iff only left |
| Client.FrameDelta | public/js/game.js:658 | the frame delta is the elapsed seconds capped at 0.05, never negative for a forward clock |
| Client.TimeFields | public/js/game.js:77-87 | for a non-negative time: minutes, seconds below 60 and milliseconds below 1000 that recombine to floor(ms) |
| Client.FormatTime | public/js/game.js:77-89 | a non-negative time prints as `MM:SS.mmm`: a colon and a point in place, digits elsewhere, nine characters below 100 minutes |
| Client.FormatTimeRoundTrip | public/js/game.js:77-89 | the formatted clock reads back to the whole milliseconds |
| Client.Expire | public/js/game.js:472-496 | each active timer counts down by delta and switches off at zero; inactive ones are untouched; the timer invariant is kept |
| Client.Activated | public/js/game.js:248-267 | a known ability becomes active with valid timers; an unknown one changes nothing; only a dash changes the dash direction |
| Client.Impulse | public/js/game.js:251-265 | a dash sets vx to direction × dash speed, a ceiling walk launches upward, anything else leaves the velocity |
| Client.Clip | public/js/game.js:341-344 | the clipped speed is within ±move speed, equal to the input inside that band, and otherwise the nearer bound |
| Client.ScaleShrinks | public/js/game.js:347 | a friction factor in [0, 1] never increases a speed |
| Client.Damp | public/js/game.js:347-350 | friction never speeds up; the result is 0 exactly when the damped speed is below 1, else the damped speed |
| Client.Driven | public/js/game.js:333-362 | the velocity after input: dash speed while dashing; clipped acceleration toward a held direction (ground or air rate); friction with none; a grounded jump launches against gravity, otherwise vy is kept |
| Client.Fall | public/js/game.js:503-509 | vy gains gravity × delta within ±max fall speed, and is exactly the bound it hits otherwise |
| Client.Integrated | public/js/game.js:503-513 | the box moves by the new velocity × delta, vy is `Fall`, vx is kept and contact is cleared |
| Client.Clamped | public/js/game.js:364-395 | the box ends inside the world; an in-bounds coordinate and its speed are untouched; a clamped one lands on 0 or the far edge; speed into a crossed wall is cut; the player is grounded exactly on crossing the edge gravity points to |
| Client.Absorb | public/js/game.js:206-222 | the updated profile holds the snapshot; a local player keeps position and velocity; missing or falsy fields keep the old values; contact, gravity and ability timers are untouched |
| Client.Spawned | public/js/game.js:178-204 | the new profile holds the snapshot, with zero position when missing and facing right when falsy; it starts in the air, gravity down, every ability idle |
| Client.Merge | public/js/game.js:227-233 | one snapshot adds its id, leaves every other profile alone and makes its own profile hold the snapshot |
| Client.Avatar.constructor | public/js/game.js:178-204 | an avatar built from a snapshot, with defaults for falsy fields and idle abilities |
| Client.Avatar.UpdateFromSnapshot | public/js/game.js:206-222 | names and flags are taken over; a remote avatar takes position and velocity; facing and spawn index keep their old value when the snapshot's is falsy; the avatar's whole state becomes `Absorb` of the old one, so contact, gravity and abilities are kept |
| Client.Avatar.TakeLabels | public/js/game.js:207-209 | name, ability id and name, and the two flags become the snapshot's (flags written at game.js:220-221) |
| Client.Avatar.TakePlacement | public/js/game.js:210-219 | position and velocity from the snapshot for a remote player only; facing and spawn index only when truthy |
| Client.Avatar.ApplyAbilityState | public/js/game.js:243-269 | the state becomes `Activated`; the local player's velocity gets the `Impulse`; ceiling flips gravity; the used flag is set |
| Client.Avatar.Activate | public/js/game.js:726-731 | the avatar's own ability fires the way it faces: `Activated` state, `Impulse`, ceiling gravity, used flag; no other field of the avatar changes |
| Client.Avatar.ResetAbilityState | public/js/game.js:271-286 | all abilities become idle, gravity points down and the used flag clears; dash direction kept |
| Client.Avatar.UpdateAbilityTimers | public/js/game.js:472-496 | the ability state becomes its expiry and gravity returns to down iff the ceiling timer ran out |
| Client.Avatar.ApplyInput | public/js/game.js:333-362 | the new velocity is `Driven`: the clipped acceleration for a held direction, facing that way; friction with snap to rest otherwise; dash overrides; a grounded jump launches against gravity and clears grounded |
| Client.Avatar.ClampWorld | public/js/game.js:364-395 | with a level, the new box, velocity and grounded flag are `Clamped` of the old ones; without one nothing changes |
| Client.Avatar.ResolveCollisions | public/js/game.js:406-470 | the new position, velocity and grounded flag are the collision pass over the level's platforms |
| Client.Avatar.Integrate | public/js/game.js:503-513 | velocity and position become `Integrated` of the old ones |
| Client.Avatar.Fly | public/js/game.js:503-516 | the new state is `Clamped(Settle(Integrated(old state)))`; vy within the fall cap and the avatar inside the world |
| Client.Avatar.Step | public/js/game.js:498-517 | timers expire; the new state is the local input (`Driven`), then `Integrated`, `Settle` and `Clamped`, in that order; facing turns to a held direction only for an undashing local player |
| Client.PushOut | public/js/game.js:433-466 | the imperative push of one tile is the functional push |
| Client.IdsSnoc | public/js/game.js:234 | the seen set grows by one snapshot's id per step |
| Client.LastIndex | public/js/game.js:225-235 | the index of a snapshot with the id and no later one with it |
| Client.LatestKeys | public/js/game.js:225-235 | the last-snapshot map has exactly the snapshot ids |
| Client.LatestIsLast | public/js/game.js:225-235 | the last-snapshot map holds, for each id, the snapshot at its last index |
| Client.SyncedKeys | public/js/game.js:225-235 | the update-or-create pass keeps every profile's id and adds the snapshot ids, no others |
| Client.SyncedSnoc | public/js/game.js:225-235 | the pass over one more snapshot merges that snapshot into the pass so far |
| Client.SyncedKeepsLocal | public/js/game.js:209-216 | the pass never changes the local player's position or velocity |
| Client.SyncedReflects | public/js/game.js:225-235 | after the pass every snapshot id's profile holds the last snapshot with that id |
| Client.KeptReflect | public/js/game.js:236-240 | any kept subset of the pass's profiles still holds the last snapshots |
| Client.Game.constructor | public/js/game.js:50-55 | an empty avatar map with no local player |
| Client.Game.SyncPlayers | public/js/game.js:224-241 | the avatar map has exactly the snapshot ids; kept avatars are the same objects, new ones fresh; every avatar's whole state is its `Synced` profile, so it holds the last snapshot with its id and keeps its contact, gravity and abilities; the local avatar's position and velocity are untouched |
| Client.Game.PruneUnseen | public/js/game.js:236-240 | after the update-or-create pass, only the snapshot ids stay, each avatar unchanged and holding the last snapshot with its id |
| Client.Game.UpsertAll | public/js/game.js:226-235 | existing avatars stay the same objects, new ones are fresh, and every avatar's whole state becomes the `Synced` pass over the snapshots |
| Client.Game.Upsert | public/js/game.js:227-233 | the map gains the snapshot's id; a new id gets a fresh avatar built from the snapshot; every avatar's whole state becomes `Merge` of the old ones |
| Client.Game.Refresh | public/js/game.js:227-233 | a known id's avatar is updated in place; the map and its objects are kept and every avatar's whole state becomes `Merge`, so contact, gravity and abilities are kept |
| Client.Game.Spawn | public/js/game.js:227-231 | an unknown id gets a fresh avatar created from the snapshot, filed under its id; every avatar's state becomes `Merge` of the old ones |
| Client.Game.Prune | public/js/game.js:236-240 | ids not seen are deleted, the rest kept as they were |
| Client.Game.TriggerAbility | public/js/game.js:716-733 | the ability fires iff there is a local avatar with an ability, not waiting, unused and none active. Firing gives it the `Activated` state, the `Impulse` and the ceiling gravity flip, the way it faces, and changes nothing else of it; every other avatar is unchanged; not firing changes nothing. |
| Client.Game.Fire | public/js/game.js:726-732 | the local avatar gets the `Activated` state, the `Impulse` and the gravity flip for its own ability, the way it faces, and is marked used; its other fields and every other avatar are unchanged |
| Retro.FmtFields | public/js/retro-platformer.js:129-136 | for a non-negative time, minutes, seconds below 60 and milliseconds below 1000 that recombine to floor(ms) |
| Retro.FmtRoundTrip | public/js/retro-platformer.js:125-138 | the formatted time reads back to the whole milliseconds |
| Retro.FmtNoneIsZero | public/js/retro-platformer.js:126-128 | a missing time prints as zero |
| Retro.Fmt | public/js/retro-platformer.js:125-138 | a missing or non-negative time prints as `MM:SS.mmm`: colon and point in place, digits elsewhere, nine characters below 100 minutes |
| Retro.Aabb | public/js/retro-platformer.js:230-237 | the retro overlap test is the same relation as the co-op one |
| Retro.Knock | public/js/retro-platformer.js:247-269 | one push leaves the box clear of the tile, keeps its size and never speeds it up. A side hit moves x to the nearer side and stops vx. A landing grounds the box on top with vy 0; a head bump moves it below with vy ≥ 0. |
| Retro.ScreenClamp | public/js/retro-platformer.js:271-278 | the box ends left of the right edge (and right of 0 when it fits), any move stops vx, an on-screen box is untouched |
| Retro.Sweep | public/js/retro-platformer.js:243-270 | the platform pass never clears the grounded flag, and a box landed during the pass ends with vertical speed 0 |
| Retro.SweepKeepsSize | public/js/retro-platformer.js:243-270 | the platform pass keeps the box size |
| Retro.SweepGroundedAtRest | public/js/retro-platformer.js:243-270 | a grounded result has vertical speed 0 |
| Retro.SweepGroundedWitness | public/js/retro-platformer.js:243-270 | a grounded result was landed by some platform |
| Retro.Resolved | public/js/retro-platformer.js:239-280 | the resolved box keeps its size, is on screen horizontally and is grounded only at rest |
| Retro.Collected | public/js/retro-platformer.js:338-348 | collected flags only get set: a dot is set afterwards iff it was set or the box centre is within its radius |
| Retro.Cleared | public/js/retro-platformer.js:197-201 | one cleared flag per dot |
| Retro.PushedKeepsBest | public/js/retro-platformer.js:166-179 | a named finish yields a sorted board of min(5, n+1) entries from the pushed ones; every entry left out is at least as slow as every entry kept |
| Retro.Pushed | public/js/retro-platformer.js:166-179 | a cancelled name leaves the board; otherwise min(5, n+1) entries, all from the old board plus the new one |
| Retro.Steer | public/js/retro-platformer.js:310-317 | speed −6 iff a left key is held; +6 iff a right key and no left key; 0 iff neither |
| Retro.Platformer.constructor | public/js/retro-platformer.js:426-431 | the game starts on level 1 at its spawn with the timer armed and no time, all dots uncollected |
| Retro.Platformer.ResetDots | public/js/retro-platformer.js:197-201 | the level's flags become cleared, other levels untouched |
| Retro.Platformer.ResetToSpawn | public/js/retro-platformer.js:203-211 | the box stands still at the spawn point, not grounded, no jumps used |
| Retro.Platformer.LoadLevel | public/js/retro-platformer.js:213-228 | the index is set, its dots cleared, the box at spawn; level 1 re-arms the timer and clears it |
| Retro.Platformer.KeyDown | public/js/retro-platformer.js:90-115 | the key is held. A move key on armed level 1 starts the timer. A jump key jumps from the ground, or once more in the air, and never beyond two jumps. |
| Retro.Platformer.KeyUp | public/js/retro-platformer.js:117-119 | the key is released |
| Retro.Platformer.Resolve | public/js/retro-platformer.js:239-280 | the loop's result is the sweep-then-clamp specification: on screen, grounded only at rest |
| Retro.Platformer.Move | public/js/retro-platformer.js:310-335 | the box takes the `Resolved` step of steering plus gravity and respawns far below the screen; a grounded box has jumps reset and vy 0 |
| Retro.Platformer.Land | public/js/retro-platformer.js:323-335 | the box takes the resolved contact, a grounded one with jumps reset; more than 200 below the screen it is back at the spawn |
| Retro.Platformer.CollectDots | public/js/retro-platformer.js:338-348 | the current level's flags become their collection at the box position |
| Retro.Platformer.StopTimer | public/js/retro-platformer.js:354-357 | a running, unstopped timer stops at the elapsed time and pushes it; otherwise nothing changes |
| Retro.Platformer.PushTime | public/js/retro-platformer.js:166-179 | the stored board becomes the pushed board (unchanged when the name prompt is cancelled) |
| Retro.Platformer.Advance | public/js/retro-platformer.js:348-358 | a cleared level loads the next one; a cleared last level stops the timer once; otherwise nothing changes, jumps included |
| Retro.Platformer.Tick | public/js/retro-platformer.js:309-360 | a frame stays on the level or moves to the next one and never restarts the timer; it can only set the end time once, on the last level |

## Left out

- Sockets: the emits, broadcasts and listeners. Each handler is a method of
  `Session` or `Game`, and what it would send is its result.
- Leaderboard persistence. The server's `fs` file and the browser's
  `localStorage` become the `leaderboard` / `board` field. The stored board
  is a constructor argument, so the JSON parse-error path and the console
  warnings are not modelled.
- Clocks: `Date.now()` and `performance.now()` are `now` parameters.
  `recordedAt` is that integer reading, not an ISO string.
- The five-second `setTimeout` before a reset. It becomes a pending-reset
  counter and a `FireReset` call. The delay and any interleaving of timers
  are not modelled.
- `prompt`: the entered name is a parameter, and an empty name stands for
  a cancelled or empty prompt.
- Absent strings (`undefined`, `null`) in snapshots are the empty string.
- Rendering: the DOM, canvas drawing, overlay text, the timer and ability
  UI, `sanitizedPlayers`, particles, jump triangles and their randomness.
  None of it feeds back into game state.
- The client's frame loop: `update` over every avatar and `gameLoop`.
  `FrameDelta` and `Step` model one frame of one avatar; the iteration over
  the `Map` is not modelled.
- Client input and session handlers other than ability triggering: join
  form, key mapping, the run-reset and level-complete handlers.
  `Direction` takes the resulting input flags.
- Numbers are mathematical reals. IEEE rounding is not modelled, and
  neither is the exponent notation `toString` uses for huge values.
- Retro platform colours are dropped. The shared level file is an input
  (`Level` values); its contents are not part of this model.
- Order. JavaScript object and `Map` key order is modelled by the server's
  `order` sequence. The client avatar map is unordered.
- No property spans client and server. The client's ability ids
  (`phase-walker`, …) differ from the server's (`phase`, …), so the two
  sides are modelled separately.
- `Client.Avatar.Valid` ties gravity and the ability flags to the timers.
  It is an invariant of this model, not of the program: the `playerState`
  handler (public/js/game.js:797-820) sets a remote player's flags without
  timers, and that handler is not modelled.
- Retro.Platformer.Tick: states only the frame's progression facts (level
  index, timer start, end time). The full new state is given by `Move`,
  `CollectDots` and `Advance`, which it calls in order.
