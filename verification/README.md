# Foxhole game server — Dafny model

A model of the authoritative state of the Foxhole multiplayer game server (`server.js`) and the rules that change it.
The state is one immutable record, `Server.GameState`. It holds:

- the `players` map, keyed by username;
- the `sessions` map, keyed by session token;
- the `clients` map from connection id to the authenticated username, session and socket openness;
- the chat history;
- the 150 × 150 tile grid;
- the settlement list.

Every handler is a pure step function. It returns the new state and the outbound messages, each addressed to a set of connections.

Modules (one file each):

- `Wrappers`: `Option` and `Result`.
- `World`: terrain, tiles, the grid and single-tile update.
- `Region`: the map-region query. The server's nested loops (`MapRegion`) are proved equal to a recursive reference definition (`Rows`/`Column`), and lemmas characterise that definition: bounds, x-major order, size and coverage.
- `Settlements`: the settlement-placement loop of map initialisation. Island centres and the random offsets are inputs.
- `Players`: player records, the race table, `sanitizePlayer` and the XP/level-up rule.
- `Server`: the WebSocket router (`auth`, `chat`, `move`, `get_map`), broadcast and the close handler.
- `Api`: the decision logic of `POST /api/register` and `POST /api/player/:username/xp`.
- `Invariants`: a well-formedness predicate that every handler preserves. It requires:
  - players stand on land inside the grid and are keyed by their own name;
  - every authenticated connection names a known player;
  - settlements lie on land;
  - the chat history holds at most 100 entries.

Behaviour of the code worth noting:

- An XP grant levels up at most once. There is no loop, no luck bonus and no stat-point pool. A level-up adds +2/+2/+2/+1/+3 to strength/agility/intelligence/charisma/vitality (`Players.LargeGrantLevelsOnce`).
- `get_map` is answered even on connections that never authenticated.
- A `move` out of bounds, or from an unauthenticated connection, gets no reply at all.
- Broadcast reaches only authenticated connections whose socket is open.
- A settlement's `id` is its loop index, not its position in the list. It differs from the position once a site has been skipped for being water.
- The XP endpoint accepts any known session, whoever owns it (`Api.GrantXpIgnoresSessionOwner`).

## Model

| member | source | states |
|---|---|---|
| Region.ColumnShape | server.js:297-303 | one column of the window has one entry per y from the clipped low to the clipped high bound, in increasing y, each carrying its grid tile |
| Region.RowsShape | server.js:294-306 | the window read column by column has exactly (x extent) × (y extent) entries, each inside the window with its grid tile, in strict x-major order, and every cell of the window appears |
| Region.RegionAround | server.js:294-306 | the region answer lies entirely inside the grid and inside the square of the given radius, carries each cell's tile, is strictly x-major (so duplicate-free), lists every in-grid cell of the square, and its length is the product of the two clipped extents |
| Region.RadiusZeroIsCentre | server.js:294-306 | radius 0 around an in-grid centre yields exactly the centre tile |
| Region.EmptyOutsideGrid | server.js:296 | a negative radius, or a window lying wholly beyond the grid on the x axis, yields no entries |
| Region.ReadColumn | server.js:297-303 | the inner loop appends exactly one column of the window, in increasing y, to what was built before |
| Region.MapRegion | server.js:294-306 | the server's two nested loops compute exactly the reference region |
| Settlements.Clamp | server.js:132-133 | clamped coordinates always lie in [0, 149], equal the input when it is already inside, and go to the nearer edge otherwise |
| Settlements.ChosenStep | server.js:128-142 | one loop iteration appends the i-th candidate exactly when its clamped site is land, so the chosen ids stay increasing and match the land sites seen so far |
| Settlements.TilesStep | server.js:135-144 | one loop iteration changes only the chosen tile's settlement annotation, keeps terrain and island ids, and keeps every settlement's name on its tile unless a later one took it |
| Settlements.PlaceSettlements | server.js:128-148 | at most 12 settlements; each has increasing loop-index id, its name from the fixed list, clamped in-grid coordinates of island i mod n plus its offset, and the island id of its tile; settlement i exists iff its site is land; every settlement stands on land; its tile carries its name unless a later settlement landed on the same tile; terrain and island ids are unchanged everywhere and tiles with no settlement are untouched |
| Players.SanitizeForgetsOnlyPassword | server.js:317-320 | two players have the same public record exactly when they differ at most in the password hash |
| Players.LookupRace | server.js:152-183 | the lookup finds bonuses exactly for the six races of the table, with their listed bonuses, and reports inherited object members separately from absent names |
| Players.StartingStats | server.js:350-356 | each starting stat is 10 plus that stat's race bonus |
| Players.GainXp | server.js:452-466 | xp grows by the amount; reaching level × 100 gives exactly one level-up (level + 1, xp minus the old threshold, +2/+2/+2/+1/+3); otherwise level and stats stay; nothing else in the record changes |
| Players.GainXpConservesTotal | server.js:452-466 | the total XP ever earned (thresholds passed plus current xp) grows by exactly the granted amount |
| Players.GainXpAtMostOneLevel | server.js:455-458 | the level never drops and rises by at most one per grant |
| Players.LargeGrantLevelsOnce | server.js:455-466 | a 500 XP grant at level 1 gives level 2 with 400 xp, still above the level-2 threshold: there is no second level-up |
| Server.Broadcast | server.js:308-315 | a broadcast reaches a connection exactly when it is authenticated and its socket is open |
| Server.HandleAuth | server.js:216-234 | a token that names no session, or a session of an unknown player, changes nothing and gets no reply; otherwise the connection is bound to that player, the caller alone gets the public record, and the join notice is broadcast including to the caller |
| Server.AppendChat | server.js:245-248 | the new message is the last entry; below the cap it is a plain append, at the cap the oldest entry is dropped; a history within the cap stays within it |
| Server.AppendChatKeepsRecent | server.js:245-248 | the history is always the 100 most recent messages of the whole chat log, oldest first |
| Server.HandleChat | server.js:236-251 | chat from an unauthenticated connection changes nothing and sends nothing; otherwise the message, with the bound username as sender, is pushed onto the history, which drops only its oldest entry and only when over the cap; the earlier entries survive, the cap is kept, and the same entry is broadcast |
| Server.HandleMove | server.js:264-292 | the position changes only if the connection is bound to a known player and the target is in-grid land; then it becomes the target and the caller alone gets the target's tile; water gets "Cannot move to water!" and no change; unbound or out-of-grid gets nothing; only the player map can change |
| Server.EffectiveRadius | server.js:258 | a missing radius and a radius of 0 both become 10; any other radius is kept |
| Server.HandleGetMap | server.js:257-260 | the caller alone gets the region around the requested centre, with the defaulted radius; it is served whether or not the connection is authenticated, and nothing changes |
| Server.HandleMessage | server.js:214-262 | `auth`, `chat`, `move` and `get_map` are each handed to their own handler with the message's fields; an unknown message type is ignored; only auth touches the client map, only chat the history, only move the players; grid, sessions and settlements never change |
| Server.HandleClose | server.js:200-211 | closing an unbound connection changes nothing; closing a bound one removes exactly that entry and sends the leave notice to every other open authenticated connection |
| Api.RegisterAsWritten | server.js:327-337 | a fresh username with a race name inherited from the object prototype fails with an internal error, and every failure leaves the state unchanged |
| Api.Register | server.js:323-371 | errors are checked in order (missing field, taken username, unknown race, then a missing first settlement as an internal error) and leave the state unchanged; success exactly when none applies; then the only change is the new player at level 1, xp 0, 10 + race bonus per stat, on the first settlement, with the default avatar and the current time as creation time |
| Api.RegisterDiffersOnlyOnInheritedNames | server.js:335-356 | the handler as written and the corrected one differ exactly on registrations that are otherwise valid and name an inherited object member as race |
| Api.InheritedRaceIsInternalError | server.js:335-356 | registering race "toString" answers with an internal error as written, with "Invalid race" when corrected |
| Api.RegisterDwarf | server.js:342-363 | a new dwarf starts with strength 15, agility 5, intelligence 10, charisma 10, vitality 20 |
| Api.GrantXp | server.js:438-474 | an unknown session gets Unauthorized and an unknown player PlayerNotFound, both without change; otherwise only the target player changes, by the XP rule, and its public record is returned |
| Api.GrantXpIgnoresSessionOwner | server.js:440-450 | every known session authorises the same grant on any player, whoever the session belongs to |
| Invariants.Boot | server.js:57-68 | a freshly placed world with no players, sessions, connections or chat is well-formed |
| Invariants.BootWorld | server.js:120-148 | settlement placement followed by boot yields a well-formed state with at most 12 settlements |
| Invariants.HandleMessagePreserves | server.js:214-292 | every WebSocket message keeps the state well-formed: no player ever stands on water or off the grid |
| Invariants.HandleClosePreserves | server.js:200-211 | closing a connection keeps the state well-formed |
| Invariants.RegisterPreserves | server.js:342-364 | registration keeps the state well-formed: a new player starts on land |
| Invariants.GrantXpPreserves | server.js:452-468 | an XP grant keeps the state well-formed |
| Api.RegisterAsWrittenSameState | server.js:327-371 | the handler as written leaves exactly the same state as the corrected one on every input; only the answer to inherited race names differs |
| Invariants.RunPreserves | server.js:200-474 | from a well-formed state, any sequence of WebSocket messages, socket closes, registrations and XP grants keeps the state well-formed: no player is ever on water or off the grid, and the chat history never exceeds 100 entries |
| Invariants.AuthenticatedMoveOntoLand | server.js:264-284 | in a well-formed state, an authenticated connection's move onto any in-grid land tile succeeds, and the reply names the tile the player now stands on |

## Findings

| source | as written | input that shows it | evidently intended | confidence | as-written member | corrected member |
|---|---|---|---|---|---|---|
| server.js:335-356 | the race check `!RACES[race]` is a property lookup on an object literal, so inherited members such as `toString`, `constructor` or `__proto__` pass it; reading their `bonuses` then throws, answered as 500 "Internal server error" | a fresh username, any password, race `"toString"` | reject with 400 "Invalid race" | not executed; high | Api.RegisterAsWritten (with Api.InheritedRaceIsInternalError) | Api.Register |

## Left out

- Api.Register and Api.RegisterAsWritten: each registration is modelled as one atomic step, although the handler yields at `await bcrypt.hash` between the duplicate-username check and the insert. Two overlapping registrations of the same fresh name can both pass the check and both succeed, with the second record overwriting the first. The model promises "taken username, state unchanged" only for registrations that do not overlap.
- Login (`POST /api/login`) is not part of this model: it creates sessions and checks credentials with bcrypt, so sessions are an input map here. The 100-connection limit is checked only there.
- Password hashing: the hash stored at registration is a parameter.
- Avatar upload and the avatar route: file I/O and upload filtering.
- The read-only routes (player lookup, admin stats and player list, races, settlements) and HTML/static serving.
- Persistence: `saveGameData`/`loadGameData` and the JSON file format are file I/O. Saves are treated as no-ops and always succeed. In the source a failed save keeps the in-memory change already made. A move then sends no reply, because the message handler's catch swallows the error. A registration or XP grant answers 500 although the change was applied. The model's "failure leaves the state unchanged" holds only because saves cannot fail here.
- Island terrain generation (server.js:86-118) uses `Math.random` and floating-point distances. The generated grid and island list are inputs.
- The random settlement offsets are inputs, already floored. They are not bounded to a quarter of the island size, so the placement guarantees hold for any offsets.
- Settlements.PlaceSettlements: requires at least one island. The source always generates 25, and with none `i % islands.length` is NaN and the loop throws.
- `Date.now()` and `uuidv4()`: timestamps and connection ids are parameters.
- JSON parsing and the wire format. Inbound fields are typed: coordinates and amounts are integers, session tokens and chat messages are strings. Non-numeric coordinates, missing message fields and string XP amounts (which JavaScript would concatenate) are not modelled.
- Socket state. A connection is marked open when it authenticates, because it has just delivered a message. Later transitions of the socket are whatever the state says. The caller's own replies are sent without checking openness, as in the source.
- Broadcast order: the source visits clients in map insertion order. Here recipients are a set.
- Message-handler exceptions: none of the modelled handlers can throw when the grid is a valid 150 × 150 grid, apart from the file write in `saveGameData`, which the model treats as a no-op.
