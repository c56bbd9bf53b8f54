/**
 * The state invariant every handler preserves: players stand on land inside
 * the grid and are keyed by their own username, every authenticated
 * connection names a known player, settlements lie on land, and the chat
 * history is within its cap.
 */
module Invariants {
  import opened Wrappers
  import opened World
  import opened Settlements
  import opened Players
  import opened Server
  import opened Api

  predicate PlayersOnLand(s: GameState)
    requires ValidGrid(s.grid)
  {
    forall u :: u in s.players ==>
      s.players[u].username == u && InBounds(s.players[u].x, s.players[u].y)
      && Walkable(TileAt(s.grid, s.players[u].x, s.players[u].y))
  }

  predicate ClientsKnown(s: GameState) {
    forall c :: c in s.clients ==> s.clients[c].username in s.players
  }

  predicate Wellformed(s: GameState) {
    && ValidGrid(s.grid)
    && SettlementsOnLand(s.grid, s.settlements)
    && PlayersOnLand(s)
    && ClientsKnown(s)
    && |s.chatHistory| <= ChatHistoryLimit
  }

  /** The state at first boot: the placed world, no players, sessions, connections or chat. */
  function Boot(grid: Grid, settlements: seq<Settlement>): (s: GameState)
    requires ValidGrid(grid) && SettlementsOnLand(grid, settlements)
    ensures Wellformed(s)
    ensures s.grid == grid && s.settlements == settlements
  {
    GameState(map[], map[], map[], [], grid, settlements)
  }

  /** Placement followed by boot yields a well-formed state. */
  method BootWorld(grid: Grid, islands: seq<Island>, offsets: seq<Offset>) returns (s: GameState)
    requires PlacementInputs(grid, islands, offsets)
    ensures Wellformed(s)
    ensures |s.settlements| <= SettlementCount && s.players == map[] && s.clients == map[]
  {
    var world, settlements := PlaceSettlements(grid, islands, offsets);
    s := Boot(world, settlements);
  }

  lemma HandleMessagePreserves(s: GameState, conn: ConnId, m: ClientMessage, now: int)
    requires Wellformed(s)
    ensures Wellformed(HandleMessage(s, conn, m, now).state)
  {
  }

  lemma HandleClosePreserves(s: GameState, conn: ConnId, now: int)
    requires Wellformed(s)
    ensures Wellformed(HandleClose(s, conn, now).state)
  {
  }

  lemma RegisterPreserves(s: GameState, username: Option<string>, password: Option<string>, race: Option<string>,
                          hash: string, now: int)
    requires Wellformed(s)
    ensures Wellformed(Register(s, username, password, race, hash, now).state)
  {
  }

  lemma GrantXpPreserves(s: GameState, sessionId: string, username: string, amount: int)
    requires Wellformed(s)
    ensures Wellformed(GrantXp(s, sessionId, username, amount).state)
  {
  }

  /**
   * In a well-formed state, an authenticated connection's move onto any land
   * tile succeeds: the player then stands on the tile the reply names.
   */
  lemma AuthenticatedMoveOntoLand(s: GameState, conn: ConnId, x: int, y: int)
    requires Wellformed(s) && conn in s.clients && InBounds(x, y) && Walkable(TileAt(s.grid, x, y))
    ensures var r := HandleMove(s, conn, x, y);
      var p := r.state.players[s.clients[conn].username];
      p.x == x && p.y == y && r.out == [Reply(conn, MoveSuccess(p.x, p.y, TileAt(r.state.grid, p.x, p.y)))]
  {
  }

  /** Anything that can happen to the server after boot. */
  datatype Event =
    | Message(conn: ConnId, message: ClientMessage, now: int)
    | Closed(conn: ConnId, now: int)
    | Registration(username: Option<string>, password: Option<string>, race: Option<string>, hash: string, now: int)
    | XpGrant(sessionId: string, target: string, amount: int)

  function Apply(s: GameState, e: Event): GameState
    requires ValidGrid(s.grid)
  {
    match e
    case Message(conn, m, now) => HandleMessage(s, conn, m, now).state
    case Closed(conn, now) => HandleClose(s, conn, now).state
    case Registration(u, pw, race, hash, now) => RegisterAsWritten(s, u, pw, race, hash, now).state
    case XpGrant(sessionId, target, amount) => GrantXp(s, sessionId, target, amount).state
  }

  /** The state after a run of events, or `None` if some step would index a malformed grid. */
  function Run(s: GameState, events: seq<Event>): Option<GameState>
    decreases |events|
  {
    if |events| == 0 then Some(s)
    else if !ValidGrid(s.grid) then None
    else Run(Apply(s, events[0]), events[1..])
  }

  /**
   * Whatever happens, a well-formed state stays well-formed: no player is
   * ever on water or off the grid, no connection names an unknown player,
   * and the chat history never exceeds 100 entries.
   */
  lemma {:induction false} RunPreserves(s: GameState, events: seq<Event>)
    requires Wellformed(s)
    ensures Run(s, events).Some? && Wellformed(Run(s, events).value)
    decreases |events|
  {
    if |events| > 0 {
      match events[0] {
        case Message(conn, m, now) => HandleMessagePreserves(s, conn, m, now);
        case Closed(conn, now) => HandleClosePreserves(s, conn, now);
        case Registration(u, pw, race, hash, now) =>
          RegisterPreserves(s, u, pw, race, hash, now);
          RegisterAsWrittenSameState(s, u, pw, race, hash, now);
        case XpGrant(sessionId, target, amount) => GrantXpPreserves(s, sessionId, target, amount);
      }
      RunPreserves(Apply(s, events[0]), events[1..]);
    }
  }
}
