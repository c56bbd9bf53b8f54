/**
 * The authoritative game state and the WebSocket side of the server: the
 * message router (`auth`, `chat`, `move`, `get_map`), the close handler and
 * broadcast. Each handler is a step from a state to a new state plus the
 * outbound messages it sends. Clock readings are passed in as `now`.
 */
module Server {
  import opened Wrappers
  import opened World
  import opened Region
  import opened Settlements
  import opened Players

  /** The per-socket identifier assigned on connection. */
  type ConnId = string

  /** The chat history keeps at most this many most recent messages. */
  const ChatHistoryLimit: int := 100

  /** The radius used by `get_map` when the request gives none, or 0. */
  const DefaultRadius: int := 10

  const SystemSender: string := "System"
  const WaterMessage: string := "Cannot move to water!"

  datatype Session = Session(username: string, createdAt: int)

  /**
   * A connection that has authenticated. `open` is whether its socket is
   * currently in the OPEN state.
   */
  datatype Client = Client(username: string, sessionId: string, open: bool)

  datatype ChatEntry = ChatEntry(sender: string, message: string, timestamp: int)

  datatype GameState = GameState(
    players: map<string, Player>,
    sessions: map<string, Session>,
    clients: map<ConnId, Client>,
    chatHistory: seq<ChatEntry>,
    grid: Grid,
    settlements: seq<Settlement>)

  /** Inbound messages, by their `type` field; `Other` is any other type. */
  datatype ClientMessage =
    | Auth(sessionId: string)
    | Chat(message: string)
    | Move(x: int, y: int)
    | GetMap(x: int, y: int, radius: Option<int>)
    | Other

  datatype ServerMessage =
    | AuthSuccess(player: PublicPlayer)
    | ChatMessage(entry: ChatEntry)
    | MoveSuccess(x: int, y: int, tile: Tile)
    | MoveFailed(message: string)
    | MapData(data: seq<RegionEntry>)

  /** One message handed to the sockets of a set of connections. */
  datatype Outbound = Outbound(recipients: set<ConnId>, message: ServerMessage)

  /** The result of handling one event. */
  datatype Step = Step(state: GameState, out: seq<Outbound>)

  function Reply(conn: ConnId, m: ServerMessage): Outbound {
    Outbound({conn}, m)
  }

  /**
   * Sends to every authenticated connection whose socket is open; the others
   * are skipped, and the client map itself is not touched.
   */
  function Broadcast(clients: map<ConnId, Client>, m: ServerMessage): (o: Outbound)
    ensures o.message == m
    ensures forall id :: id in o.recipients <==> id in clients && clients[id].open
  {
    Outbound((set id | id in clients && clients[id].open), m)
  }

  function JoinText(username: string): string { username + " has joined the game!" }
  function LeaveText(username: string): string { username + " has left the game." }

  /** The session token names a session whose user is a known player. */
  predicate Resolves(s: GameState, sessionId: string) {
    sessionId in s.sessions && s.sessions[sessionId].username in s.players
  }

  /**
   * `auth`: binds the connection to the session's player, answers the caller
   * with the player's public record and announces the join to everyone bound
   * (the caller included). A token that does not resolve is silently ignored.
   */
  function HandleAuth(s: GameState, conn: ConnId, sessionId: string, now: int): (r: Step)
    ensures !Resolves(s, sessionId) ==> r == Step(s, [])
    ensures Resolves(s, sessionId) ==>
      var p := s.players[s.sessions[sessionId].username];
      && r.state == s.(clients := s.clients[conn := Client(p.username, sessionId, true)])
      && r.out == [Reply(conn, AuthSuccess(Sanitize(p))),
                   Broadcast(r.state.clients, ChatMessage(ChatEntry(SystemSender, JoinText(p.username), now)))]
  {
    if sessionId in s.sessions && s.sessions[sessionId].username in s.players then
      var p := s.players[s.sessions[sessionId].username];
      var clients := s.clients[conn := Client(p.username, sessionId, true)];
      Step(s.(clients := clients),
           [Reply(conn, AuthSuccess(Sanitize(p))),
            Broadcast(clients, ChatMessage(ChatEntry(SystemSender, JoinText(p.username), now)))])
    else
      Step(s, [])
  }

  /** Appends to the chat history, dropping the oldest entry once it holds more than the limit. */
  function AppendChat(history: seq<ChatEntry>, e: ChatEntry): (h: seq<ChatEntry>)
    ensures |h| > 0 && h[|h| - 1] == e
    ensures |history| < ChatHistoryLimit ==> h == history + [e]
    ensures |history| >= ChatHistoryLimit ==> h == history[1..] + [e]
    ensures |history| <= ChatHistoryLimit ==> |h| <= ChatHistoryLimit
  {
    var h := history + [e];
    if |h| > ChatHistoryLimit then h[1..] else h
  }

  /** The last (at most) n entries of a log. */
  function Recent(log: seq<ChatEntry>, n: nat): seq<ChatEntry> {
    if |log| <= n then log else log[|log| - n..]
  }

  /**
   * Starting from an empty history, the history is always the 100 most
   * recent messages of the full chat log, oldest first.
   */
  lemma AppendChatKeepsRecent(log: seq<ChatEntry>, e: ChatEntry)
    ensures AppendChat(Recent(log, ChatHistoryLimit), e) == Recent(log + [e], ChatHistoryLimit)
  {
  }

  /**
   * `chat`: from a bound connection, records the message under the bound
   * username and broadcasts it; from an unbound one, does nothing.
   */
  function HandleChat(s: GameState, conn: ConnId, message: string, now: int): (r: Step)
    ensures conn !in s.clients ==> r == Step(s, [])
    ensures conn in s.clients ==>
      var e := ChatEntry(s.clients[conn].username, message, now);
      && r.state == s.(chatHistory := r.state.chatHistory)
      && r.state.chatHistory == AppendChat(s.chatHistory, e)
      && r.out == [Broadcast(s.clients, ChatMessage(e))]
  {
    if conn in s.clients then
      var e := ChatEntry(s.clients[conn].username, message, now);
      Step(s.(chatHistory := AppendChat(s.chatHistory, e)), [Broadcast(s.clients, ChatMessage(e))])
    else
      Step(s, [])
  }

  /** The conditions under which a move changes the player's position. */
  predicate MoveAllowed(s: GameState, conn: ConnId, x: int, y: int)
    requires ValidGrid(s.grid)
  {
    && conn in s.clients
    && s.clients[conn].username in s.players
    && InBounds(x, y)
    && Walkable(TileAt(s.grid, x, y))
  }

  /**
   * `move`: a bound connection may move its player onto any in-bounds land
   * tile and is told the tile; a water target is refused with a reply and no
   * change; an unbound connection or an out-of-bounds target gets nothing.
   */
  function HandleMove(s: GameState, conn: ConnId, x: int, y: int): (r: Step)
    requires ValidGrid(s.grid)
    ensures r.state.players.Keys == s.players.Keys
    ensures r.state == s.(players := r.state.players)
    ensures r.state != s ==> MoveAllowed(s, conn, x, y)
    ensures MoveAllowed(s, conn, x, y) ==>
      var u := s.clients[conn].username;
      && r.state.players == s.players[u := s.players[u].(x := x, y := y)]
      && r.out == [Reply(conn, MoveSuccess(x, y, TileAt(s.grid, x, y)))]
    ensures !MoveAllowed(s, conn, x, y) ==> r.state == s
    ensures conn in s.clients && s.clients[conn].username in s.players && InBounds(x, y)
            && !Walkable(TileAt(s.grid, x, y)) ==>
      r.out == [Reply(conn, MoveFailed(WaterMessage))]
    ensures conn !in s.clients || s.clients[conn].username !in s.players || !InBounds(x, y) ==>
      r == Step(s, [])
  {
    if conn !in s.clients then Step(s, [])
    else
      var u := s.clients[conn].username;
      if u !in s.players then Step(s, [])
      else if 0 <= x < MapSize && 0 <= y < MapSize then
        var tile := TileAt(s.grid, x, y);
        if tile.terrain != Water then
          Step(s.(players := s.players[u := s.players[u].(x := x, y := y)]), [Reply(conn, MoveSuccess(x, y, tile))])
        else
          Step(s, [Reply(conn, MoveFailed(WaterMessage))])
      else
        Step(s, [])
  }

  /** JavaScript's `radius || 10`: a missing radius and a radius of 0 both mean 10. */
  function EffectiveRadius(radius: Option<int>): (r: int)
    ensures radius.Some? && radius.value != 0 ==> r == radius.value
    ensures radius == None || radius == Some(0) ==> r == DefaultRadius
  {
    match radius
    case Some(v) => if v != 0 then v else DefaultRadius
    case None => DefaultRadius
  }

  /**
   * `get_map`: answers the caller alone with the region around (x, y); served
   * whether or not the connection is authenticated, and changes nothing.
   */
  function HandleGetMap(s: GameState, conn: ConnId, x: int, y: int, radius: Option<int>): (r: Step)
    requires ValidGrid(s.grid)
    ensures r.state == s
    ensures |r.out| == 1 && r.out[0].recipients == {conn} && r.out[0].message.MapData?
    ensures forall k :: 0 <= k < |r.out[0].message.data| ==>
      var e := r.out[0].message.data[k];
      InBounds(e.x, e.y) && e.tile == TileAt(s.grid, e.x, e.y)
    ensures XMajor(r.out[0].message.data)
    ensures r.out[0].message.data == RegionAround(s.grid, x, y, EffectiveRadius(radius))
  {
    Step(s, [Reply(conn, MapData(RegionAround(s.grid, x, y, EffectiveRadius(radius))))])
  }

  /** Dispatches one inbound message of connection `conn`. */
  function HandleMessage(s: GameState, conn: ConnId, m: ClientMessage, now: int): (r: Step)
    requires ValidGrid(s.grid)
    ensures m.Auth? ==> r == HandleAuth(s, conn, m.sessionId, now)
    ensures m.Chat? ==> r == HandleChat(s, conn, m.message, now)
    ensures m.Move? ==> r == HandleMove(s, conn, m.x, m.y)
    ensures m.GetMap? ==> r == HandleGetMap(s, conn, m.x, m.y, m.radius)
    ensures m.Other? ==> r == Step(s, [])
    ensures !m.Auth? ==> r.state.clients == s.clients
    ensures !m.Chat? ==> r.state.chatHistory == s.chatHistory
    ensures !m.Move? ==> r.state.players == s.players
    ensures r.state.grid == s.grid && r.state.sessions == s.sessions && r.state.settlements == s.settlements
  {
    match m
    case Auth(sessionId) => HandleAuth(s, conn, sessionId, now)
    case Chat(message) => HandleChat(s, conn, message, now)
    case Move(x, y) => HandleMove(s, conn, x, y)
    case GetMap(x, y, radius) => HandleGetMap(s, conn, x, y, radius)
    case Other => Step(s, [])
  }

  /**
   * Socket close: a bound connection is unbound and its departure announced
   * to the remaining open connections (its own socket is already closed);
   * closing an unbound connection changes nothing.
   */
  function HandleClose(s: GameState, conn: ConnId, now: int): (r: Step)
    ensures conn !in s.clients ==> r == Step(s, [])
    ensures conn in s.clients ==>
      && r.state == s.(clients := s.clients - {conn})
      && |r.out| == 1
      && r.out[0].message == ChatMessage(ChatEntry(SystemSender, LeaveText(s.clients[conn].username), now))
      && (forall id :: id in r.out[0].recipients <==> id in s.clients && id != conn && s.clients[id].open)
  {
    if conn in s.clients then
      var c := s.clients[conn];
      var closing := s.clients[conn := c.(open := false)];
      Step(s.(clients := s.clients - {conn}),
           [Broadcast(closing, ChatMessage(ChatEntry(SystemSender, LeaveText(c.username), now)))])
    else
      Step(s, [])
  }
}
