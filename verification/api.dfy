/**
 * The decision logic of the two REST handlers that change player state:
 * registration and XP grants. Password hashing and the clock are inputs
 * (`hash`, `now`); status codes are kept as the error kinds they answer with.
 */
module Api {
  import opened Wrappers
  import opened World
  import opened Settlements
  import opened Players
  import opened Server

  datatype ApiError = MissingFields | UsernameTaken | InvalidRace | Unauthorized | PlayerNotFound | InternalError

  /** The state after a request, and what the request is answered with. */
  datatype Response<T> = Response(state: GameState, result: Result<T, ApiError>)

  /** A request field is present and not the empty string (JavaScript truthiness of a string). */
  predicate Truthy(field: Option<string>) {
    field.Some? && field.value != ""
  }

  const DefaultAvatar: string := "/images/default-avatar.png"

  /** The record a successful registration stores. */
  function NewPlayer(username: string, hash: string, race: string, bonus: Stats, spawn: Settlement, now: int): Player {
    Player(username, hash, race, 1, 0, StartingStats(bonus), spawn.x, spawn.y, DefaultAvatar, now)
  }

  /**
   * Registration as the handler is written: the race check only asks whether
   * looking the name up yields something, so names inherited from
   * Object.prototype pass it and then fail when their bonuses are read,
   * which the handler's catch turns into an internal error. A missing first
   * settlement fails the same way.
   */
  function RegisterAsWritten(s: GameState, username: Option<string>, password: Option<string>, race: Option<string>,
                             hash: string, now: int): (r: Response<()>)
    ensures r.result.Failure? ==> r.state == s
    ensures (Truthy(username) && Truthy(password) && Truthy(race) && username.value !in s.players
             && LookupRace(race.value).Inherited?) ==> r.result == Failure(InternalError)
  {
    if !Truthy(username) || !Truthy(password) || !Truthy(race) then Response(s, Failure(MissingFields))
    else if username.value in s.players then Response(s, Failure(UsernameTaken))
    else
      match LookupRace(race.value)
      case Absent => Response(s, Failure(InvalidRace))
      case Inherited => Response(s, Failure(InternalError))
      case OwnRace(bonus) =>
        if |s.settlements| == 0 then Response(s, Failure(InternalError))
        else
          var p := NewPlayer(username.value, hash, race.value, bonus, s.settlements[0], now);
          Response(s.(players := s.players[username.value := p]), Success(()))
  }

  /**
   * Registration with the race check the handler evidently intends: only the
   * six races of the table are accepted. Errors come in a fixed order
   * (missing field, taken username, unknown race) and leave the state alone;
   * success adds exactly the new player, at level 1 with 0 xp, base stats
   * plus the race bonus, standing on the first settlement.
   */
  function Register(s: GameState, username: Option<string>, password: Option<string>, race: Option<string>,
                    hash: string, now: int): (r: Response<()>)
    ensures r.result.Failure? ==> r.state == s
    ensures !Truthy(username) || !Truthy(password) || !Truthy(race) ==> r.result == Failure(MissingFields)
    ensures Truthy(username) && Truthy(password) && Truthy(race) ==>
      && (username.value in s.players ==> r.result == Failure(UsernameTaken))
      && (username.value !in s.players && RaceBonuses(race.value).None? ==> r.result == Failure(InvalidRace))
      && (username.value !in s.players && RaceBonuses(race.value).Some? && |s.settlements| == 0 ==>
            r.result == Failure(InternalError))
    ensures r.result.Success? <==>
      Truthy(username) && Truthy(password) && Truthy(race) && username.value !in s.players
      && RaceBonuses(race.value).Some? && |s.settlements| > 0
    ensures r.result.Success? ==> Truthy(username) && username.value in r.state.players
    ensures r.result.Success? ==>
      var p := r.state.players[username.value];
      && r.state == s.(players := r.state.players)
      && r.state.players == s.players[username.value := p]
      && p.username == username.value && p.passwordHash == hash && p.race == race.value
      && p.level == 1 && p.xp == 0
      && p.stats == StartingStats(RaceBonuses(race.value).value)
      && p.x == s.settlements[0].x && p.y == s.settlements[0].y
      && p.avatar == DefaultAvatar && p.createdAt == now
  {
    if !Truthy(username) || !Truthy(password) || !Truthy(race) then Response(s, Failure(MissingFields))
    else if username.value in s.players then Response(s, Failure(UsernameTaken))
    else
      match RaceBonuses(race.value)
      case None => Response(s, Failure(InvalidRace))
      case Some(bonus) =>
        if |s.settlements| == 0 then Response(s, Failure(InternalError))
        else
          var p := NewPlayer(username.value, hash, race.value, bonus, s.settlements[0], now);
          Response(s.(players := s.players[username.value := p]), Success(()))
  }

  /** The two agree on every race name except those inherited from Object.prototype. */
  lemma RegisterDiffersOnlyOnInheritedNames(s: GameState, username: Option<string>, password: Option<string>,
                                            race: Option<string>, hash: string, now: int)
    ensures RegisterAsWritten(s, username, password, race, hash, now) != Register(s, username, password, race, hash, now)
      <==> Truthy(username) && Truthy(password) && Truthy(race) && username.value !in s.players
           && race.value in InheritedNames && RaceBonuses(race.value).None?
  {
  }

  /** Both versions leave the same state: they differ only in the answer to inherited race names. */
  lemma RegisterAsWrittenSameState(s: GameState, username: Option<string>, password: Option<string>,
                                   race: Option<string>, hash: string, now: int)
    ensures RegisterAsWritten(s, username, password, race, hash, now).state == Register(s, username, password, race, hash, now).state
  {
  }

  /** "toString" as a race: the handler answers 500 where "Invalid race" (400) is meant. */
  lemma InheritedRaceIsInternalError(s: GameState, hash: string, now: int)
    requires "Ann" !in s.players
    ensures RegisterAsWritten(s, Some("Ann"), Some("pw"), Some("toString"), hash, now).result == Failure(InternalError)
    ensures Register(s, Some("Ann"), Some("pw"), Some("toString"), hash, now).result == Failure(InvalidRace)
  {
  }

  /** A dwarf starts with strength 15, agility 5, intelligence 10, charisma 10 and vitality 20. */
  lemma RegisterDwarf(s: GameState, hash: string, now: int)
    requires "Ann" !in s.players && |s.settlements| > 0
    ensures Register(s, Some("Ann"), Some("pw"), Some("dwarf"), hash, now).result.Success?
    ensures Register(s, Some("Ann"), Some("pw"), Some("dwarf"), hash, now).state.players["Ann"].stats == Stats(15, 5, 10, 10, 20)
  {
  }

  /**
   * The XP endpoint: any known session may grant XP to any known player;
   * the target player's XP rule is applied and the public record returned.
   */
  function GrantXp(s: GameState, sessionId: string, username: string, amount: int): (r: Response<PublicPlayer>)
    ensures r.result.Failure? ==> r.state == s
    ensures sessionId !in s.sessions ==> r.result == Failure(Unauthorized)
    ensures sessionId in s.sessions && username !in s.players ==> r.result == Failure(PlayerNotFound)
    ensures sessionId in s.sessions && username in s.players ==>
      var q := GainXp(s.players[username], amount);
      && r.state == s.(players := s.players[username := q])
      && r.result == Success(Sanitize(q))
  {
    if sessionId !in s.sessions then Response(s, Failure(Unauthorized))
    else if username !in s.players then Response(s, Failure(PlayerNotFound))
    else
      var q := GainXp(s.players[username], amount);
      Response(s.(players := s.players[username := q]), Success(Sanitize(q)))
  }

  /** Whose session it is plays no part: every known session authorises the same grant. */
  lemma GrantXpIgnoresSessionOwner(s: GameState, a: string, b: string, username: string, amount: int)
    requires a in s.sessions && b in s.sessions
    ensures GrantXp(s, a, username, amount) == GrantXp(s, b, username, amount)
  {
  }
}
