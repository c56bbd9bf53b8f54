/**
 * Player records, the race table, the password-free public view of a
 * player, and the XP / level-up rule.
 */
module Players {
  import opened Wrappers

  datatype Stats = Stats(strength: int, agility: int, intelligence: int, charisma: int, vitality: int)

  datatype Player = Player(
    username: string,
    passwordHash: string,
    race: string,
    level: int,
    xp: int,
    stats: Stats,
    x: int,
    y: int,
    avatar: string,
    createdAt: int)

  /** A player record with the password hash removed, as sent to clients. */
  datatype PublicPlayer = PublicPlayer(
    username: string,
    race: string,
    level: int,
    xp: int,
    stats: Stats,
    x: int,
    y: int,
    avatar: string,
    createdAt: int)

  function Sanitize(p: Player): PublicPlayer {
    PublicPlayer(p.username, p.race, p.level, p.xp, p.stats, p.x, p.y, p.avatar, p.createdAt)
  }

  /**
   * The public view is blind to the password hash and to nothing else: two
   * players look the same to clients exactly when they differ at most in
   * their password hash.
   */
  lemma SanitizeForgetsOnlyPassword(p: Player, q: Player)
    ensures Sanitize(p) == Sanitize(q) <==> p == q.(passwordHash := p.passwordHash)
  {
  }

  function AddStats(a: Stats, b: Stats): Stats {
    Stats(a.strength + b.strength, a.agility + b.agility, a.intelligence + b.intelligence,
          a.charisma + b.charisma, a.vitality + b.vitality)
  }

  /** Every stat starts at this value before the race bonus is added. */
  const BaseStat: int := 10

  const BaseStats: Stats := Stats(BaseStat, BaseStat, BaseStat, BaseStat, BaseStat)

  /** The own keys of the race table and their bonuses. */
  function RaceBonuses(race: string): Option<Stats> {
    if race == "human" then Some(Stats(0, 0, 5, 5, 0))
    else if race == "catpeople" then Some(Stats(0, 10, 0, 0, 0))
    else if race == "orc" then Some(Stats(10, 0, 0, -5, 5))
    else if race == "dwarf" then Some(Stats(5, -5, 0, 0, 10))
    else if race == "elf" then Some(Stats(0, 5, 5, 5, -5))
    else if race == "goblin" then Some(Stats(-5, 5, 5, -5, 0))
    else None
  }

  /**
   * Names every JavaScript object literal inherits from Object.prototype: a
   * property lookup `table[name]` on the race table yields a truthy value for
   * them although they are not races.
   */
  const InheritedNames: set<string> := {
    "constructor", "__proto__", "hasOwnProperty", "isPrototypeOf",
    "propertyIsEnumerable", "toString", "toLocaleString", "valueOf",
    "__defineGetter__", "__defineSetter__", "__lookupGetter__", "__lookupSetter__"
  }

  /** What looking a race name up in the race table yields. */
  datatype RaceLookup = OwnRace(bonuses: Stats) | Inherited | Absent

  function LookupRace(race: string): (r: RaceLookup)
    ensures r.OwnRace? <==> RaceBonuses(race).Some?
    ensures r.OwnRace? ==> r.bonuses == RaceBonuses(race).value
    ensures r.Inherited? <==> RaceBonuses(race).None? && race in InheritedNames
  {
    match RaceBonuses(race)
    case Some(b) => OwnRace(b)
    case None => if race in InheritedNames then Inherited else Absent
  }

  /** Starting stats: the base value plus the race bonus, stat by stat. */
  function StartingStats(bonus: Stats): (s: Stats)
    ensures s.strength == BaseStat + bonus.strength
    ensures s.agility == BaseStat + bonus.agility
    ensures s.intelligence == BaseStat + bonus.intelligence
    ensures s.charisma == BaseStat + bonus.charisma
    ensures s.vitality == BaseStat + bonus.vitality
  {
    AddStats(BaseStats, bonus)
  }

  /** XP needed to leave a level. */
  function XpThreshold(level: int): int {
    level * 100
  }

  /** Stat increases of one level-up. */
  const LevelUpGain: Stats := Stats(2, 2, 2, 1, 3)

  /**
   * An XP grant: `xp` increases by `amount`; reaching the current level's
   * threshold causes exactly one level-up, never more, however large the grant.
   */
  function GainXp(p: Player, amount: int): (q: Player)
    ensures q == p.(level := q.level, xp := q.xp, stats := q.stats)
    ensures p.xp + amount >= XpThreshold(p.level) ==>
      && q.level == p.level + 1
      && q.xp == p.xp + amount - XpThreshold(p.level)
      && q.stats.strength == p.stats.strength + 2
      && q.stats.agility == p.stats.agility + 2
      && q.stats.intelligence == p.stats.intelligence + 2
      && q.stats.charisma == p.stats.charisma + 1
      && q.stats.vitality == p.stats.vitality + 3
    ensures p.xp + amount < XpThreshold(p.level) ==>
      q.level == p.level && q.xp == p.xp + amount && q.stats == p.stats
  {
    var xp := p.xp + amount;
    var threshold := XpThreshold(p.level);
    if xp >= threshold then
      p.(level := p.level + 1, xp := xp - threshold, stats := AddStats(p.stats, LevelUpGain))
    else
      p.(xp := xp)
  }

  /** All XP a player has earned: the thresholds of the levels left behind plus the current xp. */
  function TotalXp(level: int, xp: int): int {
    50 * level * (level - 1) + xp
  }

  /** A grant neither creates nor loses XP: the total earned grows by exactly `amount`. */
  lemma GainXpConservesTotal(p: Player, amount: int)
    ensures TotalXp(GainXp(p, amount).level, GainXp(p, amount).xp) == TotalXp(p.level, p.xp) + amount
  {
  }

  /** The level goes up by at most one per grant, and never down. */
  lemma GainXpAtMostOneLevel(p: Player, amount: int)
    ensures p.level <= GainXp(p, amount).level <= p.level + 1
  {
  }

  /**
   * A grant large enough for two thresholds still yields one level-up and
   * leaves xp above the next threshold.
   */
  lemma LargeGrantLevelsOnce(p: Player)
    requires p.level == 1 && p.xp == 0
    ensures GainXp(p, 500).level == 2
    ensures GainXp(p, 500).xp == 400
    ensures GainXp(p, 500).xp >= XpThreshold(GainXp(p, 500).level)
  {
  }
}
