/**
 * The game's entities and enumerations. Reference data that the core never
 * changes (types, moves, abilities, species) are datatypes; the entities whose
 * fields the core updates in place (a team member's hit points, a player's
 * lobby and team, a lobby's id and players) are classes.
 */
module Model {
  import opened Wrappers

  /** A java.util.UUID, represented by its canonical text (what toString() returns). */
  type Uuid = string

  datatype GameStatus = WAITING | IN_PROGRESS | FINISHED

  datatype StatusCondition = NONE | POISONED | BADLY_POISONED | PARALYZED | BURNED | ASLEEP | FROZEN

  /**
   * A type record. Java compares type records by id only, so each damage
   * relation is kept as the set of the ids of the attacking types it holds.
   */
  datatype TypeData = TypeData(
    id: int,
    name: string,
    doubleDamageFrom: set<int>,
    halfDamageFrom: set<int>,
    noDamageFrom: set<int>)

  /** A move record (its database id plays no part in the core). */
  datatype MoveData = MoveData(
    name: string,
    power: int,
    accuracy: int,
    pp: int,
    priority: int,
    damageClass: string,
    moveType: TypeData)

  datatype AbilityData = AbilityData(name: string, description: string)

  /** A species record with its base stats. */
  datatype PokemonData = PokemonData(
    name: string,
    baseHp: int,
    baseAttack: int,
    baseDefense: int,
    baseSpecialAttack: int,
    baseSpecialDefense: int,
    baseSpeed: int,
    types: set<TypeData>,
    moves: set<MoveData>,
    abilities: set<AbilityData>)

  /** A move known by one team member, with its power points. */
  datatype PokemonMove = PokemonMove(currentPp: int, maxPp: int, staticMoveData: MoveData)

  /** The account behind a player: its id and login name. */
  datatype User = User(id: int, username: string)

  /** A user's game identity: the lobby it sits in and its team, in slot order. */
  class Player {
    const id: int
    const user: User
    var gameLobby: GameLobby?
    var team: seq<PlayerPokemon>

    constructor (id: int, user: User)
      ensures this.id == id && this.user == user
      ensures gameLobby == null && team == []
    {
      this.id := id;
      this.user := user;
      gameLobby := null;
      team := [];
    }
  }

  /** One member of a player's team; a battle lowers its currentHp in place. */
  class PlayerPokemon {
    const id: Option<int>
    const level: int
    var currentHp: int
    const statusCondition: StatusCondition
    const slot: int
    const basePokemon: PokemonData
    const player: Player
    const moves: seq<PokemonMove>

    constructor (id: Option<int>, level: int, currentHp: int, statusCondition: StatusCondition,
                 slot: int, basePokemon: PokemonData, player: Player, moves: seq<PokemonMove>)
      ensures this.id == id && this.level == level && this.currentHp == currentHp
      ensures this.statusCondition == statusCondition && this.slot == slot
      ensures this.basePokemon == basePokemon && this.player == player && this.moves == moves
    {
      this.id := id;
      this.level := level;
      this.currentHp := currentHp;
      this.statusCondition := statusCondition;
      this.slot := slot;
      this.basePokemon := basePokemon;
      this.player := player;
      this.moves := moves;
    }
  }

  /** `s` without its first element equal to `x`, as java.util.List.remove(Object) leaves it. */
  function RemoveFirst<T(==)>(s: seq<T>, x: T): (r: seq<T>)
    ensures x !in s ==> r == s
    ensures x in s ==> |r| == |s| - 1
    ensures multiset(r) == multiset(s) - multiset{x}
  {
    if s == [] then []
    else
      assert s == [s[0]] + s[1..];
      if s[0] == x then s[1..]
      else [s[0]] + RemoveFirst(s[1..], x)
  }

  /** When `i` is the first position holding `x`, RemoveFirst cuts out exactly that element. */
  lemma {:induction false} RemoveFirstCutsFirstOccurrence<T>(s: seq<T>, x: T, i: int)
    requires 0 <= i < |s| && s[i] == x && x !in s[..i]
    ensures RemoveFirst(s, x) == s[..i] + s[i + 1..]
  {
    if i == 0 {
      assert s[..0] == [];
    } else {
      assert s[0] in s[..i];
      assert s[1..][..i - 1] == s[1..i];
      assert x !in s[1..][..i - 1];
      RemoveFirstCutsFirstOccurrence(s[1..], x, i - 1);
      assert s[..i] == [s[0]] + s[1..][..i - 1];
      assert s[i + 1..] == s[1..][i..];
    }
  }

  /** A game lobby: its id (assigned when first persisted), status, visibility and players. */
  class GameLobby {
    var id: Option<Uuid>
    var status: GameStatus
    var isPublic: bool
    var players: seq<Player>

    /** The builder: a lobby with no id and, by default, no players. */
    constructor (status: GameStatus, isPublic: bool)
      ensures id == None && this.status == status && this.isPublic == isPublic && players == []
    {
      id := None;
      this.status := status;
      this.isPublic := isPublic;
      players := [];
    }

    /** Runs before the lobby is first persisted: draws an id only when there is none. */
    method PrePersist(freshId: Uuid)
      modifies this`id
      ensures old(id).None? ==> id == Some(freshId)
      ensures old(id).Some? ==> id == old(id)
    {
      if id.None? {
        id := Some(freshId);
      }
    }

    /** Appends the player and points its back-reference at this lobby. */
    method AddPlayer(player: Player)
      modifies this`players, player`gameLobby
      ensures players == old(players) + [player]
      ensures player.gameLobby == this
    {
      players := players + [player];
      player.gameLobby := this;
    }

    /** Removes the first occurrence of the player and clears its back-reference. */
    method RemovePlayer(player: Player)
      modifies this`players, player`gameLobby
      ensures players == RemoveFirst(old(players), player)
      ensures player.gameLobby == null
    {
      players := RemoveFirst(players, player);
      player.gameLobby := null;
    }
  }
}
