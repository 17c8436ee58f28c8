/** The team-member summary sent to clients. */
module PlayerPokemonDtos {
  import opened Wrappers
  import opened Model

  datatype PlayerPokemonDto = PlayerPokemonDto(
    id: Option<int>,
    basePokemonName: string,
    level: int,
    currentHp: int,
    maxHp: int,
    status: StatusCondition,
    slot: int,
    moves: set<string>)

  /** The names of the moves' static records; equal names collapse, so there are at most as many names as moves. */
  function MoveNames(moves: seq<PokemonMove>): (names: set<string>)
    ensures |names| <= |moves|
    ensures forall n :: n in names <==> exists i :: 0 <= i < |moves| && moves[i].staticMoveData.name == n
  {
    if moves == [] then {}
    else
      var rest := MoveNames(moves[1..]);
      assert forall n :: (exists i :: 1 <= i < |moves| && moves[i].staticMoveData.name == n) ==> n in rest by {
        forall n | exists i :: 1 <= i < |moves| && moves[i].staticMoveData.name == n
          ensures n in rest
        {
          var i :| 1 <= i < |moves| && moves[i].staticMoveData.name == n;
          assert moves[1..][i - 1] == moves[i];
        }
      }
      {moves[0].staticMoveData.name} + rest
  }

  /** fromEntity: maxHp is the species' base hp and the moves are their names; the other fields are copied. */
  function FromEntity(entity: PlayerPokemon): (dto: PlayerPokemonDto)
    reads entity
    ensures dto.id == entity.id && dto.level == entity.level && dto.currentHp == entity.currentHp
    ensures dto.status == entity.statusCondition && dto.slot == entity.slot
    ensures dto.basePokemonName == entity.basePokemon.name && dto.maxHp == entity.basePokemon.baseHp
    ensures |dto.moves| <= |entity.moves|
    ensures forall n :: n in dto.moves <==> exists i :: 0 <= i < |entity.moves| && entity.moves[i].staticMoveData.name == n
  {
    PlayerPokemonDto(
      entity.id,
      entity.basePokemon.name,
      entity.level,
      entity.currentHp,
      entity.basePokemon.baseHp,
      entity.statusCondition,
      entity.slot,
      MoveNames(entity.moves))
  }
}
