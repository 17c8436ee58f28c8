/** The in-memory registry of running battles, keyed by lobby id. */
module BattleRegistry {
  import opened Wrappers
  import opened Model
  import opened Battle

  class BattleStateManagerService {
    /** The move repository handed to every battle it creates. */
    const moveRepository: map<string, MoveData>
    var activeBattles: map<Uuid, BattleService>

    /** Every stored battle belongs to the lobby it is stored under. */
    ghost predicate Valid()
      reads this
    {
      forall id :: id in activeBattles ==> activeBattles[id].lobbyId == id
    }

    constructor (moveRepository: map<string, MoveData>)
      ensures this.moveRepository == moveRepository && activeBattles == map[] && Valid()
    {
      this.moveRepository := moveRepository;
      activeBattles := map[];
    }

    /**
     * createBattle: an id already present returns its stored battle and
     * changes nothing; otherwise the battle is built and, only if that
     * succeeds, stored under exactly that id.
     */
    method CreateBattle(lobbyId: Uuid, players: seq<Player>) returns (r: Result<BattleService, BattleError>)
      requires Valid()
      requires forall p, m :: p in players && m in p.team ==> m.player == p
      modifies this`activeBattles
      ensures Valid()
      ensures lobbyId in old(activeBattles) ==>
        r == Success(old(activeBattles)[lobbyId]) && activeBattles == old(activeBattles)
      ensures lobbyId !in old(activeBattles) && r.Failure? ==>
        InitialActive(players).Failure? && r.error == InitialActive(players).error
        && activeBattles == old(activeBattles)
      ensures lobbyId !in old(activeBattles) && r.Success? ==>
        InitialActive(players).Success?
        && fresh(r.value) && r.value.Valid() && r.value.lobbyId == lobbyId && r.value.moveRepository == moveRepository
        && r.value.activePokemon == InitialActive(players).value && r.value.turnNumber == 1 && !r.value.isFinished
        && r.value.winnerId == None
        && activeBattles == old(activeBattles)[lobbyId := r.value]
    {
      if lobbyId in activeBattles {
        return Success(activeBattles[lobbyId]);
      }
      r := BattleService.Create(lobbyId, players, moveRepository);
      if r.Success? {
        ghost var initial := InitialActive(players);
        ghost var members := Members(players);
        activeBattles := activeBattles[lobbyId := r.value];
        assert members == Members(players);
        assert initial == InitialActive(players);
      }
    }

    /** getBattle: the stored battle, or nothing. */
    function GetBattle(lobbyId: Uuid): (r: Option<BattleService>)
      reads this
      ensures r.Some? <==> lobbyId in activeBattles
      ensures r.Some? ==> r.value == activeBattles[lobbyId]
    {
      if lobbyId in activeBattles then Some(activeBattles[lobbyId]) else None
    }

    /** removeBattle: deletes only that id; the result says whether a battle was there. */
    method RemoveBattle(lobbyId: Uuid) returns (removed: bool)
      requires Valid()
      modifies this`activeBattles
      ensures Valid()
      ensures removed == (lobbyId in old(activeBattles))
      ensures activeBattles == old(activeBattles) - {lobbyId}
    {
      removed := lobbyId in activeBattles;
      activeBattles := activeBattles - {lobbyId};
    }

    /** battleExists: whether a battle is stored under the id, exactly when getBattle finds one. */
    function BattleExists(lobbyId: Uuid): (r: bool)
      reads this
      ensures r <==> GetBattle(lobbyId).Some?
    {
      lobbyId in activeBattles
    }
  }
}
