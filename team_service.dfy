/** Building a player's six-member team from species names. */
module Teams {
  import opened Wrappers
  import opened Model
  import opened PlayerPokemonDtos

  const TeamSize: nat := 6
  const StartingLevel: int := 100

  /** The two ways team creation is refused, both IllegalArgumentException. */
  datatype TeamError = WrongTeamSize | UnknownPokemon(name: string)

  function ErrorMessage(e: TeamError): string {
    match e
    case WrongTeamSize => "Se requiere un equipo de exactamente 6 Pokémon."
    case UnknownPokemon(name) => "Pokémon no encontrado: " + name
  }

  /** The first name with no species record, if any. */
  function FirstUnknown(names: seq<string>, species: map<string, PokemonData>): (r: Option<string>)
    ensures r.None? <==> forall i :: 0 <= i < |names| ==> names[i] in species
    ensures r.Some? ==> exists k :: 0 <= k < |names| && names[k] == r.value && r.value !in species
                                    && forall i :: 0 <= i < k ==> names[i] in species
  {
    if names == [] then None
    else if names[0] !in species then Some(names[0])
    else
      var r := FirstUnknown(names[1..], species);
      assert r.Some? ==> exists k :: 0 <= k < |names| && names[k] == r.value && r.value !in species
                                    && forall i :: 0 <= i < k ==> names[i] in species by {
        if r.Some? {
          var k :| 0 <= k < |names[1..]| && names[1..][k] == r.value && r.value !in species
                   && forall i :: 0 <= i < k ==> names[1..][i] in species;
          assert names[k + 1] == r.value;
          forall i | 0 <= i < k + 1
            ensures names[i] in species
          {
            if i > 0 {
              assert names[i] == names[1..][i - 1];
            }
          }
        }
      }
      r
  }

  /** A name with no species record after known ones only is the first unknown name. */
  lemma {:induction false} FirstUnknownAt(names: seq<string>, species: map<string, PokemonData>, k: int)
    requires 0 <= k < |names| && names[k] !in species && forall i :: 0 <= i < k ==> names[i] in species
    ensures FirstUnknown(names, species) == Some(names[k])
  {
    if k > 0 {
      assert names[1..][k - 1] == names[k];
      assert forall i :: 0 <= i < k - 1 ==> names[1..][i] in species by {
        forall i | 0 <= i < k - 1
          ensures names[1..][i] in species
        {
          assert names[1..][i] == names[i + 1];
        }
      }
      FirstUnknownAt(names[1..], species, k - 1);
    }
  }

  /** The reason createPlayerTeam refuses a request, if any: a missing or wrongly sized list, then the first unknown name. */
  function Refusal(request: Option<seq<string>>, species: map<string, PokemonData>): Option<TeamError> {
    if request.None? || |request.value| != TeamSize then Some(WrongTeamSize)
    else match FirstUnknown(request.value, species)
      case Some(name) => Some(UnknownPokemon(name))
      case None => None
  }

  /** A member as createPlayerTeam builds it for the name at position i. */
  ghost predicate BuiltMember(m: PlayerPokemon, owner: Player, data: PokemonData, i: int)
    reads m
  {
    m.player == owner && m.basePokemon == data && m.level == StartingLevel && m.currentHp == data.baseHp
    && m.statusCondition == NONE && m.slot == i + 1 && m.id == None && m.moves == []
  }

  class TeamService {
    /** The species repository's findByName, as a map from name to species. */
    const species: map<string, PokemonData>
    /** Everything handed to the team member repository's saveAll, oldest first. */
    var saved: seq<PlayerPokemon>
    var saveAllCalls: nat

    constructor (species: map<string, PokemonData>)
      ensures this.species == species && saved == [] && saveAllCalls == 0
    {
      this.species := species;
      saved := [];
      saveAllCalls := 0;
    }

    /**
     * createPlayerTeam for the current player: a refused request changes
     * nothing; otherwise six new members, in name order with slots 1..6,
     * level 100, full hp and no status, are saved in one saveAll and become
     * the player's team, and their summaries are returned in the same order.
     */
    method CreatePlayerTeam(request: Option<seq<string>>, currentPlayer: Player)
      returns (r: Result<seq<PlayerPokemonDto>, TeamError>)
      modifies this, currentPlayer`team
      ensures r.Failure? <==> Refusal(request, species).Some?
      ensures r.Failure? ==>
        r.error == Refusal(request, species).value
        && saved == old(saved) && saveAllCalls == old(saveAllCalls) && currentPlayer.team == old(currentPlayer.team)
      ensures r.Success? ==>
        var names := request.value;
        var team := currentPlayer.team;
        |team| == TeamSize
        && (forall i :: 0 <= i < TeamSize ==> fresh(team[i]) && BuiltMember(team[i], currentPlayer, species[names[i]], i))
        && saved == old(saved) + team && saveAllCalls == old(saveAllCalls) + 1
        && |r.value| == TeamSize
        && forall i :: 0 <= i < TeamSize ==> r.value[i] == PlayerPokemonDtos.FromEntity(team[i])
    {
      if request.None? || |request.value| != TeamSize {
        return Failure(WrongTeamSize);
      }
      var names := request.value;
      var newTeam: seq<PlayerPokemon> := [];
      var slot := 1;
      for i := 0 to |names|
        invariant slot == i + 1 && |newTeam| == i
        invariant saved == old(saved) && saveAllCalls == old(saveAllCalls) && currentPlayer.team == old(currentPlayer.team)
        invariant forall j :: 0 <= j < i ==> names[j] in species
        invariant forall j :: 0 <= j < i ==> fresh(newTeam[j]) && BuiltMember(newTeam[j], currentPlayer, species[names[j]], j)
      {
        if names[i] !in species {
          FirstUnknownAt(names, species, i);
          return Failure(UnknownPokemon(names[i]));
        }
        var staticData := species[names[i]];
        var newInstance := new PlayerPokemon(None, StartingLevel, staticData.baseHp, NONE, slot, staticData, currentPlayer, []);
        newTeam := newTeam + [newInstance];
        slot := slot + 1;
      }
      saved := saved + newTeam;
      saveAllCalls := saveAllCalls + 1;
      currentPlayer.team := newTeam;
      var dtos := [];
      for i := 0 to |newTeam|
        invariant |dtos| == i
        invariant saved == old(saved) + newTeam && saveAllCalls == old(saveAllCalls) + 1 && currentPlayer.team == newTeam
        invariant forall j :: 0 <= j < i ==> dtos[j] == PlayerPokemonDtos.FromEntity(newTeam[j])
      {
        dtos := dtos + [PlayerPokemonDtos.FromEntity(newTeam[i])];
      }
      return Success(dtos);
    }
  }
}
