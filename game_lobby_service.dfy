/**
 * Lobby rules: creating a public or a private lobby with its creator as the
 * only player, joining a lobby under the guards already-a-member, not
 * WAITING and full (in that order), and the membership check before a team
 * is chosen. The lobby repository is a map from id to lobby; sent messages
 * are recorded as outputs.
 */
module Lobbies {
  import opened Wrappers
  import opened Model
  import opened GameLobbyDtos
  import opened Teams

  const MaxPlayers: nat := 2
  const PublicLobbyTopic: string := "/topic/lobby"
  const LobbyCreatedQueue: string := "/queue/lobby-created"
  const JoinResponseQueue: string := "/queue/join-response"

  /** What a message carries: a lobby summary, a text, or the PLAYER_READY notice. */
  datatype Payload = LobbyInfo(lobby: GameLobbyDto) | Text(text: string) | PlayerReady(username: string, lobbyId: Uuid)

  /** A message to a topic, or to one user's private destination. */
  datatype Message = Broadcast(destination: string, payload: Payload) | ToUser(username: string, destination: string, payload: Payload)

  /** Why a lobby operation throws. */
  datatype LobbyError =
    | LobbyNotFound(lobbyId: Uuid)     // IllegalArgumentException in joinLobby
    | LobbyNotFoundForTeam             // IllegalArgumentException in processTeamSelection
    | NotWaiting                       // IllegalStateException
    | LobbyFull                        // IllegalStateException
    | NotInLobby                       // SecurityException
    | TeamRefused(cause: TeamError)    // the team service's IllegalArgumentException

  function ErrorMessage(e: LobbyError): string {
    match e
    case LobbyNotFound(id) => "Lobby no encontrado con ID: " + id
    case LobbyNotFoundForTeam => "Lobby no encontrado"
    case NotWaiting => "No se puede unir: el lobby ya está en juego o ha terminado."
    case LobbyFull => "El lobby está lleno."
    case NotInLobby => "El jugador no pertenece a este lobby."
    case TeamRefused(cause) => Teams.ErrorMessage(cause)
  }

  /** Whether some player of the list has that username. */
  predicate HasMember(players: seq<Player>, username: string) {
    exists i :: 0 <= i < |players| && players[i].user.username == username
  }

  /** The verdict of joinLobby's guards on a found lobby. */
  datatype JoinVerdict = AlreadyMember | Refused(reason: LobbyError) | Admitted

  /** The guards of joinLobby, in source order: membership by username, then status, then capacity. */
  function JoinCheck(players: seq<Player>, status: GameStatus, username: string): (v: JoinVerdict)
    ensures v == AlreadyMember <==> HasMember(players, username)
    ensures v == Refused(NotWaiting) <==> !HasMember(players, username) && status != WAITING
    ensures v == Refused(LobbyFull) <==> !HasMember(players, username) && status == WAITING && |players| >= MaxPlayers
    ensures v == Admitted <==> !HasMember(players, username) && status == WAITING && |players| < MaxPlayers
  {
    if HasMember(players, username) then AlreadyMember
    else if status != WAITING then Refused(NotWaiting)
    else if |players| >= MaxPlayers then Refused(LobbyFull)
    else Admitted
  }

  /** Admission only ever grows a lobby to at most two players, keeping the new player's name visible among them. */
  lemma AdmissionKeepsLobbySmall(players: seq<Player>, status: GameStatus, joining: Player)
    requires JoinCheck(players, status, joining.user.username) == Admitted
    ensures |players + [joining]| <= MaxPlayers
    ensures status == WAITING
    ensures HasMember(players + [joining], joining.user.username)
    ensures forall i :: 0 <= i < |players| ==> players[i].user.username != joining.user.username
  {
    assert (players + [joining])[|players|] == joining;
  }

  class GameLobbyService {
    /** The lobby repository: each saved lobby under its id. */
    var lobbies: map<Uuid, GameLobby>
    /** Messages sent through the messaging template, oldest first. */
    var messages: seq<Message>
    const teamService: TeamService

    ghost predicate Valid()
      reads this, lobbies.Values
    {
      forall id :: id in lobbies ==> lobbies[id].id == Some(id)
    }

    constructor (teamService: TeamService)
      ensures lobbies == map[] && messages == [] && this.teamService == teamService && Valid()
    {
      lobbies := map[];
      messages := [];
      this.teamService := teamService;
    }

    /** save of a new lobby: the pre-persist hook draws its id, and the repository stores it under that id. */
    method SaveNew(lobby: GameLobby, freshId: Uuid)
      requires Valid() && lobby.id == None && freshId !in lobbies && lobby !in lobbies.Values
      modifies this`lobbies, lobby`id
      ensures Valid()
      ensures lobby.id == Some(freshId) && lobbies == old(lobbies)[freshId := lobby]
    {
      lobby.PrePersist(freshId);
      lobbies := lobbies[freshId := lobby];
    }

    /** The creation steps shared by both lobby kinds: a WAITING lobby with the player as its only member, saved. */
    method NewLobby(player: Player, isPublic: bool, freshId: Uuid) returns (lobby: GameLobby)
      requires Valid() && freshId !in lobbies
      modifies this`lobbies, player`gameLobby
      ensures Valid()
      ensures fresh(lobby) && lobbies == old(lobbies)[freshId := lobby]
      ensures lobby.id == Some(freshId) && lobby.status == WAITING && lobby.isPublic == isPublic
      ensures lobby.players == [player] && player.gameLobby == lobby
    {
      lobby := new GameLobby(WAITING, isPublic);
      lobby.AddPlayer(player);
      SaveNew(lobby, freshId);
    }

    /** createAndBroadcastPublicLobby: a new public lobby, announced on the public lobby topic. */
    method CreateAndBroadcastPublicLobby(player: Player, freshId: Uuid) returns (dto: GameLobbyDto)
      requires Valid() && freshId !in lobbies
      modifies this`lobbies, this`messages, player`gameLobby
      ensures Valid()
      ensures freshId in lobbies && fresh(lobbies[freshId]) && lobbies == old(lobbies)[freshId := lobbies[freshId]]
      ensures var lobby := lobbies[freshId];
        lobby.status == WAITING && lobby.isPublic && lobby.players == [player] && player.gameLobby == lobby
      ensures dto == GameLobbyDto(Some(freshId), WAITING, true, 1, [player.user.username])
      ensures messages == old(messages) + [Broadcast(PublicLobbyTopic, LobbyInfo(dto))]
    {
      var lobby := NewLobby(player, true, freshId);
      dto := GameLobbyDtos.FromEntity(lobby);
      messages := messages + [Broadcast(PublicLobbyTopic, LobbyInfo(dto))];
    }

    /** createPrivateLobby: a new private lobby, sent only to its creator. */
    method CreatePrivateLobby(currentUser: User, player: Player, freshId: Uuid) returns (dto: GameLobbyDto)
      requires Valid() && freshId !in lobbies
      modifies this`lobbies, this`messages, player`gameLobby
      ensures Valid()
      ensures freshId in lobbies && fresh(lobbies[freshId]) && lobbies == old(lobbies)[freshId := lobbies[freshId]]
      ensures var lobby := lobbies[freshId];
        lobby.status == WAITING && !lobby.isPublic && lobby.players == [player] && player.gameLobby == lobby
      ensures dto == GameLobbyDto(Some(freshId), WAITING, false, 1, [player.user.username])
      ensures messages == old(messages) + [ToUser(currentUser.username, LobbyCreatedQueue, LobbyInfo(dto))]
    {
      var lobby := NewLobby(player, false, freshId);
      dto := GameLobbyDtos.FromEntity(lobby);
      messages := messages + [ToUser(currentUser.username, LobbyCreatedQueue, LobbyInfo(dto))];
    }

    /**
     * joinLobby: an unknown id throws; a user already in the lobby gets its
     * summary with nothing changed; a lobby that is not WAITING or already
     * has two players refuses with nothing changed; otherwise the player is
     * appended, the lobby's topic gets the new summary and the player a
     * welcome text.
     */
    method JoinLobby(lobbyId: Uuid, currentUser: User, joiningPlayer: Player) returns (r: Result<GameLobbyDto, LobbyError>)
      requires Valid() && joiningPlayer.user == currentUser
      modifies this`messages, lobbies.Values, joiningPlayer`gameLobby
      ensures Valid() && lobbies == old(lobbies)
      ensures lobbyId !in lobbies ==>
        r == Failure(LobbyNotFound(lobbyId)) && messages == old(messages)
        && joiningPlayer.gameLobby == old(joiningPlayer.gameLobby)
      ensures lobbyId in lobbies ==>
        var lobby := lobbies[lobbyId];
        var verdict := JoinCheck(old(lobby.players), old(lobby.status), currentUser.username);
        lobby.id == old(lobby.id) && lobby.status == old(lobby.status) && lobby.isPublic == old(lobby.isPublic)
        && (verdict == AlreadyMember ==>
              r == Success(GameLobbyDtos.FromEntity(lobby)) && lobby.players == old(lobby.players)
              && messages == old(messages) && joiningPlayer.gameLobby == old(joiningPlayer.gameLobby))
        && (verdict.Refused? ==>
              r == Failure(verdict.reason) && lobby.players == old(lobby.players)
              && messages == old(messages) && joiningPlayer.gameLobby == old(joiningPlayer.gameLobby))
        && (verdict == Admitted ==>
              lobby.players == old(lobby.players) + [joiningPlayer] && joiningPlayer.gameLobby == lobby
              && |lobby.players| <= MaxPlayers && HasMember(lobby.players, currentUser.username)
              && (forall i :: 0 <= i < |old(lobby.players)| ==> lobby.players[i].user.username != currentUser.username)
              && r == Success(GameLobbyDtos.FromEntity(lobby))
              && messages == old(messages) + [
                   Broadcast("/topic/lobby/" + lobbyId, LobbyInfo(r.value)),
                   ToUser(currentUser.username, JoinResponseQueue,
                          Text("Bienvenido al lobby " + lobbyId + ", " + currentUser.username + "."))])
      ensures forall id :: id in lobbies && id != lobbyId ==>
        lobbies[id].players == old(lobbies[id].players) && lobbies[id].status == old(lobbies[id].status)
        && lobbies[id].isPublic == old(lobbies[id].isPublic) && lobbies[id].id == old(lobbies[id].id)
    {
      var joiningUsername := currentUser.username;
      if lobbyId !in lobbies {
        return Failure(LobbyNotFound(lobbyId));
      }
      var lobby := lobbies[lobbyId];
      if HasMember(lobby.players, joiningUsername) {
        return Success(GameLobbyDtos.FromEntity(lobby));
      }
      if lobby.status != WAITING {
        return Failure(NotWaiting);
      }
      if |lobby.players| >= MaxPlayers {
        return Failure(LobbyFull);
      }
      AdmissionKeepsLobbySmall(lobby.players, lobby.status, joiningPlayer);
      lobby.AddPlayer(joiningPlayer);
      var updated := GameLobbyDtos.FromEntity(lobby);
      messages := messages + [Broadcast("/topic/lobby/" + lobbyId, LobbyInfo(updated))];
      var welcome := "Bienvenido al lobby " + lobbyId + ", " + joiningUsername + ".";
      messages := messages + [ToUser(joiningUsername, JoinResponseQueue, Text(welcome))];
      return Success(updated);
    }

    /**
     * processTeamSelection: an unknown lobby or a user who is not one of its
     * players throws before the team service is called; otherwise the team is
     * built and, if that succeeds, the lobby's game topic gets PLAYER_READY.
     */
    method ProcessTeamSelection(lobbyId: Uuid, teamSetup: Option<seq<string>>, currentUser: User, currentPlayer: Player)
      returns (r: Result<(), LobbyError>)
      requires Valid() && currentPlayer.user == currentUser
      modifies this`messages, teamService, currentPlayer`team
      ensures Valid()
      ensures lobbyId !in lobbies ==>
        r == Failure(LobbyNotFoundForTeam)
      ensures lobbyId in lobbies && !HasMember(lobbies[lobbyId].players, currentUser.username) ==>
        r == Failure(NotInLobby)
      ensures lobbyId in lobbies && HasMember(lobbies[lobbyId].players, currentUser.username) ==>
        (r.Success? <==> Refusal(teamSetup, teamService.species).None?)
        && (r.Failure? ==> r.error == TeamRefused(Refusal(teamSetup, teamService.species).value))
      ensures r.Failure? ==>
        messages == old(messages) && currentPlayer.team == old(currentPlayer.team)
        && teamService.saved == old(teamService.saved) && teamService.saveAllCalls == old(teamService.saveAllCalls)
      ensures r.Success? ==>
        messages == old(messages) + [Broadcast("/topic/game/" + lobbyId, PlayerReady(currentUser.username, lobbyId))]
        && |currentPlayer.team| == TeamSize
        && (forall i :: 0 <= i < TeamSize ==>
              fresh(currentPlayer.team[i])
              && BuiltMember(currentPlayer.team[i], currentPlayer, teamService.species[teamSetup.value[i]], i))
        && teamService.saved == old(teamService.saved) + currentPlayer.team
        && teamService.saveAllCalls == old(teamService.saveAllCalls) + 1
    {
      var username := currentUser.username;
      if lobbyId !in lobbies {
        return Failure(LobbyNotFoundForTeam);
      }
      var lobby := lobbies[lobbyId];
      if !HasMember(lobby.players, username) {
        return Failure(NotInLobby);
      }
      var team := teamService.CreatePlayerTeam(teamSetup, currentPlayer);
      if team.Failure? {
        return Failure(TeamRefused(team.error));
      }
      messages := messages + [Broadcast("/topic/game/" + lobbyId, PlayerReady(username, lobbyId))];
      return Success(());
    }
  }
}
