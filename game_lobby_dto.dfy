/** The lobby summary sent to clients. */
module GameLobbyDtos {
  import opened Wrappers
  import opened Model

  datatype GameLobbyDto = GameLobbyDto(
    id: Option<Uuid>,
    status: GameStatus,
    isPublic: bool,
    currentPlayerCount: int,
    playerNames: seq<string>)

  /** The players' usernames, in list order. */
  function Usernames(players: seq<Player>): (names: seq<string>)
    ensures |names| == |players|
    ensures forall i :: 0 <= i < |players| ==> names[i] == players[i].user.username
  {
    if players == [] then [] else [players[0].user.username] + Usernames(players[1..])
  }

  /** fromEntity: copies id, status and visibility; the count and the names follow the player list. */
  function FromEntity(lobby: GameLobby): (dto: GameLobbyDto)
    reads lobby
    ensures dto.id == lobby.id && dto.status == lobby.status && dto.isPublic == lobby.isPublic
    ensures dto.currentPlayerCount == |lobby.players| == |dto.playerNames|
    ensures forall i :: 0 <= i < |lobby.players| ==> dto.playerNames[i] == lobby.players[i].user.username
  {
    GameLobbyDto(lobby.id, lobby.status, lobby.isPublic, |lobby.players|, Usernames(lobby.players))
  }
}
