# Pokémon battle server core in Dafny

A model of the rule code of a Spring server for two-player Pokémon battles:
the damage calculator, the battle state machine and its in-memory registry,
the public matchmaking queue, the lobby and team rules, the client summaries
(DTOs) and the non-I/O parts of the PokeAPI reference-data ingestion.

Module layout (one module per source class, plus shared modules):

| file | module | models |
|---|---|---|
| `wrappers.dfy` | `Wrappers` | `Option` and `Result` |
| `model.dfy` | `Model` | the entities: type, move, ability and species records (datatypes), `Player`, `PlayerPokemon`, `GameLobby` (classes with the fields the core updates) |
| `damage_calculator.dfy` | `DamageCalculator` | `DamageCalculatorServiceImpl` |
| `battle.dfy` | `Battle` | `BattleService` |
| `battle_registry.dfy` | `BattleRegistry` | `BattleStateManagerServiceImpl` |
| `matchmaking.dfy` | `Matchmaking` | `MatchmakingServiceImpl` |
| `game_lobby_service.dfy` | `Lobbies` | `GameLobbyServiceImpl` |
| `team_service.dfy` | `Teams` | `TeamServiceImpl` |
| `game_lobby_dto.dfy`, `player_pokemon_dto.dfy` | `GameLobbyDtos`, `PlayerPokemonDtos` | `GameLobbyDTO.fromEntity`, `PlayerPokemonDTO.fromEntity` |
| `ingestion.dfy`, `ingestion_relations.dfy` | `Ingestion`, `IngestionRelations` | `PokeApiIngestionService` |

Conventions:

- Java doubles are exact `real`s. The three `Math.random()` draws (accuracy
  roll, speed-tie coin, damage roll) are parameters.
- Repositories are maps from key to record (`findByName`, `findById`). A
  `save` of a new lobby takes the id its pre-persist hook would draw as a
  parameter (`freshId`).
- Messages sent through the messaging template are appended to an output
  log field (`messages`, `notices`).
- Type records compare by id in Java, so each `*DamageFrom` relation is a
  set of type ids, and set membership in the calculator compares ids.
- `BattleService.resolveTurn` takes its two player ids from a `HashMap`'s key
  order, which Java leaves unspecified. The model takes them as an ordered
  pair of distinct ids.
- Where a Java call throws, the model returns a `Failure` with the reason
  and proves that nothing changed.

Where the code and the design description of the system disagree, the
model follows the code:

- There is no turn ownership. A turn resolves both players' moves together.
- No power points are spent.
- A finished battle still accepts turns. `Battle.FaintedFirstAttackerStillAttacks`
  shows that such a turn can overwrite the recorded winner.
- A battle can start with more or fewer than two players.

## Model

| member | source | states |
|---|---|---|
| `Model.Player.constructor` | src/main/java/com/pokemon/game/model/Player.java:42-61 | a new player has its id and user, no lobby and an empty team (the builder's default) |
| `Model.PlayerPokemon.constructor` | src/main/java/com/pokemon/game/model/PlayerPokemon.java:26-59 | a team member holds the given id, level, hp, status, slot, species, owner and moves |
| `Model.GameLobby.constructor` | src/main/java/com/pokemon/game/model/GameLobby.java:36-54 | a lobby built by the builder has no id, the given status and visibility, and an empty player list |
| `Model.GameLobby.PrePersist` | src/main/java/com/pokemon/game/model/GameLobby.java:56-61 | an id is drawn only when there is none; an existing id is kept, so a second call changes nothing |
| `Model.GameLobby.AddPlayer` | src/main/java/com/pokemon/game/model/GameLobby.java:63-66 | the player is appended at the end and its lobby back-reference points at this lobby |
| `Model.GameLobby.RemovePlayer` | src/main/java/com/pokemon/game/model/GameLobby.java:68-71 | the first occurrence of the player is removed and its back-reference is cleared |
| `Model.RemoveFirst` | src/main/java/com/pokemon/game/model/GameLobby.java:69 | `List.remove(Object)`: an absent element changes nothing; a present one shortens the list by one and removes exactly one copy (multisets) |
| `Model.RemoveFirstCutsFirstOccurrence` | src/main/java/com/pokemon/game/model/GameLobby.java:69 | the element removed is the first occurrence: the list is cut at that index and nothing else moves |
| `DamageCalculator.IsSpecialOnAscii` | src/main/java/com/pokemon/game/service/impl/DamageCalculatorServiceImpl.java:24 | on ASCII text, `"special".equalsIgnoreCase(c)` holds iff `c` lower-cases to `special` |
| `DamageCalculator.AttackStat` | src/main/java/com/pokemon/game/service/impl/DamageCalculatorServiceImpl.java:24-26 | special attack is used exactly for a special move, attack otherwise |
| `DamageCalculator.DefenseStat` | src/main/java/com/pokemon/game/service/impl/DamageCalculatorServiceImpl.java:24-27 | special defense is used exactly for a special move, defense otherwise |
| `DamageCalculator.Pow2` | src/main/java/com/pokemon/game/service/impl/DamageCalculatorServiceImpl.java:55-57 | a product of factors 2 and 0.5 is a positive power of two |
| `DamageCalculator.Pow2Succ` | src/main/java/com/pokemon/game/service/impl/DamageCalculatorServiceImpl.java:55 | one more doubling factor doubles the power of two |
| `DamageCalculator.TypeMultiplier` | src/main/java/com/pokemon/game/service/impl/DamageCalculatorServiceImpl.java:53-61 | the multiplier is never negative, and it is 0 iff some defending type's first matching relation (double, half, none) is none |
| `DamageCalculator.MultiplierStep` | src/main/java/com/pokemon/game/service/impl/DamageCalculatorServiceImpl.java:53-61 | visiting one more defending type multiplies the multiplier by that type's factor 2, 0.5, 0 or 1 |
| `DamageCalculator.NoTypesMultiplyByOne` | src/main/java/com/pokemon/game/service/impl/DamageCalculatorServiceImpl.java:51 | with no defending types the multiplier is the initial 1.0 |
| `DamageCalculator.ProductIsOrderFree` | src/main/java/com/pokemon/game/service/impl/DamageCalculatorServiceImpl.java:50-63 | every visiting order of the defending types gives the same product, so the `HashSet` iteration order does not matter |
| `DamageCalculator.GetTypeEffectiveness` | src/main/java/com/pokemon/game/service/impl/DamageCalculatorServiceImpl.java:50-63 | the loop, visiting the set in any order, returns the multiplier described above |
| `DamageCalculator.SameTypeBonus` | src/main/java/com/pokemon/game/service/impl/DamageCalculatorServiceImpl.java:35-38 | the bonus is 1.5 iff the attacker's types contain the move's type (by id), 1.0 otherwise |
| `DamageCalculator.RandomFactor` | src/main/java/com/pokemon/game/service/impl/DamageCalculatorServiceImpl.java:40 | the random factor lies in [0.85, 1.0) |
| `DamageCalculator.JavaIntOf` | src/main/java/com/pokemon/game/service/impl/DamageCalculatorServiceImpl.java:47 | the `(int)` cast: in int range, the integer part for values from 1 below the int maximum, saturation above it |
| `DamageCalculator.Damage` | src/main/java/com/pokemon/game/service/impl/DamageCalculatorServiceImpl.java:22-48 | the damage is between 0 and `Integer.MAX_VALUE`, and 0 iff the multiplier is 0 or a zero defense meets a zero numerator (NaN) |
| `DamageCalculator.DamageIsTruncatedTotal` | src/main/java/com/pokemon/game/service/impl/DamageCalculatorServiceImpl.java:42-47 | for a non-zero multiplier and defense, the damage is the integer part of max(1, total), saturated, hence at least 1 |
| `DamageCalculator.CalculateDamage` | src/main/java/com/pokemon/game/service/impl/DamageCalculatorServiceImpl.java:18-48 | for a fixed draw the result depends only on the attacker's species and level, the defender's species and the move; no repository is read |
| `Battle.FirstLiving` | src/main/java/com/pokemon/game/service/BattleService.java:45-48 | no member is found iff every member has hp <= 0; a found member is alive and belongs to the team (the first such one) |
| `Battle.InitialActiveFailure` | src/main/java/com/pokemon/game/service/BattleService.java:43-51 | start-up fails iff some player has no living member, naming the first such player |
| `Battle.InitialActiveKeys` | src/main/java/com/pokemon/game/service/BattleService.java:44-49 | on success the active map has exactly the player ids as keys |
| `Battle.InitialActiveValues` | src/main/java/com/pokemon/game/service/BattleService.java:45-49 | each player's active member is its first living team member (the last player with a given id wins the put) |
| `Battle.InitialActiveFailureSticks` | src/main/java/com/pokemon/game/service/BattleService.java:44-48 | the first player without a living member aborts start-up with its username |
| `Battle.InitialActiveFailureAbsorbs` | src/main/java/com/pokemon/game/service/BattleService.java:44-48 | once a prefix of the players fails, the later players change nothing |
| `Battle.GoesFirstIsDeterministicUnlessTied` | src/main/java/com/pokemon/game/service/BattleService.java:111-119 | the higher priority, then the higher speed, goes first; only a tie on both depends on the coin, and swapping the sides swaps the answer |
| `Battle.HpAfterHit` | src/main/java/com/pokemon/game/service/BattleService.java:106 | the new hp is max(0, hp - damage): never negative and never above the old hp |
| `Battle.AttackOutcome` | src/main/java/com/pokemon/game/service/BattleService.java:96-109 | a miss (roll * 100 > accuracy) keeps the defender's hp; a hit sets it to max(0, hp - damage) for the calculator's damage; the log names the move and then a miss or exactly that damage |
| `Battle.Order` | src/main/java/com/pokemon/game/service/BattleService.java:68-73 | the first attacker and its move are player 1's exactly when player 1 goes first |
| `Battle.TurnKeepsHpInRange` | src/main/java/com/pokemon/game/service/BattleService.java:75-87 | during a turn both hp values stay between 0 and their old values |
| `Battle.TurnCounting` | src/main/java/com/pokemon/game/service/BattleService.java:53-94 | finished is never reset; the turn counter grows by 1 exactly when the battle is still running; a winner is recorded exactly when finished; the log opens with the turn header |
| `Battle.TurnKnockouts` | src/main/java/com/pokemon/game/service/BattleService.java:77-87 | a knocked-out second attacker does not strike back and its opponent's player wins; a first attacker at hp <= 0 makes the other player win; if both live, finished and winner are kept |
| `Battle.FaintedFirstAttackerStillAttacks` | src/main/java/com/pokemon/game/service/BattleService.java:75-87 | nothing stops a turn after a knockout: a first attacker at 0 hp still attacks and the other player is named winner |
| `Battle.BattleService.constructor` | src/main/java/com/pokemon/game/service/BattleService.java:30-41 | a battle starts at turn 1, not finished, with no winner |
| `Battle.BattleService.Create` | src/main/java/com/pokemon/game/service/BattleService.java:30-51 | construction fails exactly when start-up fails, with the same error; otherwise the battle holds the start-up map and starts at turn 1, not finished |
| `Battle.BattleService.ExecuteAttack` | src/main/java/com/pokemon/game/service/BattleService.java:96-109 | only the defender's hp changes, to the attack outcome; the log entries are returned |
| `Battle.BattleService.CheckWinCondition` | src/main/java/com/pokemon/game/service/BattleService.java:121-124 | the battle is finished with the given winner |
| `Battle.BattleService.ResolveTurn` | src/main/java/com/pokemon/game/service/BattleService.java:53-94 | an unknown move (first player's first) or a missing active member is refused with nothing changed; otherwise the hp values, counter, finished flag, winner and log are those of the resolved turn, other members are untouched, and `turnFinished` is true |
| `Battle.BattleService.PlayTurn` | src/main/java/com/pokemon/game/service/BattleService.java:59-94 | for two known moves and two active members, the hp values, counter, finished flag, winner and log are those of the resolved turn and every other active member keeps its hp |
| `Battle.BattleService.Strikes` | src/main/java/com/pokemon/game/service/BattleService.java:75-87 | after the first strike the second attacker strikes back only while its hp is above 0, otherwise it faints and the first attacker's player wins; a first attacker left at hp <= 0 faints and the other player wins |
| `Battle.ResolvedTurnInAttackOrder` | src/main/java/com/pokemon/game/service/BattleService.java:68-93 | the resolved turn read in attack order: the finished flag is set when either attacker ends at hp <= 0, a knocked-out first attacker names the second attacker's player as winner over any earlier winner |
| `BattleRegistry.BattleStateManagerService.constructor` | src/main/java/com/pokemon/game/service/impl/BattleStateManagerServiceImpl.java:31 | the registry starts empty |
| `BattleRegistry.BattleStateManagerService.CreateBattle` | src/main/java/com/pokemon/game/service/impl/BattleStateManagerServiceImpl.java:34-52 | an id already present returns the stored battle and changes nothing; a failed construction stores nothing; a new battle starts valid, at turn 1, unfinished and without a winner, and is stored under exactly that id, other entries kept |
| `BattleRegistry.BattleStateManagerService.GetBattle` | src/main/java/com/pokemon/game/service/impl/BattleStateManagerServiceImpl.java:55-57 | the stored battle, or nothing when the id is absent |
| `BattleRegistry.BattleStateManagerService.BattleExists` | src/main/java/com/pokemon/game/service/impl/BattleStateManagerServiceImpl.java:69-71 | a battle exists for the id exactly when `getBattle` finds one |
| `BattleRegistry.BattleStateManagerService.RemoveBattle` | src/main/java/com/pokemon/game/service/impl/BattleStateManagerServiceImpl.java:60-66 | exactly that id is removed; the result says whether one was there; an absent id changes nothing |
| `Matchmaking.WithoutUser` | src/main/java/com/pokemon/game/service/impl/MatchmakingServiceImpl.java:63 | `removeIf` by id keeps exactly the users with other ids; an absent id changes nothing |
| `Matchmaking.WithoutUserOfOne` | src/main/java/com/pokemon/game/service/impl/MatchmakingServiceImpl.java:63 | a single user is dropped exactly when it has the id |
| `Matchmaking.WithoutUserOfConcat` | src/main/java/com/pokemon/game/service/impl/MatchmakingServiceImpl.java:63 | `removeIf` works user by user: the survivors of `a + b` are the survivors of `a` followed by those of `b`, so the kept users stay in order and keep their repeats, for every queue |
| `Matchmaking.NoRepeatedIdsInTail` | src/main/java/com/pokemon/game/service/impl/MatchmakingServiceImpl.java:80 | after the oldest user is polled, the rest has no repeated ids and does not hold that user |
| `Matchmaking.WithoutHead` | src/main/java/com/pokemon/game/service/impl/MatchmakingServiceImpl.java:63 | cancelling the oldest user, when it is queued once, removes just the head |
| `Matchmaking.WithoutQueuedUser` | src/main/java/com/pokemon/game/service/impl/MatchmakingServiceImpl.java:63 | in a queue without repeated ids, cancelling the user at position k cuts out exactly that entry |
| `Matchmaking.WithoutUserKeepsNoRepeatedIds` | src/main/java/com/pokemon/game/service/impl/MatchmakingServiceImpl.java:63 | cancelling keeps the queue free of repeated ids |
| `Matchmaking.AppendNewUserKeepsNoRepeatedIds` | src/main/java/com/pokemon/game/service/impl/MatchmakingServiceImpl.java:38-49 | appending a user whose id is not queued keeps the queue free of repeated ids |
| `Matchmaking.Drain` | src/main/java/com/pokemon/game/service/impl/MatchmakingServiceImpl.java:80-89 | with two or more users the two oldest are polled in FIFO order; with fewer, a polled user goes back and no pair forms |
| `Matchmaking.MatchmakingService.constructor` | src/main/java/com/pokemon/game/service/impl/MatchmakingServiceImpl.java:29-30 | the queue, the messages and the lobbies start empty |
| `Matchmaking.MatchmakingService.AddToPublicQueue` | src/main/java/com/pokemon/game/service/impl/MatchmakingServiceImpl.java:37-59 | a queued id only gets the status message; a new user is appended; two waiting users are paired into a public WAITING lobby and both get "MATCH_FOUND:" + its id; at most one user remains queued |
| `Matchmaking.MatchmakingService.ProcessMatchmakingQueue` | src/main/java/com/pokemon/game/service/impl/MatchmakingServiceImpl.java:74-122 | fewer than two waiting users change nothing; otherwise the two oldest leave the queue, share one new lobby in that order and get identical payloads |
| `Matchmaking.MatchmakingService.RemoveFromPublicQueue` | src/main/java/com/pokemon/game/service/impl/MatchmakingServiceImpl.java:62-72 | every entry with the id goes, the others stay in order, and only an actual removal sends the cancellation message |
| `Lobbies.JoinCheck` | src/main/java/com/pokemon/game/service/impl/GameLobbyServiceImpl.java:93-106 | the guards in order: a member by username is let through as is; then a non-WAITING lobby is refused; then a lobby with two or more players; admission iff none applies |
| `Lobbies.AdmissionKeepsLobbySmall` | src/main/java/com/pokemon/game/service/impl/GameLobbyServiceImpl.java:104-108 | an admitted join leaves at most two players, in a WAITING lobby, with the new player's name appearing once |
| `Lobbies.GameLobbyService.constructor` | src/main/java/com/pokemon/game/service/impl/GameLobbyServiceImpl.java:30-34 | no lobbies and no messages yet |
| `Lobbies.GameLobbyService.SaveNew` | src/main/java/com/pokemon/game/service/impl/GameLobbyServiceImpl.java:48 | saving a new lobby gives it the drawn id and stores it under that id |
| `Lobbies.GameLobbyService.NewLobby` | src/main/java/com/pokemon/game/service/impl/GameLobbyServiceImpl.java:42-48 | a new WAITING lobby with the given visibility and the creator as its only player, saved |
| `Lobbies.GameLobbyService.CreateAndBroadcastPublicLobby` | src/main/java/com/pokemon/game/service/impl/GameLobbyServiceImpl.java:38-55 | a public lobby with the creator alone; its summary is returned and broadcast on `/topic/lobby` |
| `Lobbies.GameLobbyService.CreatePrivateLobby` | src/main/java/com/pokemon/game/service/impl/GameLobbyServiceImpl.java:59-81 | a private lobby with the creator alone; its summary goes only to the creator's `/queue/lobby-created` |
| `Lobbies.GameLobbyService.JoinLobby` | src/main/java/com/pokemon/game/service/impl/GameLobbyServiceImpl.java:85-125 | an unknown id throws; a member gets the summary unchanged; not WAITING or full is refused unchanged; otherwise exactly the current user's player is appended, so the lobby holds at most two players and that username once; status and visibility are kept, the topic and welcome messages sent; other lobbies keep their id, status, visibility and players |
| `Lobbies.GameLobbyService.ProcessTeamSelection` | src/main/java/com/pokemon/game/service/impl/GameLobbyServiceImpl.java:129-157 | an unknown lobby or a non-member throws before the team service runs; otherwise the team is built: a refusal changes nothing; on success the player's team is six fresh members built from the named species in order (slot, level 100, full hp, no status), they are appended to the saved members in one `saveAll`, and PLAYER_READY goes to the lobby's game topic |
| `Teams.FirstUnknown` | src/main/java/com/pokemon/game/service/impl/TeamServiceImpl.java:41-43 | nothing is reported iff every name has a species; a reported name is in the list and has none |
| `Teams.FirstUnknownAt` | src/main/java/com/pokemon/game/service/impl/TeamServiceImpl.java:41-43 | the name reported is the first unknown one in list order |
| `Teams.TeamService.constructor` | src/main/java/com/pokemon/game/service/impl/TeamServiceImpl.java:25-27 | nothing saved yet |
| `Teams.TeamService.CreatePlayerTeam` | src/main/java/com/pokemon/game/service/impl/TeamServiceImpl.java:31-67 | a missing or non-six list, or an unknown name, is refused with its message and nothing saved or changed; otherwise six members in name order with slots 1..6, level 100, full hp and status NONE are saved in one `saveAll`, become the team, and their summaries come back in order |
| `GameLobbyDtos.Usernames` | src/main/java/com/pokemon/game/dto/GameLobbyDTO.java:21-23 | one username per player, in list order |
| `GameLobbyDtos.FromEntity` | src/main/java/com/pokemon/game/dto/GameLobbyDTO.java:20-32 | id, status and visibility copied; the player count equals the number of players and of names; name i is player i's username |
| `PlayerPokemonDtos.MoveNames` | src/main/java/com/pokemon/game/dto/PlayerPokemonDTO.java:33-35 | the set of the moves' static names; equal names collapse, so there are at most as many names as moves |
| `PlayerPokemonDtos.FromEntity` | src/main/java/com/pokemon/game/dto/PlayerPokemonDTO.java:22-37 | id, level, hp, status and slot copied; the name is the species name; maxHp is the species' base hp; the moves are exactly the move names |
| `Ingestion.IndexByNameHoldsItems` | src/main/java/com/pokemon/game/service/PokeApiIngestionService.java:184 | a cache filled by put-each holds exactly the names of the items, each item under its own name |
| `Ingestion.IndexByNameLastWins` | src/main/java/com/pokemon/game/service/PokeApiIngestionService.java:184 | when two items share a name, the later one is the one cached |
| `Ingestion.PutAll` | src/main/java/com/pokemon/game/service/PokeApiIngestionService.java:184 | the put-each loop builds that cache |
| `Ingestion.PokeApiIngestionService.constructor` | src/main/java/com/pokemon/game/service/PokeApiIngestionService.java:41-43 | all caches start empty |
| `Ingestion.PokeApiIngestionService.LoadTypeCache` | src/main/java/com/pokemon/game/service/PokeApiIngestionService.java:179-190 | a non-empty cache is left unchanged; an empty one is filled from the stored types by name |
| `Ingestion.PokeApiIngestionService.LoadAbilityCache` | src/main/java/com/pokemon/game/service/PokeApiIngestionService.java:193-204 | the same rule for abilities |
| `Ingestion.PokeApiIngestionService.LoadMoveCache` | src/main/java/com/pokemon/game/service/PokeApiIngestionService.java:207-218 | the same rule for moves |
| `Ingestion.MapAbility` | src/main/java/com/pokemon/game/service/PokeApiIngestionService.java:300-308 | the description is the first effect text, or "No effect text." when the list is missing or empty |
| `Ingestion.AbilitiesBatch` | src/main/java/com/pokemon/game/service/PokeApiIngestionService.java:300-309 | every ability record is mapped, in order; none is dropped |
| `Ingestion.PokeApiIngestionService.IngestAbilities` | src/main/java/com/pokemon/game/service/PokeApiIngestionService.java:300-317 | the mapped batch is saved and becomes the whole ability cache (a missing response clears it) |
| `Ingestion.BuildMove` | src/main/java/com/pokemon/game/service/PokeApiIngestionService.java:364-372 | missing power, accuracy, pp and priority become 0, a missing damage class "unknown", and the type is the cached one |
| `Ingestion.MapMove` | src/main/java/com/pokemon/game/service/PokeApiIngestionService.java:355-373 | a move is dropped exactly when its type is missing or not in the type cache |
| `Ingestion.MovesBatch` | src/main/java/com/pokemon/game/service/PokeApiIngestionService.java:354-374 | the kept moves are exactly the mapped ones, never more than the records |
| `Ingestion.MapMoveAsWritten` | src/main/java/com/pokemon/game/service/PokeApiIngestionService.java:355-362 | the mapping as written fails exactly for a move without a type; otherwise it agrees with `Ingestion.MapMove` |
| `Ingestion.MovesBatchAsWrittenAbortsOnDrop` | src/main/java/com/pokemon/game/service/PokeApiIngestionService.java:354-376 | the batch as written succeeds iff no move would be dropped, and then equals the intended batch |
| `Ingestion.UncachedTypeAbortsMoveBatch` | src/main/java/com/pokemon/game/service/PokeApiIngestionService.java:357-374 | a concrete batch where one uncached type makes the batch as written keep no move |
| `Ingestion.TypelessMoveAbortsMoveBatch` | src/main/java/com/pokemon/game/service/PokeApiIngestionService.java:355 | a concrete batch where one move without a type fails the whole batch as written |
| `Ingestion.PokeApiIngestionService.IngestMoves` | src/main/java/com/pokemon/game/service/PokeApiIngestionService.java:354-382 | the kept moves are saved and become the whole move cache (a missing response clears it) |
| `Ingestion.StatsMap` | src/main/java/com/pokemon/game/service/PokeApiIngestionService.java:440-443 | entries without a stat are skipped; the table maps each stat name to its base value; it fails iff a stat name occurs twice |
| `Ingestion.StatOr` | src/main/java/com/pokemon/game/service/PokeApiIngestionService.java:465-470 | a missing stat is 0 |
| `Ingestion.Linked` | src/main/java/com/pokemon/game/service/PokeApiIngestionService.java:445-461 | exactly the cached records named by non-null links are kept |
| `Ingestion.MapSpecies` | src/main/java/com/pokemon/game/service/PokeApiIngestionService.java:432-475 | a species is dropped exactly when it has no form; it fails exactly when its first form's stats list names a stat twice (a missing stats list cannot fail); otherwise a record is kept whose six stats (missing ones 0) and cached types, abilities and moves come from its first form |
| `Ingestion.SpeciesBatch` | src/main/java/com/pokemon/game/service/PokeApiIngestionService.java:432-476 | the kept species are exactly the mapped ones; the batch fails iff some species fails |
| `Ingestion.SpeciesBatchAsWrittenAbortsOnDrop` | src/main/java/com/pokemon/game/service/PokeApiIngestionService.java:433-476 | the batch as written equals the intended one when every species has a form, and fails otherwise |
| `Ingestion.FormlessSpeciesAbortsSpeciesBatch` | src/main/java/com/pokemon/game/service/PokeApiIngestionService.java:433-476 | a concrete batch where one species without a form makes the batch as written keep no species |
| `Ingestion.PokeApiIngestionService.IngestPokemon` | src/main/java/com/pokemon/game/service/PokeApiIngestionService.java:432-480 | the kept species are saved; a failing batch saves nothing |
| `Ingestion.PokeApiIngestionService.IngestTypeDamageRelations` | src/main/java/com/pokemon/game/service/PokeApiIngestionService.java:503-535 | the nested loop leaves the type cache as the relation fold over the table (a missing response is an empty table) |
| `IngestionRelations.RelationOf` | src/main/java/com/pokemon/game/service/PokeApiIngestionService.java:527-533 | factor 200 selects doubleDamageFrom, 50 halfDamageFrom, 0 noDamageFrom, any other none |
| `IngestionRelations.ApplyEfficacy` | src/main/java/com/pokemon/game/service/PokeApiIngestionService.java:518-533 | one entry adds the attacking id to exactly the selected relation of its target; a null entry, a null or uncached target, or another factor changes nothing |
| `IngestionRelations.EfficacyStep` | src/main/java/com/pokemon/game/service/PokeApiIngestionService.java:518-533 | the same entry step, factor by factor as the loop body tests them |
| `IngestionRelations.EfficaciesClosedForm` | src/main/java/com/pokemon/game/service/PokeApiIngestionService.java:517-534 | one attacking type's entries grow each target's relations by the ids its entries select |
| `IngestionRelations.GrowAllTwice` | src/main/java/com/pokemon/game/service/PokeApiIngestionService.java:528-532 | two rounds of insertions equal one round of their union |
| `IngestionRelations.RelationAddsDependOnShape` | src/main/java/com/pokemon/game/service/PokeApiIngestionService.java:511-522 | what the loop adds depends only on the cached names and ids, not on the relation sets already filled |
| `IngestionRelations.RelationsClosedForm` | src/main/java/com/pokemon/game/service/PokeApiIngestionService.java:510-535 | the whole loop keeps every name and id and grows each relation by the union of the ids the table selects for it |
| `IngestionRelations.RelationsOnlyAdd` | src/main/java/com/pokemon/game/service/PokeApiIngestionService.java:527-533 | names and ids are kept and the relation sets only grow |
| `IngestionRelations.RelationsIdempotent` | src/main/java/com/pokemon/game/service/PokeApiIngestionService.java:510-535 | running the loop a second time on the same table changes nothing |
| `IngestionRelations.RelationAddsMembers` | src/main/java/com/pokemon/game/service/PokeApiIngestionService.java:510-533 | an id joins a target's relation iff some cached attacking type with that id lists that target with the matching factor; uncached attacking types add nothing |
| `IngestionRelations.EfficacyAddsMembers` | src/main/java/com/pokemon/game/service/PokeApiIngestionService.java:517-533 | within one attacking type: its id is added iff one of its entries selects that target and relation |

## Left out

- HTTP, GraphQL and Reactor plumbing: the query strings and the WebClient call are not part of this model. A response is an `Option` of the record list it would deliver.
- Messaging transport, persistence, JPA and Lombok annotations, `@Transactional` rollback, authentication and the controllers. Sent messages are an output log.
- `PlayerServiceImpl` (find-or-create of a player) is not part of this model. Its result is a parameter.
- Identifier generation: a drawn lobby id is a parameter; new team members have no id (the repository would assign one).
- Concurrency: the concurrent queue and maps are modelled as sequential state, so the check-then-poll race cannot happen. `Matchmaking.MatchmakingService.AddToPublicQueue` therefore assumes no repeated ids in the queue (`Valid`).
- The exception handler around pairing in `addToPublicQueue`: the collaborators it guards cannot fail in the model.
- IEEE double rounding: reals are exact. Only the zero-divisor cases (infinities and NaN) of the damage formula are modelled.
- `Math.random()`: the draws are parameters in [0, 1).
- Unicode case-insensitive comparison: `IsSpecial` covers ASCII and the three non-ASCII letters that compare equal to letters of "special" (ſ, ı and İ). It does no other folding.
- `turnNumber` overflow past `Integer.MAX_VALUE` is not modelled; the counter is unbounded.
- `BattleController` calls a `registerPlayerMove` that `BattleService` does not define, and the registry passes five arguments to the four-argument battle constructor. Both are left out. The registry calls the four-argument constructor.
- `Battle.BattleService.Create` and `BattleRegistry.BattleStateManagerService.CreateBattle` require each team member's owner to be the player whose team holds it. JPA maintains that back-reference.
- `Battle.BattleService.ResolveTurn` requires two distinct player ids. A move map with fewer than two keys makes `resolveTurn` throw `NoSuchElementException` before any change; that error path is not modelled.
- `Lobbies.GameLobbyService.JoinLobby` and `Lobbies.GameLobbyService.ProcessTeamSelection` require the player to belong to the current user, as `findOrCreatePlayerForUser` and `getCurrentPlayer` guarantee; player lookup and creation are not modelled.
- A team member's moves are a `HashSet` in Java and a sequence here. Only the name set derived from them is observed.
- Equality of species, move, ability and type records is by database id in Java and by value here. For records taken from one name-keyed cache the two agree. `PokemonData.types` is a set of values, so two type values with one id but different relation sets (a stale copy beside an updated one) would count twice in `TypeMultiplier`, where a Java `HashSet` holds one.
- A cached type record is shared by reference in Java, and the relation loop changes it in place. The model replaces the cache entry with the updated value instead, and records built earlier keep copies of the type values as they were then. Moves read only the type's id, so nothing changes for them. Species are different: at start-up the species are ingested before the relation loop, so in Java their types see the new relations, while the model's ingested species keep types whose relation sets are empty, and `TypeMultiplier` over them gives 1.0.
- GraphQL names and list elements are assumed present. A null name would make a concurrent map lookup throw; a null effect text would give a null description.
- `ingestTypes`, which only copies type names into new records, is not modelled. Saving the updated types after the relation loop is not modelled either.
- `Ingestion.PokeApiIngestionService.IngestMoves` and `Ingestion.PokeApiIngestionService.IngestPokemon` use the intended mappings (see Findings). The as-written batch functions sit beside them.

## Findings

| source | as written | input that shows it | evidently intended | confidence | as-written member | corrected member |
|---|---|---|---|---|---|---|
| src/main/java/com/pokemon/game/service/PokeApiIngestionService.java:357-374 | the move mapping returns null for a move whose type is not cached; Reactor's `map` turns a null into an error, so the whole batch fails and nothing is saved | moves `tackle` (type `normal`, cached) and `lick` (type `ghost`, not cached) | drop that move and keep the others, as the `filter(Objects::nonNull)` after the `map` shows | high, not executed | `Ingestion.UncachedTypeAbortsMoveBatch` | `Ingestion.MovesBatch` |
| src/main/java/com/pokemon/game/service/PokeApiIngestionService.java:355 | a move without a type makes the type cache look up the key null; a `ConcurrentHashMap` throws on a null key | one move whose type wrapper is null | treat the move as having an unknown type and drop it, as the null check after the lookup shows | high, not executed | `Ingestion.TypelessMoveAbortsMoveBatch` | `Ingestion.MapMove` |
| src/main/java/com/pokemon/game/service/PokeApiIngestionService.java:433-476 | the species mapping returns null for a species with no form; as above, the whole batch fails | species `ditto` (one form) and `missingno` (no forms) | skip that species and save the others (the log line says "saltando", i.e. skipping) | high, not executed | `Ingestion.FormlessSpeciesAbortsSpeciesBatch` | `Ingestion.SpeciesBatch` |
