/**
 * One battle between the players of a lobby: the active team member of each
 * player, the turn counter, and the finished flag with the winner's id.
 * A turn orders the two attackers, applies their hits and settles knockouts.
 * The Math.random() draws of a turn are parameters.
 */
module Battle {
  import opened Wrappers
  import opened Model
  import opened DamageCalculator

  /** The lines a turn writes to its battle log. */
  datatype LogEntry =
    | TurnHeader(turn: int)                   // "--- Turno n ---"
    | Used(pokemon: string, move: string)     // "<pokemon> usó <move>!"
    | Missed                                  // "¡El ataque falló!"
    | Dealt(damage: int)                      // "¡Hizo <damage> de daño!"
    | Fainted(pokemon: string)                // "<pokemon> se debilitó!"

  /** What resolveTurn returns to its caller. */
  datatype TurnResult = TurnResult(battleLog: seq<LogEntry>, turnFinished: bool, matchFinished: bool, winnerId: Option<int>)

  /** Why a turn is rejected: a move name not in the repository, or a player with no active team member. */
  datatype TurnError = InvalidMove(moveName: string) | NoActivePokemon

  /** Why a battle cannot start: a player whose team has no living member. */
  datatype BattleError = NoLivingPokemon(username: string)

  /** The five random draws a turn may consume, in [0, 1) each. */
  datatype TurnDraws = TurnDraws(speedTie: real, firstHit: real, firstDamage: real, secondHit: real, secondDamage: real)

  predicate ValidDraws(d: TurnDraws) {
    0.0 <= d.speedTie < 1.0 && 0.0 <= d.firstHit < 1.0 && 0.0 <= d.firstDamage < 1.0
    && 0.0 <= d.secondHit < 1.0 && 0.0 <= d.secondDamage < 1.0
  }

  // ------------------------------------------------ start of a battle

  /** The first team member, in list order, with currentHp > 0. */
  function FirstLiving(team: seq<PlayerPokemon>): (r: Option<PlayerPokemon>)
    reads team
    ensures r.None? <==> forall i :: 0 <= i < |team| ==> team[i].currentHp <= 0
    ensures r.Some? ==> exists i :: 0 <= i < |team| && team[i] == r.value && r.value.currentHp > 0
                                    && forall j :: 0 <= j < i ==> team[j].currentHp <= 0
  {
    if team == [] then None
    else if team[0].currentHp > 0 then Some(team[0])
    else
      var r := FirstLiving(team[1..]);
      assert r.Some? ==> exists i :: 1 <= i < |team| && team[i] == r.value
                                    && forall j :: 0 <= j < i ==> team[j].currentHp <= 0 by {
        if r.Some? {
          var k :| 0 <= k < |team[1..]| && team[1..][k] == r.value && r.value.currentHp > 0
                   && forall j :: 0 <= j < k ==> team[1..][j].currentHp <= 0;
          assert team[k + 1] == r.value;
          assert forall j :: 0 <= j < k + 1 ==> team[j].currentHp <= 0 by {
            forall j | 0 <= j < k + 1
              ensures team[j].currentHp <= 0
            {
              if j > 0 {
                assert team[j] == team[1..][j - 1];
              }
            }
          }
        }
      }
      r
  }

  /** All team members of the given players. */
  function Members(players: seq<Player>): set<PlayerPokemon>
    reads players
  {
    set p, m | p in players && m in p.team :: m
  }

  /**
   * initializeBattle: for each player in list order, its first living team
   * member under its id (a later player with the same id overwrites); the
   * first player with no living member makes it fail.
   */
  function InitialActive(players: seq<Player>): Result<map<int, PlayerPokemon>, BattleError>
    reads players, Members(players)
  {
    if players == [] then Success(map[])
    else
      var last := players[|players| - 1];
      assert Members(players[..|players| - 1]) <= Members(players);
      assert last in players;
      assert forall m :: m in last.team ==> m in Members(players);
      match InitialActive(players[..|players| - 1])
      case Failure(e) => Failure(e)
      case Success(m) =>
        match FirstLiving(last.team)
        case None => Failure(NoLivingPokemon(last.user.username))
        case Some(pk) => Success(m[last.id := pk])
  }

  /**
   * A battle fails to start exactly when some player has no living team
   * member, and then it names the first such player.
   */
  lemma {:induction false} InitialActiveFailure(players: seq<Player>)
    ensures InitialActive(players).Failure? <==> exists i :: 0 <= i < |players| && FirstLiving(players[i].team).None?
    ensures InitialActive(players).Failure? ==>
      exists i :: 0 <= i < |players| && FirstLiving(players[i].team).None?
        && InitialActive(players).error == NoLivingPokemon(players[i].user.username)
        && forall j :: 0 <= j < i ==> FirstLiving(players[j].team).Some?
  {
    if players != [] {
      var n := |players| - 1;
      var front := players[..n];
      InitialActiveFailure(front);
      assert forall i :: 0 <= i < n ==> front[i] == players[i];
      if InitialActive(front).Failure? {
        var i :| 0 <= i < n && FirstLiving(front[i].team).None?
                 && InitialActive(front).error == NoLivingPokemon(front[i].user.username)
                 && forall j :: 0 <= j < i ==> FirstLiving(front[j].team).Some?;
        assert FirstLiving(players[i].team).None?;
      } else if FirstLiving(players[n].team).None? {
        assert forall j :: 0 <= j < n ==> FirstLiving(players[j].team).Some?;
      } else {
        assert forall j :: 0 <= j < n ==> FirstLiving(players[j].team).Some?;
      }
    }
  }

  /** A started battle has exactly the players' ids as keys. */
  lemma {:induction false} InitialActiveKeys(players: seq<Player>)
    requires InitialActive(players).Success?
    ensures InitialActive(players).value.Keys == set p | p in players :: p.id
  {
    if players != [] {
      var n := |players| - 1;
      var front := players[..n];
      var last := players[n];
      assert InitialActive(front).Success?;
      InitialActiveKeys(front);
      assert InitialActive(players).value == InitialActive(front).value[last.id := FirstLiving(last.team).value];
      assert (set p | p in players :: p.id) == (set p | p in front :: p.id) + {last.id} by {
        assert players == front + [last];
      }
    }
  }

  /** In a started battle, a player whose id no later player repeats has its first living member active. */
  lemma {:induction false} InitialActiveValues(players: seq<Player>, i: int)
    requires InitialActive(players).Success?
    requires 0 <= i < |players| && forall j :: i < j < |players| ==> players[j].id != players[i].id
    ensures players[i].id in InitialActive(players).value
    ensures FirstLiving(players[i].team) == Some(InitialActive(players).value[players[i].id])
  {
    var n := |players| - 1;
    var front := players[..n];
    var last := players[n];
    assert InitialActive(front).Success?;
    var m' := InitialActive(front).value;
    assert InitialActive(players).value == m'[last.id := FirstLiving(last.team).value];
    if i < n {
      assert players[i] == front[i];
      assert last.id != players[i].id;
      assert forall j :: i < j < |front| ==> front[j].id != front[i].id by {
        forall j | i < j < |front|
          ensures front[j].id != front[i].id
        {
          assert front[j] == players[j];
        }
      }
      InitialActiveValues(front, i);
    }
  }

  // ------------------------------------------------------- one turn

  /** What a turn needs to know about one active team member. */
  datatype Combatant = Combatant(species: PokemonData, level: int, ownerId: int, hp: int)

  function Snapshot(pk: PlayerPokemon): Combatant
    reads pk
  {
    Combatant(pk.basePokemon, pk.level, pk.player.id, pk.currentHp)
  }

  /** checkSpeed: higher move priority first, then higher base speed; only a tie on both is decided by the draw. */
  function GoesFirst(m1: MoveData, m2: MoveData, s1: PokemonData, s2: PokemonData, tieDraw: real): bool {
    if m1.priority != m2.priority then m1.priority > m2.priority
    else if s1.baseSpeed != s2.baseSpeed then s1.baseSpeed > s2.baseSpeed
    else tieDraw > 0.5
  }

  /** Outside a full tie the order does not depend on the draw, and swapping the two sides swaps it. */
  lemma GoesFirstIsDeterministicUnlessTied(m1: MoveData, m2: MoveData, s1: PokemonData, s2: PokemonData, d: real, d': real)
    requires m1.priority != m2.priority || s1.baseSpeed != s2.baseSpeed
    ensures GoesFirst(m1, m2, s1, s2, d) == GoesFirst(m1, m2, s1, s2, d')
    ensures GoesFirst(m1, m2, s1, s2, d) == !GoesFirst(m2, m1, s2, s1, d)
    ensures GoesFirst(m1, m2, s1, s2, d) <==> m1.priority > m2.priority || (m1.priority == m2.priority && s1.baseSpeed > s2.baseSpeed)
  {
  }

  /** The accuracy check passes unless draw * 100 exceeds the move's accuracy. */
  predicate Hits(draw: real, move: MoveData) {
    !(draw * 100.0 > move.accuracy as real)
  }

  /** The defender's hp after a hit: max(0, hp - damage). */
  function HpAfterHit(hp: int, damage: int): (r: int)
    ensures r >= 0
    ensures damage >= 0 && hp >= 0 ==> r <= hp
    ensures damage <= hp ==> r == hp - damage
    ensures damage >= hp ==> r == 0
  {
    if hp - damage > 0 then hp - damage else 0
  }

  datatype AttackResult = AttackResult(defenderHp: int, log: seq<LogEntry>)

  /** executeAttack on values: a miss leaves the defender's hp alone, a hit subtracts the damage, floored at 0. */
  function AttackOutcome(attacker: Combatant, defender: Combatant, move: MoveData, hitDraw: real, damageDraw: real): (o: AttackResult)
    requires 0.0 <= damageDraw < 1.0
    ensures !Hits(hitDraw, move) ==> o.defenderHp == defender.hp
    ensures defender.hp >= 0 ==> 0 <= o.defenderHp <= defender.hp
    ensures |o.log| == 2 && o.log[0] == Used(attacker.species.name, move.name)
    ensures o.log[1] == Missed <==> !Hits(hitDraw, move)
    ensures Hits(hitDraw, move) ==>
      var damage := Damage(attacker.species, attacker.level, defender.species, move, damageDraw);
      o.defenderHp == HpAfterHit(defender.hp, damage) && o.log[1] == Dealt(damage)
  {
    if Hits(hitDraw, move) then
      var damage := Damage(attacker.species, attacker.level, defender.species, move, damageDraw);
      AttackResult(HpAfterHit(defender.hp, damage), [Used(attacker.species.name, move.name), Dealt(damage)])
    else
      AttackResult(defender.hp, [Used(attacker.species.name, move.name), Missed])
  }

  /** The battle's counters. */
  datatype Flags = Flags(turnNumber: int, isFinished: bool, winnerId: Option<int>)

  /** The two sides of a turn in attack order. */
  datatype Matchup = Matchup(player1First: bool, first: Combatant, firstMove: MoveData, second: Combatant, secondMove: MoveData)

  function Order(c1: Combatant, m1: MoveData, c2: Combatant, m2: MoveData, tieDraw: real): (o: Matchup)
    ensures o.player1First == GoesFirst(m1, m2, c1.species, c2.species, tieDraw)
    ensures o.player1First ==> o == Matchup(true, c1, m1, c2, m2)
    ensures !o.player1First ==> o == Matchup(false, c2, m2, c1, m1)
  {
    if GoesFirst(m1, m2, c1.species, c2.species, tieDraw) then Matchup(true, c1, m1, c2, m2)
    else Matchup(false, c2, m2, c1, m1)
  }

  /** The first attacker's strike. */
  function FirstStrike(o: Matchup, d: TurnDraws): AttackResult
    requires ValidDraws(d)
  {
    AttackOutcome(o.first, o.second, o.firstMove, d.firstHit, d.firstDamage)
  }

  /** The first attacker's hp at the end of the turn: the second strikes back only while alive. */
  function FirstHpAfterTurn(o: Matchup, d: TurnDraws): int
    requires ValidDraws(d)
  {
    var secondHp := FirstStrike(o, d).defenderHp;
    if secondHp > 0 then AttackOutcome(o.second.(hp := secondHp), o.first, o.secondMove, d.secondHit, d.secondDamage).defenderHp
    else o.first.hp
  }

  datatype TurnOutcome = TurnOutcome(hp1: int, hp2: int, flags: Flags, log: seq<LogEntry>)

  /** resolveTurn on values, for player 1's and player 2's active members and moves. */
  function ResolvedTurn(flags: Flags, c1: Combatant, m1: MoveData, c2: Combatant, m2: MoveData, d: TurnDraws): TurnOutcome
    requires ValidDraws(d)
  {
    var o := Order(c1, m1, c2, m2, d.speedTie);
    var strike := FirstStrike(o, d);
    var secondHp := strike.defenderHp;
    var firstHp := FirstHpAfterTurn(o, d);
    var reply :=
      if secondHp > 0 then AttackOutcome(o.second.(hp := secondHp), o.first, o.secondMove, d.secondHit, d.secondDamage).log
      else [Fainted(o.second.species.name)];
    var finished1 := if secondHp > 0 then flags.isFinished else true;
    var winner1 := if secondHp > 0 then flags.winnerId else Some(o.first.ownerId);
    var finished := if firstHp <= 0 then true else finished1;
    var winner := if firstHp <= 0 then Some(o.second.ownerId) else winner1;
    var log := [TurnHeader(flags.turnNumber)] + strike.log + reply
               + (if firstHp <= 0 then [Fainted(o.first.species.name)] else []);
    TurnOutcome(
      if o.player1First then firstHp else secondHp,
      if o.player1First then secondHp else firstHp,
      Flags(if finished then flags.turnNumber else flags.turnNumber + 1, finished, winner),
      log)
  }

  /** ResolvedTurn read in attack order, with the win checks folded into one condition each. */
  lemma ResolvedTurnInAttackOrder(flags: Flags, c1: Combatant, m1: MoveData, c2: Combatant, m2: MoveData, d: TurnDraws)
    requires ValidDraws(d)
    ensures var o := Order(c1, m1, c2, m2, d.speedTie);
      var secondHp := FirstStrike(o, d).defenderHp;
      var firstHp := FirstHpAfterTurn(o, d);
      var finished := firstHp <= 0 || secondHp <= 0 || flags.isFinished;
      var t := ResolvedTurn(flags, c1, m1, c2, m2, d);
      t.hp1 == (if o.player1First then firstHp else secondHp)
      && t.hp2 == (if o.player1First then secondHp else firstHp)
      && t.flags == Flags(if finished then flags.turnNumber else flags.turnNumber + 1, finished,
                          if firstHp <= 0 then Some(o.second.ownerId)
                          else if secondHp <= 0 then Some(o.first.ownerId) else flags.winnerId)
      && t.log == [TurnHeader(flags.turnNumber)]
                  + (FirstStrike(o, d).log
                     + (if secondHp > 0 then AttackOutcome(o.second.(hp := secondHp), o.first, o.secondMove, d.secondHit, d.secondDamage).log
                        else [Fainted(o.second.species.name)])
                     + (if firstHp <= 0 then [Fainted(o.first.species.name)] else []))
  {
  }

  /** Hit points stay non-negative and never increase during a turn. */
  lemma TurnKeepsHpInRange(flags: Flags, c1: Combatant, m1: MoveData, c2: Combatant, m2: MoveData, d: TurnDraws)
    requires ValidDraws(d) && c1.hp >= 0 && c2.hp >= 0
    ensures var t := ResolvedTurn(flags, c1, m1, c2, m2, d);
      0 <= t.hp1 <= c1.hp && 0 <= t.hp2 <= c2.hp
  {
    var o := Order(c1, m1, c2, m2, d.speedTie);
    var secondHp := FirstStrike(o, d).defenderHp;
    if secondHp > 0 {
      var back := AttackOutcome(o.second.(hp := secondHp), o.first, o.secondMove, d.secondHit, d.secondDamage);
    }
  }

  /**
   * A finished battle stays finished, the winner is set exactly when it is
   * finished, the turn counter grows by one exactly when the battle is still
   * running afterwards, and the log opens with the old turn number.
   */
  lemma TurnCounting(flags: Flags, c1: Combatant, m1: MoveData, c2: Combatant, m2: MoveData, d: TurnDraws)
    requires ValidDraws(d)
    ensures var t := ResolvedTurn(flags, c1, m1, c2, m2, d);
      (flags.isFinished ==> t.flags.isFinished)
      && t.flags.turnNumber == (if t.flags.isFinished then flags.turnNumber else flags.turnNumber + 1)
      && ((flags.isFinished <==> flags.winnerId.Some?) ==> (t.flags.isFinished <==> t.flags.winnerId.Some?))
      && t.log[0] == TurnHeader(flags.turnNumber)
  {
  }

  /**
   * Knockouts: if the first strike leaves the second attacker at hp <= 0, the
   * second does not strike back and, unless the first attacker is itself at
   * hp <= 0, the first attacker's player wins. If the first attacker ends the
   * turn at hp <= 0, the second attacker's player wins. If both end alive,
   * the winner and the finished flag are untouched.
   */
  lemma TurnKnockouts(flags: Flags, c1: Combatant, m1: MoveData, c2: Combatant, m2: MoveData, d: TurnDraws)
    requires ValidDraws(d)
    ensures var o := Order(c1, m1, c2, m2, d.speedTie);
      var t := ResolvedTurn(flags, c1, m1, c2, m2, d);
      var secondHp := FirstStrike(o, d).defenderHp;
      var firstHp := FirstHpAfterTurn(o, d);
      (secondHp <= 0 ==> firstHp == o.first.hp)
      && (secondHp <= 0 && o.first.hp > 0 ==> t.flags.isFinished && t.flags.winnerId == Some(o.first.ownerId))
      && (firstHp <= 0 ==> t.flags.isFinished && t.flags.winnerId == Some(o.second.ownerId))
      && (secondHp > 0 && firstHp > 0 ==> t.flags.isFinished == flags.isFinished && t.flags.winnerId == flags.winnerId)
  {
  }

  /**
   * The source has no finished-battle guard: a turn resolved when the first
   * attacker is already at 0 hp still has it attack, and then names the second
   * attacker's player as winner whatever the recorded winner was.
   */
  lemma FaintedFirstAttackerStillAttacks(flags: Flags, c1: Combatant, m1: MoveData, c2: Combatant, m2: MoveData, d: TurnDraws)
    requires ValidDraws(d)
    requires var o := Order(c1, m1, c2, m2, d.speedTie); o.first.hp == 0
    ensures var o := Order(c1, m1, c2, m2, d.speedTie);
      var t := ResolvedTurn(flags, c1, m1, c2, m2, d);
      t.log[1] == Used(o.first.species.name, o.firstMove.name)
      && t.flags.isFinished && t.flags.winnerId == Some(o.second.ownerId)
  {
    var o := Order(c1, m1, c2, m2, d.speedTie);
    var secondHp := FirstStrike(o, d).defenderHp;
    if secondHp > 0 {
      var back := AttackOutcome(o.second.(hp := secondHp), o.first, o.secondMove, d.secondHit, d.secondDamage);
      assert back.defenderHp == 0;
    }
  }

  // ------------------------------------------------------ the battle

  class BattleService {
    const lobbyId: Uuid
    /** The move repository's findByName, as a map from name to move. */
    const moveRepository: map<string, MoveData>
    /** The active team member of each player id; the map never changes after construction. */
    const activePokemon: map<int, PlayerPokemon>
    var turnNumber: int
    var isFinished: bool
    var winnerId: Option<int>

    /**
     * Each active member is keyed by its owner's id and has hp >= 0, the
     * counter starts at 1, and a winner is recorded exactly when the battle
     * is finished.
     */
    ghost predicate Valid()
      reads this, activePokemon.Values
    {
      turnNumber >= 1
      && (isFinished <==> winnerId.Some?)
      && forall id :: id in activePokemon ==> activePokemon[id].player.id == id && activePokemon[id].currentHp >= 0
    }

    constructor (lobbyId: Uuid, moveRepository: map<string, MoveData>, activePokemon: map<int, PlayerPokemon>)
      ensures this.lobbyId == lobbyId && this.moveRepository == moveRepository && this.activePokemon == activePokemon
      ensures turnNumber == 1 && !isFinished && winnerId == None
    {
      this.lobbyId := lobbyId;
      this.moveRepository := moveRepository;
      this.activePokemon := activePokemon;
      turnNumber := 1;
      isFinished := false;
      winnerId := None;
    }

    /**
     * The constructor with initializeBattle: fails with the first player whose
     * team has no living member, and otherwise starts at turn 1, unfinished.
     * Team members point back at the player that owns them.
     */
    static method Create(lobbyId: Uuid, players: seq<Player>, moveRepository: map<string, MoveData>)
      returns (r: Result<BattleService, BattleError>)
      requires forall p, m :: p in players && m in p.team ==> m.player == p
      ensures r.Failure? <==> InitialActive(players).Failure?
      ensures r.Failure? ==> r.error == InitialActive(players).error
      ensures r.Success? ==>
        fresh(r.value) && r.value.Valid()
        && r.value.lobbyId == lobbyId && r.value.moveRepository == moveRepository
        && r.value.activePokemon == InitialActive(players).value
        && r.value.turnNumber == 1 && !r.value.isFinished && r.value.winnerId == None
    {
      var active: map<int, PlayerPokemon> := map[];
      var i := 0;
      while i < |players|
        invariant 0 <= i <= |players|
        invariant InitialActive(players[..i]) == Success(active)
        invariant forall id :: id in active ==> active[id].player.id == id && active[id].currentHp > 0
      {
        var player := players[i];
        assert players[..i + 1][..i] == players[..i];
        var firstPokemon := FirstLiving(player.team);
        if firstPokemon.None? {
          InitialActiveFailureSticks(players, i + 1);
          return Failure(NoLivingPokemon(player.user.username));
        }
        assert firstPokemon.value in player.team;
        active := active[player.id := firstPokemon.value];
        i := i + 1;
      }
      assert players[..i] == players;
      ghost var initial := InitialActive(players);
      ghost var members := Members(players);
      var battle := new BattleService(lobbyId, moveRepository, active);
      assert members == Members(players);
      assert initial == InitialActive(players);
      return Success(battle);
    }

    /** The reason resolveTurn throws, if any: player 1's move, then player 2's, then a missing active member. */
    function Rejection(player1Id: int, move1: string, player2Id: int, move2: string): Option<TurnError> {
      if move1 !in moveRepository then Some(InvalidMove(move1))
      else if move2 !in moveRepository then Some(InvalidMove(move2))
      else if player1Id !in activePokemon || player2Id !in activePokemon then Some(NoActivePokemon)
      else None
    }

    /** executeAttack: logs the attack and, on a hit, lowers the defender's hp. */
    method ExecuteAttack(attacker: PlayerPokemon, defender: PlayerPokemon, move: MoveData, hitDraw: real, damageDraw: real)
      returns (entries: seq<LogEntry>)
      requires 0.0 <= damageDraw < 1.0
      modifies defender`currentHp
      ensures var o := AttackOutcome(old(Snapshot(attacker)), old(Snapshot(defender)), move, hitDraw, damageDraw);
        defender.currentHp == o.defenderHp && entries == o.log
    {
      entries := [Used(attacker.basePokemon.name, move.name)];
      if hitDraw * 100.0 > move.accuracy as real {
        entries := entries + [Missed];
        return;
      }
      var damage := CalculateDamage(attacker, defender, move, damageDraw);
      var newHp := if defender.currentHp - damage > 0 then defender.currentHp - damage else 0;
      defender.currentHp := newHp;
      entries := entries + [Dealt(damage)];
    }

    /** checkWinCondition: the battle is over and the given player won. */
    method CheckWinCondition(possibleWinnerId: int)
      modifies this`isFinished, this`winnerId
      ensures isFinished && winnerId == Some(possibleWinnerId)
    {
      isFinished := true;
      winnerId := Some(possibleWinnerId);
    }

    /**
     * The part of resolveTurn after the attack order is fixed: the first
     * attacker strikes; the second strikes back while its hp is above 0 and
     * otherwise faints and the first attacker's player wins; a first attacker
     * left at hp 0 faints and the second attacker's player wins.
     */
    method Strikes(first: PlayerPokemon, firstMove: MoveData, second: PlayerPokemon, secondMove: MoveData,
                   draws: TurnDraws, ghost o: Matchup)
      returns (log: seq<LogEntry>)
      requires first != second && ValidDraws(draws)
      requires o.first == Snapshot(first) && o.second == Snapshot(second)
      requires o.firstMove == firstMove && o.secondMove == secondMove
      modifies first`currentHp, second`currentHp, this`isFinished, this`winnerId
      ensures var secondHp := FirstStrike(o, draws).defenderHp;
        var firstHp := FirstHpAfterTurn(o, draws);
        second.currentHp == secondHp && first.currentHp == firstHp
        && isFinished == (firstHp <= 0 || secondHp <= 0 || old(isFinished))
        && winnerId == (if firstHp <= 0 then Some(o.second.ownerId)
                        else if secondHp <= 0 then Some(o.first.ownerId) else old(winnerId))
        && log == FirstStrike(o, draws).log
                  + (if secondHp > 0 then AttackOutcome(o.second.(hp := secondHp), o.first, secondMove, draws.secondHit, draws.secondDamage).log
                     else [Fainted(o.second.species.name)])
                  + (if firstHp <= 0 then [Fainted(o.first.species.name)] else [])
    {
      log := ExecuteAttack(first, second, firstMove, draws.firstHit, draws.firstDamage);
      assert second.currentHp == FirstStrike(o, draws).defenderHp;
      if second.currentHp > 0 {
        var entries := ExecuteAttack(second, first, secondMove, draws.secondHit, draws.secondDamage);
        log := log + entries;
      } else {
        log := log + [Fainted(second.basePokemon.name)];
        CheckWinCondition(first.player.id);
      }
      assert first.currentHp == FirstHpAfterTurn(o, draws);
      if first.currentHp <= 0 {
        log := log + [Fainted(first.basePokemon.name)];
        CheckWinCondition(second.player.id);
      }
    }

    /**
     * resolveTurn for the two player ids in the order the move map yields them.
     * A rejected turn changes nothing; otherwise the two active members' hp,
     * the counters and the returned log are those of ResolvedTurn, and every
     * other active member is untouched.
     */
    method ResolveTurn(player1Id: int, move1: string, player2Id: int, move2: string, draws: TurnDraws)
      returns (r: Result<TurnResult, TurnError>)
      requires Valid() && player1Id != player2Id && ValidDraws(draws)
      modifies this`turnNumber, this`isFinished, this`winnerId, activePokemon.Values
      ensures Valid()
      ensures r.Failure? <==> Rejection(player1Id, move1, player2Id, move2).Some?
      ensures r.Failure? ==>
        r.error == Rejection(player1Id, move1, player2Id, move2).value
        && turnNumber == old(turnNumber) && isFinished == old(isFinished) && winnerId == old(winnerId)
        && forall pk :: pk in activePokemon.Values ==> pk.currentHp == old(pk.currentHp)
      ensures r.Success? ==>
        var t := ResolvedTurn(old(Flags(turnNumber, isFinished, winnerId)),
                              old(Snapshot(activePokemon[player1Id])), moveRepository[move1],
                              old(Snapshot(activePokemon[player2Id])), moveRepository[move2], draws);
        activePokemon[player1Id].currentHp == t.hp1 && activePokemon[player2Id].currentHp == t.hp2
        && Flags(turnNumber, isFinished, winnerId) == t.flags
        && r.value == TurnResult(t.log, true, t.flags.isFinished, t.flags.winnerId)
        && forall id :: id in activePokemon && id != player1Id && id != player2Id ==>
             activePokemon[id].currentHp == old(activePokemon[id].currentHp)
    {
      if move1 !in moveRepository {
        return Failure(InvalidMove(move1));
      }
      if move2 !in moveRepository {
        return Failure(InvalidMove(move2));
      }
      if player1Id !in activePokemon || player2Id !in activePokemon {
        return Failure(NoActivePokemon);
      }
      var result := PlayTurn(player1Id, moveRepository[move1], player2Id, moveRepository[move2], draws);
      return Success(result);
    }

    /** The accepted part of resolveTurn: both moves are known and both players have an active member. */
    method PlayTurn(player1Id: int, p1Move: MoveData, player2Id: int, p2Move: MoveData, draws: TurnDraws)
      returns (result: TurnResult)
      requires Valid() && player1Id != player2Id && ValidDraws(draws)
      requires player1Id in activePokemon && player2Id in activePokemon
      modifies this`turnNumber, this`isFinished, this`winnerId, activePokemon.Values
      ensures Valid()
      ensures var t := ResolvedTurn(old(Flags(turnNumber, isFinished, winnerId)),
                                    old(Snapshot(activePokemon[player1Id])), p1Move,
                                    old(Snapshot(activePokemon[player2Id])), p2Move, draws);
        activePokemon[player1Id].currentHp == t.hp1 && activePokemon[player2Id].currentHp == t.hp2
        && Flags(turnNumber, isFinished, winnerId) == t.flags
        && result == TurnResult(t.log, true, t.flags.isFinished, t.flags.winnerId)
      ensures forall id :: id in activePokemon && id != player1Id && id != player2Id ==>
        activePokemon[id].currentHp == old(activePokemon[id].currentHp)
    {
      var p1Pokemon := activePokemon[player1Id];
      var p2Pokemon := activePokemon[player2Id];
      ghost var flags := Flags(turnNumber, isFinished, winnerId);
      ghost var c1 := Snapshot(p1Pokemon);
      ghost var c2 := Snapshot(p2Pokemon);
      ghost var o := Order(c1, p1Move, c2, p2Move, draws.speedTie);
      ghost var t := ResolvedTurn(flags, c1, p1Move, c2, p2Move, draws);

      var p1GoesFirst := GoesFirst(p1Move, p2Move, p1Pokemon.basePokemon, p2Pokemon.basePokemon, draws.speedTie);
      var firstAttacker := if p1GoesFirst then p1Pokemon else p2Pokemon;
      var secondAttacker := if p1GoesFirst then p2Pokemon else p1Pokemon;
      var firstMove := if p1GoesFirst then p1Move else p2Move;
      var secondMove := if p1GoesFirst then p2Move else p1Move;

      var log := [TurnHeader(turnNumber)];
      var entries := Strikes(firstAttacker, firstMove, secondAttacker, secondMove, draws, o);
      log := log + entries;
      if !isFinished {
        turnNumber := turnNumber + 1;
      }

      ResolvedTurnInAttackOrder(flags, c1, p1Move, c2, p2Move, draws);
      TurnKeepsHpInRange(flags, c1, p1Move, c2, p2Move, draws);
      forall id | id in activePokemon && id != player1Id && id != player2Id
        ensures activePokemon[id].currentHp == old(activePokemon[id].currentHp)
      {
        assert activePokemon[id].player.id == id;
      }
      result := TurnResult(log, true, isFinished, winnerId);
    }
  }

  /** Once a prefix of the players fails to start, every longer prefix fails the same way. */
  lemma {:induction false} InitialActiveFailureSticks(players: seq<Player>, k: int)
    requires 0 < k <= |players|
    requires InitialActive(players[..k - 1]).Success? && FirstLiving(players[k - 1].team).None?
    ensures InitialActive(players[..k]) == Failure(NoLivingPokemon(players[k - 1].user.username))
    ensures InitialActive(players).Failure? && InitialActive(players).error == InitialActive(players[..k]).error
    decreases |players| - k
  {
    assert players[..k][..k - 1] == players[..k - 1];
    if k < |players| {
      InitialActiveFailureAbsorbs(players, k);
    } else {
      assert players[..k] == players;
    }
  }

  lemma {:induction false} InitialActiveFailureAbsorbs(players: seq<Player>, k: int)
    requires 0 < k <= |players|
    requires InitialActive(players[..k]).Failure?
    ensures InitialActive(players) == InitialActive(players[..k])
    decreases |players| - k
  {
    if k < |players| {
      assert players[..k + 1][..k] == players[..k];
      InitialActiveFailureAbsorbs(players, k + 1);
    } else {
      assert players[..k] == players;
    }
  }
}
