/**
 * Reference-data ingestion from the PokeAPI GraphQL endpoint: the name-keyed
 * caches, the mapping of GraphQL records to abilities, moves and species
 * (with their defaults and filters), and the type-relation pass.
 *
 * A GraphQL object that the code dereferences without a null check (a list
 * element, a name) is a plain value here; each wrapper or list the code does
 * check for null is an Option.
 */
module Ingestion {
  import opened Wrappers
  import opened Model
  import opened IngestionRelations

  const NoEffectText := "No effect text."
  const UnknownDamageClass := "unknown"

  datatype GqlAbilityDefinition = GqlAbilityDefinition(name: string, abilityEffects: Option<seq<string>>)

  datatype GqlMoveDefinition = GqlMoveDefinition(
    name: string,
    power: Option<int>,
    accuracy: Option<int>,
    pp: Option<int>,
    priority: Option<int>,
    moveDamageClass: Option<string>,
    moveType: Option<string>)

  datatype GqlPokemonStat = GqlPokemonStat(baseStat: int, stat: Option<string>)

  /** One form of a species; each link list holds the (nullable) name wrappers of the linked records. */
  datatype GqlPokemonInstance = GqlPokemonInstance(
    stats: Option<seq<GqlPokemonStat>>,
    types: Option<seq<Option<string>>>,
    abilities: Option<seq<Option<string>>>,
    moves: Option<seq<Option<string>>>)

  datatype GqlPokemonSpecies = GqlPokemonSpecies(name: string, pokemons: Option<seq<GqlPokemonInstance>>)

  /** What aborts a whole reactive batch. */
  datatype IngestError =
    | NullKeyLookup      // a concurrent hash map asked for the key null
    | NullMapped         // a mapping step produced null
    | DuplicateKey(key: string)

  function TypeName(t: TypeData): string { t.name }
  function MoveName(m: MoveData): string { m.name }
  function AbilityName(a: AbilityData): string { a.name }

  // ---------------------------------------------------------------- caches

  /** A cache filled by putting each item under its name in list order. */
  function IndexByName<T>(items: seq<T>, nameOf: T -> string): map<string, T>
  {
    if items == [] then map[]
    else IndexByName(items[..|items| - 1], nameOf)[nameOf(items[|items| - 1]) := items[|items| - 1]]
  }

  /** The cache holds exactly the names of the items, each under its own name. */
  lemma {:induction false} IndexByNameHoldsItems<T>(items: seq<T>, nameOf: T -> string)
    ensures var m := IndexByName(items, nameOf);
      (forall k :: k in m <==> exists i :: 0 <= i < |items| && nameOf(items[i]) == k)
      && forall k :: k in m ==> nameOf(m[k]) == k && m[k] in items
  {
    if items != [] {
      var front := items[..|items| - 1];
      var last := items[|items| - 1];
      IndexByNameHoldsItems(front, nameOf);
      var m := IndexByName(items, nameOf);
      assert m == IndexByName(front, nameOf)[nameOf(last) := last];
      forall k
        ensures k in m <==> exists i :: 0 <= i < |items| && nameOf(items[i]) == k
      {
        if k in m && k != nameOf(last) {
          assert k in IndexByName(front, nameOf);
          assert exists i :: 0 <= i < |front| && nameOf(front[i]) == k;
          var i :| 0 <= i < |front| && nameOf(front[i]) == k;
          assert items[i] == front[i];
        }
        if exists i :: 0 <= i < |items| && nameOf(items[i]) == k {
          var i :| 0 <= i < |items| && nameOf(items[i]) == k;
          if i < |front| {
            assert front[i] == items[i];
            assert k in IndexByName(front, nameOf);
          } else {
            assert k == nameOf(last);
          }
        }
      }
      forall k | k in m
        ensures nameOf(m[k]) == k && m[k] in items
      {
        if k != nameOf(last) {
          assert k in IndexByName(front, nameOf);
          var x := IndexByName(front, nameOf)[k];
          assert x in front;
          var i :| 0 <= i < |front| && front[i] == x;
          assert items[i] == x;
        }
      }
    }
  }

  /** An item with no later namesake is the one cached under its name: a later item with the same name wins. */
  lemma {:induction false} IndexByNameLastWins<T>(items: seq<T>, nameOf: T -> string, i: int)
    requires 0 <= i < |items|
    requires forall j :: i < j < |items| ==> nameOf(items[j]) != nameOf(items[i])
    ensures nameOf(items[i]) in IndexByName(items, nameOf)
    ensures IndexByName(items, nameOf)[nameOf(items[i])] == items[i]
  {
    if i < |items| - 1 {
      var front := items[..|items| - 1];
      assert front[i] == items[i];
      IndexByNameLastWins(front, nameOf, i);
    }
  }

  /** The put-each loop that fills a cache. */
  method PutAll<T>(items: seq<T>, nameOf: T -> string) returns (m: map<string, T>)
    ensures m == IndexByName(items, nameOf)
  {
    m := map[];
    for i := 0 to |items|
      invariant m == IndexByName(items[..i], nameOf)
    {
      assert items[..i + 1][..i] == items[..i];
      m := m[nameOf(items[i]) := items[i]];
    }
    assert items[..|items|] == items;
  }

  // --------------------------------------------------------------- mappings

  /** An ability: its description is the first effect text, or a fixed text when there is none. */
  function MapAbility(g: GqlAbilityDefinition): (a: AbilityData)
    ensures a.name == g.name
    ensures g.abilityEffects.Some? && |g.abilityEffects.value| > 0 ==> a.description == g.abilityEffects.value[0]
    ensures g.abilityEffects.None? || g.abilityEffects.value == [] ==> a.description == NoEffectText
  {
    AbilityData(g.name,
      if g.abilityEffects.None? || g.abilityEffects.value == [] then NoEffectText else g.abilityEffects.value[0])
  }

  function AbilitiesBatch(gs: seq<GqlAbilityDefinition>): (r: seq<AbilityData>)
    ensures |r| == |gs| && forall i :: 0 <= i < |gs| ==> r[i] == MapAbility(gs[i])
  {
    if gs == [] then [] else [MapAbility(gs[0])] + AbilitiesBatch(gs[1..])
  }

  /** The move record built once the move's type has been found. */
  function BuildMove(g: GqlMoveDefinition, t: TypeData): (m: MoveData)
    ensures m.name == g.name && m.moveType == t
    ensures m.power == g.power.GetOr(0) && m.accuracy == g.accuracy.GetOr(0)
    ensures m.pp == g.pp.GetOr(0) && m.priority == g.priority.GetOr(0)
    ensures m.damageClass == g.moveDamageClass.GetOr(UnknownDamageClass)
  {
    MoveData(g.name, g.power.GetOr(0), g.accuracy.GetOr(0), g.pp.GetOr(0), g.priority.GetOr(0),
      g.moveDamageClass.GetOr(UnknownDamageClass), t)
  }

  /**
   * A move as the intended mapping treats it: one whose type is absent or
   * not cached is dropped, every other one is kept with zero for a missing
   * number and "unknown" for a missing damage class.
   */
  function MapMove(typeCache: map<string, TypeData>, g: GqlMoveDefinition): (r: Option<MoveData>)
    ensures r.None? <==> g.moveType.None? || g.moveType.value !in typeCache
    ensures r.Some? ==> r.value == BuildMove(g, typeCache[g.moveType.value])
  {
    if g.moveType.None? || g.moveType.value !in typeCache then None
    else Some(BuildMove(g, typeCache[g.moveType.value]))
  }

  /** The kept moves, in order. */
  function MovesBatch(typeCache: map<string, TypeData>, gs: seq<GqlMoveDefinition>): (r: seq<MoveData>)
    ensures |r| <= |gs|
    ensures forall m :: m in r <==> exists i :: 0 <= i < |gs| && MapMove(typeCache, gs[i]) == Some(m)
  {
    if gs == [] then []
    else
      var rest := MovesBatch(typeCache, gs[1..]);
      assert forall i :: 1 <= i < |gs| ==> gs[i] == gs[1..][i - 1];
      match MapMove(typeCache, gs[0])
      case None => rest
      case Some(m) => [m] + rest
  }

  /**
   * The move mapping as written: the cache is asked for the key null when the
   * type wrapper is missing, and a type not in the cache makes the mapping
   * return null.
   */
  function MapMoveAsWritten(typeCache: map<string, TypeData>, g: GqlMoveDefinition): (r: Result<Option<MoveData>, IngestError>)
    ensures r.Failure? <==> g.moveType.None?
    ensures r.Success? ==> r.value == MapMove(typeCache, g)
  {
    if g.moveType.None? then Failure(NullKeyLookup)
    else Success(MapMove(typeCache, g))
  }

  /** The move batch as written: the first failing or null mapping aborts the whole batch. */
  function MovesBatchAsWritten(typeCache: map<string, TypeData>, gs: seq<GqlMoveDefinition>): Result<seq<MoveData>, IngestError>
  {
    if gs == [] then Success([])
    else match MapMoveAsWritten(typeCache, gs[0])
      case Failure(e) => Failure(e)
      case Success(None) => Failure(NullMapped)
      case Success(Some(m)) =>
        match MovesBatchAsWritten(typeCache, gs[1..])
        case Failure(e) => Failure(e)
        case Success(rest) => Success([m] + rest)
  }

  /** The batch as written succeeds exactly when no move would be dropped, and then agrees with the intended one. */
  lemma {:induction false} MovesBatchAsWrittenAbortsOnDrop(typeCache: map<string, TypeData>, gs: seq<GqlMoveDefinition>)
    ensures MovesBatchAsWritten(typeCache, gs).Success? <==>
      forall i :: 0 <= i < |gs| ==> gs[i].moveType.Some? && gs[i].moveType.value in typeCache
    ensures MovesBatchAsWritten(typeCache, gs).Success? ==> MovesBatchAsWritten(typeCache, gs).value == MovesBatch(typeCache, gs)
  {
    if gs != [] {
      MovesBatchAsWrittenAbortsOnDrop(typeCache, gs[1..]);
      assert forall i :: 1 <= i < |gs| ==> gs[i] == gs[1..][i - 1];
    }
  }

  /** A batch with one move of an uncached type: the intended mapping keeps the other move, the one as written keeps none. */
  lemma UncachedTypeAbortsMoveBatch()
    ensures var normal := TypeData(1, "normal", {}, {}, {});
      var cache := map["normal" := normal];
      var tackle := GqlMoveDefinition("tackle", Some(40), Some(100), Some(35), Some(0), Some("physical"), Some("normal"));
      var lick := GqlMoveDefinition("lick", Some(30), Some(100), Some(30), Some(0), Some("physical"), Some("ghost"));
      MovesBatchAsWritten(cache, [tackle, lick]) == Failure(NullMapped)
      && MovesBatch(cache, [tackle, lick]) == [MoveData("tackle", 40, 100, 35, 0, "physical", normal)]
  {
    var normal := TypeData(1, "normal", {}, {}, {});
    var cache := map["normal" := normal];
    var tackle := GqlMoveDefinition("tackle", Some(40), Some(100), Some(35), Some(0), Some("physical"), Some("normal"));
    var lick := GqlMoveDefinition("lick", Some(30), Some(100), Some(30), Some(0), Some("physical"), Some("ghost"));
    assert [tackle, lick][1..] == [lick];
    assert [lick][1..] == [];
  }

  /** A batch with one move without a type: the intended mapping drops it, the one as written fails on the null lookup. */
  lemma TypelessMoveAbortsMoveBatch()
    ensures var cache := map["normal" := TypeData(1, "normal", {}, {}, {})];
      var mystery := GqlMoveDefinition("mystery", None, None, None, None, None, None);
      MovesBatchAsWritten(cache, [mystery]) == Failure(NullKeyLookup)
      && MovesBatch(cache, [mystery]) == []
  {
    var mystery := GqlMoveDefinition("mystery", None, None, None, None, None, None);
    assert [mystery][1..] == [];
  }

  /**
   * The base-stat table of a form: entries without a stat wrapper are
   * skipped, and a stat name that occurs twice is a duplicate-key failure.
   */
  function StatsMap(stats: seq<GqlPokemonStat>): (r: Result<map<string, int>, IngestError>)
    ensures r.Success? ==>
      r.value.Keys == (set i | 0 <= i < |stats| && stats[i].stat.Some? :: stats[i].stat.value)
      && forall i :: 0 <= i < |stats| && stats[i].stat.Some? ==> r.value[stats[i].stat.value] == stats[i].baseStat
    ensures r.Failure? <==>
      exists i, j :: 0 <= i < j < |stats| && stats[i].stat.Some? && stats[i].stat == stats[j].stat
  {
    if stats == [] then Success(map[])
    else
      var front := stats[..|stats| - 1];
      var last := stats[|stats| - 1];
      assert forall i :: 0 <= i < |front| ==> front[i] == stats[i];
      match StatsMap(front)
      case Failure(e) => Failure(e)
      case Success(m) =>
        if last.stat.None? then Success(m)
        else if last.stat.value in m then
          assert exists i :: 0 <= i < |front| && front[i].stat == last.stat;
          Failure(DuplicateKey(last.stat.value))
        else Success(m[last.stat.value := last.baseStat])
  }

  /** A base stat, zero when the table lacks it. */
  function StatOr(stats: map<string, int>, statName: string): (v: int)
    ensures statName in stats ==> v == stats[statName]
    ensures statName !in stats ==> v == 0
  {
    if statName in stats then stats[statName] else 0
  }

  /** The cached records a link list names: null wrappers and names not in the cache are skipped. */
  function Linked<T(!new)>(cache: map<string, T>, links: Option<seq<Option<string>>>): (r: set<T>)
    ensures forall x :: x in r <==>
      links.Some? && exists l :: l in links.value && l.Some? && l.value in cache && cache[l.value] == x
  {
    if links.None? then {} else set l | l in links.value && l.Some? && l.value in cache :: cache[l.value]
  }

  /**
   * A species built from its first form, or None when it has no form; the
   * stat table's duplicate-key failure aborts.
   */
  function MapSpecies(
    typeCache: map<string, TypeData>, abilityCache: map<string, AbilityData>, moveCache: map<string, MoveData>,
    g: GqlPokemonSpecies): (r: Result<Option<PokemonData>, IngestError>)
    ensures (r.Success? && r.value.None?) <==> g.pokemons.None? || g.pokemons.value == []
    ensures r.Failure? <==>
      g.pokemons.Some? && g.pokemons.value != [] && g.pokemons.value[0].stats.Some?
      && StatsMap(g.pokemons.value[0].stats.value).Failure?
    ensures r.Success? && r.value.Some? ==>
      var form := g.pokemons.value[0];
      var stats := if form.stats.None? then map[] else StatsMap(form.stats.value).value;
      var p := r.value.value;
      p.name == g.name
      && p.baseHp == StatOr(stats, "hp") && p.baseAttack == StatOr(stats, "attack")
      && p.baseDefense == StatOr(stats, "defense") && p.baseSpecialAttack == StatOr(stats, "special-attack")
      && p.baseSpecialDefense == StatOr(stats, "special-defense") && p.baseSpeed == StatOr(stats, "speed")
      && p.types == Linked(typeCache, form.types) && p.abilities == Linked(abilityCache, form.abilities)
      && p.moves == Linked(moveCache, form.moves)
  {
    if g.pokemons.None? || g.pokemons.value == [] then Success(None)
    else
      var form := g.pokemons.value[0];
      var statsR := if form.stats.None? then Success(map[]) else StatsMap(form.stats.value);
      match statsR
      case Failure(e) => Failure(e)
      case Success(stats) =>
        Success(Some(PokemonData(g.name,
          StatOr(stats, "hp"), StatOr(stats, "attack"), StatOr(stats, "defense"),
          StatOr(stats, "special-attack"), StatOr(stats, "special-defense"), StatOr(stats, "speed"),
          Linked(typeCache, form.types), Linked(moveCache, form.moves), Linked(abilityCache, form.abilities))))
  }

  /** The species batch as intended: species without a form are dropped; the first failure aborts. */
  function SpeciesBatch(
    typeCache: map<string, TypeData>, abilityCache: map<string, AbilityData>, moveCache: map<string, MoveData>,
    gs: seq<GqlPokemonSpecies>): (r: Result<seq<PokemonData>, IngestError>)
    ensures r.Success? ==> |r.value| <= |gs|
    ensures r.Success? ==> forall p :: p in r.value <==>
      exists i :: 0 <= i < |gs| && MapSpecies(typeCache, abilityCache, moveCache, gs[i]) == Success(Some(p))
    ensures r.Failure? <==> exists i :: 0 <= i < |gs| && MapSpecies(typeCache, abilityCache, moveCache, gs[i]).Failure?
  {
    if gs == [] then Success([])
    else
      assert forall i :: 1 <= i < |gs| ==> gs[i] == gs[1..][i - 1];
      match MapSpecies(typeCache, abilityCache, moveCache, gs[0])
      case Failure(e) => Failure(e)
      case Success(p) =>
        match SpeciesBatch(typeCache, abilityCache, moveCache, gs[1..])
        case Failure(e) => Failure(e)
        case Success(rest) => Success(if p.None? then rest else [p.value] + rest)
  }

  /** The species batch as written: a species without a form maps to null, which aborts the batch. */
  function SpeciesBatchAsWritten(
    typeCache: map<string, TypeData>, abilityCache: map<string, AbilityData>, moveCache: map<string, MoveData>,
    gs: seq<GqlPokemonSpecies>): Result<seq<PokemonData>, IngestError>
  {
    if gs == [] then Success([])
    else match MapSpecies(typeCache, abilityCache, moveCache, gs[0])
      case Failure(e) => Failure(e)
      case Success(None) => Failure(NullMapped)
      case Success(Some(p)) =>
        match SpeciesBatchAsWritten(typeCache, abilityCache, moveCache, gs[1..])
        case Failure(e) => Failure(e)
        case Success(rest) => Success([p] + rest)
  }

  /** The batch as written agrees with the intended one when every species has a form, and fails otherwise. */
  lemma {:induction false} SpeciesBatchAsWrittenAbortsOnDrop(
    typeCache: map<string, TypeData>, abilityCache: map<string, AbilityData>, moveCache: map<string, MoveData>,
    gs: seq<GqlPokemonSpecies>)
    ensures (forall i :: 0 <= i < |gs| ==> gs[i].pokemons.Some? && gs[i].pokemons.value != []) ==>
      SpeciesBatchAsWritten(typeCache, abilityCache, moveCache, gs) == SpeciesBatch(typeCache, abilityCache, moveCache, gs)
    ensures (exists i :: 0 <= i < |gs| && (gs[i].pokemons.None? || gs[i].pokemons.value == [])) ==>
      SpeciesBatchAsWritten(typeCache, abilityCache, moveCache, gs).Failure?
  {
    if gs != [] {
      SpeciesBatchAsWrittenAbortsOnDrop(typeCache, abilityCache, moveCache, gs[1..]);
      assert forall i :: 1 <= i < |gs| ==> gs[i] == gs[1..][i - 1];
    }
  }

  /** A batch with one formless species: the intended mapping keeps the other species, the one as written keeps none. */
  lemma FormlessSpeciesAbortsSpeciesBatch()
    ensures var bare := GqlPokemonInstance(None, None, None, None);
      var ditto := GqlPokemonSpecies("ditto", Some([bare]));
      var formless := GqlPokemonSpecies("missingno", Some([]));
      SpeciesBatchAsWritten(map[], map[], map[], [ditto, formless]) == Failure(NullMapped)
      && SpeciesBatch(map[], map[], map[], [ditto, formless]) == Success([PokemonData("ditto", 0, 0, 0, 0, 0, 0, {}, {}, {})])
  {
    var bare := GqlPokemonInstance(None, None, None, None);
    var ditto := GqlPokemonSpecies("ditto", Some([bare]));
    var formless := GqlPokemonSpecies("missingno", Some([]));
    assert [ditto, formless][1..] == [formless];
    assert [formless][1..] == [];
    assert MapSpecies(map[], map[], map[], formless) == Success(None);
    var noTypes: map<string, TypeData> := map[];
    assert Linked(noTypes, None) == {};
    var noAbilities: map<string, AbilityData> := map[];
    var noMoves: map<string, MoveData> := map[];
    assert Linked(noAbilities, None) == {};
    assert Linked(noMoves, None) == {};
    assert StatOr(map[], "hp") == 0;
    assert MapSpecies(map[], map[], map[], ditto) == Success(Some(PokemonData("ditto", 0, 0, 0, 0, 0, 0, {}, {}, {})));
    assert SpeciesBatch(map[], map[], map[], [formless]) == Success([]);
    var dittoData := PokemonData("ditto", 0, 0, 0, 0, 0, 0, {}, {}, {});
    assert [dittoData] + [] == [dittoData];
  }

  // --------------------------------------------------------------- service

  class PokeApiIngestionService {
    var typeCache: map<string, TypeData>
    var moveCache: map<string, MoveData>
    var abilityCache: map<string, AbilityData>
    /** The species records handed to the repository, batch after batch. */
    var savedSpecies: seq<PokemonData>

    constructor()
      ensures typeCache == map[] && moveCache == map[] && abilityCache == map[] && savedSpecies == []
    {
      typeCache := map[];
      moveCache := map[];
      abilityCache := map[];
      savedSpecies := [];
    }

    /** Fills the type cache from the stored types, only when it is empty. */
    method LoadTypeCache(stored: seq<TypeData>)
      modifies this`typeCache
      ensures old(typeCache) != map[] ==> typeCache == old(typeCache)
      ensures old(typeCache) == map[] ==> typeCache == IndexByName(stored, TypeName)
    {
      if typeCache == map[] {
        typeCache := PutAll(stored, TypeName);
      }
    }

    /** Fills the ability cache from the stored abilities, only when it is empty. */
    method LoadAbilityCache(stored: seq<AbilityData>)
      modifies this`abilityCache
      ensures old(abilityCache) != map[] ==> abilityCache == old(abilityCache)
      ensures old(abilityCache) == map[] ==> abilityCache == IndexByName(stored, AbilityName)
    {
      if abilityCache == map[] {
        abilityCache := PutAll(stored, AbilityName);
      }
    }

    /** Fills the move cache from the stored moves, only when it is empty. */
    method LoadMoveCache(stored: seq<MoveData>)
      modifies this`moveCache
      ensures old(moveCache) != map[] ==> moveCache == old(moveCache)
      ensures old(moveCache) == map[] ==> moveCache == IndexByName(stored, MoveName)
    {
      if moveCache == map[] {
        moveCache := PutAll(stored, MoveName);
      }
    }

    /**
     * Maps the ability records (a missing response is an empty batch) and
     * replaces the ability cache by the saved batch.
     */
    method IngestAbilities(response: Option<seq<GqlAbilityDefinition>>) returns (saved: seq<AbilityData>)
      modifies this`abilityCache
      ensures saved == AbilitiesBatch(response.GetOr([]))
      ensures abilityCache == IndexByName(saved, AbilityName)
    {
      saved := AbilitiesBatch(response.GetOr([]));
      abilityCache := PutAll(saved, AbilityName);
    }

    /**
     * Maps the move records against the type cache, dropping those whose type
     * is unknown, and replaces the move cache by the saved batch.
     */
    method IngestMoves(response: Option<seq<GqlMoveDefinition>>) returns (saved: seq<MoveData>)
      modifies this`moveCache
      ensures saved == MovesBatch(typeCache, response.GetOr([]))
      ensures moveCache == IndexByName(saved, MoveName)
    {
      saved := MovesBatch(typeCache, response.GetOr([]));
      moveCache := PutAll(saved, MoveName);
    }

    /** Maps the species records against the three caches and saves the batch; a failure saves nothing. */
    method IngestPokemon(response: Option<seq<GqlPokemonSpecies>>) returns (r: Result<seq<PokemonData>, IngestError>)
      modifies this`savedSpecies
      ensures r == SpeciesBatch(typeCache, abilityCache, moveCache, response.GetOr([]))
      ensures r.Success? ==> savedSpecies == old(savedSpecies) + r.value
      ensures r.Failure? ==> savedSpecies == old(savedSpecies)
    {
      r := SpeciesBatch(typeCache, abilityCache, moveCache, response.GetOr([]));
      if r.Success? {
        savedSpecies := savedSpecies + r.value;
      }
    }

    /**
     * The nested loop over the efficacy table that files each attacking type
     * into its targets' relation sets; a missing response is an empty table.
     */
    method IngestTypeDamageRelations(response: Option<seq<GqlTypeDefinition>>)
      modifies this`typeCache
      ensures typeCache == ApplyRelations(old(typeCache), response.GetOr([]))
    {
      var defs := response.GetOr([]);
      var cache := typeCache;
      ghost var initial := typeCache;
      for i := 0 to |defs|
        invariant ApplyRelations(cache, defs[i..]) == ApplyRelations(initial, defs)
      {
        assert defs[i..][1..] == defs[i + 1..];
        ghost var before := cache;
        var attackingTypeGql := defs[i];
        if attackingTypeGql.name in cache && attackingTypeGql.typeEfficacies.Some? {
          var attackingId := cache[attackingTypeGql.name].id;
          var efficacies := attackingTypeGql.typeEfficacies.value;
          for j := 0 to |efficacies|
            invariant ApplyEfficacies(cache, attackingId, efficacies[j..]) == ApplyDefinition(before, attackingTypeGql)
          {
            assert efficacies[j..][1..] == efficacies[j + 1..];
            ghost var prev := cache;
            var efficacy := efficacies[j];
            if efficacy.Some? && efficacy.value.damageType.Some? && efficacy.value.damageType.value in cache {
              var targetName := efficacy.value.damageType.value;
              var targetType := cache[targetName];
              var factor := efficacy.value.damageFactor;
              if factor == 200 {
                cache := cache[targetName := targetType.(doubleDamageFrom := targetType.doubleDamageFrom + {attackingId})];
              } else if factor == 50 {
                cache := cache[targetName := targetType.(halfDamageFrom := targetType.halfDamageFrom + {attackingId})];
              } else if factor == 0 {
                cache := cache[targetName := targetType.(noDamageFrom := targetType.noDamageFrom + {attackingId})];
              }
            }
            EfficacyStep(prev, attackingId, efficacy);
          }
          assert efficacies[|efficacies|..] == [];
        }
        assert cache == ApplyDefinition(before, attackingTypeGql);
        assert ApplyRelations(before, defs[i..]) == ApplyRelations(cache, defs[i + 1..]);
      }
      assert defs[|defs|..] == [];
      typeCache := cache;
    }
  }
}
