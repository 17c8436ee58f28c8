/**
 * The inversion of the type-efficacy table into each type's *DamageFrom
 * sets. The table lists, per attacking type, the damage factor it deals to
 * each target type; factor 200 puts the attacking type into the target's
 * doubleDamageFrom, 50 into halfDamageFrom and 0 into noDamageFrom.
 */
module IngestionRelations {
  import opened Wrappers
  import opened Model

  /** One efficacy entry: the factor and the target type's name (the name wrapper may be null). */
  datatype GqlTypeDamage = GqlTypeDamage(damageFactor: int, damageType: Option<string>)

  /** One attacking type with its efficacy list (list and entries may be null). */
  datatype GqlTypeDefinition = GqlTypeDefinition(name: string, typeEfficacies: Option<seq<Option<GqlTypeDamage>>>)

  datatype Relation = DoubleFrom | HalfFrom | NoFrom

  /** The relation a damage factor fills, if any. */
  function RelationOf(factor: int): (r: Option<Relation>)
    ensures r == Some(DoubleFrom) <==> factor == 200
    ensures r == Some(HalfFrom) <==> factor == 50
    ensures r == Some(NoFrom) <==> factor == 0
  {
    if factor == 200 then Some(DoubleFrom)
    else if factor == 50 then Some(HalfFrom)
    else if factor == 0 then Some(NoFrom)
    else None
  }

  /** The type with the given ids added to its three relations. */
  function GrowAll(t: TypeData, dbl: set<int>, half: set<int>, none: set<int>): TypeData {
    t.(doubleDamageFrom := t.doubleDamageFrom + dbl, halfDamageFrom := t.halfDamageFrom + half, noDamageFrom := t.noDamageFrom + none)
  }

  function Grow(t: TypeData, rel: Relation, id: int): TypeData {
    match rel
    case DoubleFrom => t.(doubleDamageFrom := t.doubleDamageFrom + {id})
    case HalfFrom => t.(halfDamageFrom := t.halfDamageFrom + {id})
    case NoFrom => t.(noDamageFrom := t.noDamageFrom + {id})
  }

  /** Whether an efficacy entry fills relation `rel` of the type named `target`. */
  predicate Targets(e: Option<GqlTypeDamage>, target: string, rel: Relation) {
    e.Some? && e.value.damageType == Some(target) && RelationOf(e.value.damageFactor) == Some(rel)
  }

  /**
   * One pass of the inner loop: a null entry, a null target, a target not in
   * the cache or a factor other than 200, 50 and 0 changes nothing; otherwise
   * the attacking id joins exactly the matching relation of the target.
   */
  function ApplyEfficacy(cache: map<string, TypeData>, attackingId: int, e: Option<GqlTypeDamage>): (c: map<string, TypeData>)
    ensures c.Keys == cache.Keys
    ensures forall k :: k in cache ==> c[k] == GrowAll(cache[k],
      if Targets(e, k, DoubleFrom) then {attackingId} else {},
      if Targets(e, k, HalfFrom) then {attackingId} else {},
      if Targets(e, k, NoFrom) then {attackingId} else {})
  {
    if e.None? || e.value.damageType.None? then cache
    else
      var target := e.value.damageType.value;
      if target !in cache then cache
      else match RelationOf(e.value.damageFactor)
        case None => cache
        case Some(rel) => cache[target := Grow(cache[target], rel, attackingId)]
  }

  /** One efficacy entry as the loop body files it, factor by factor. */
  lemma EfficacyStep(cache: map<string, TypeData>, attackingId: int, e: Option<GqlTypeDamage>)
    ensures e.None? || e.value.damageType.None? || e.value.damageType.value !in cache ==>
      ApplyEfficacy(cache, attackingId, e) == cache
    ensures e.Some? && e.value.damageType.Some? && e.value.damageType.value in cache ==>
      var name := e.value.damageType.value;
      var t := cache[name];
      var factor := e.value.damageFactor;
      ApplyEfficacy(cache, attackingId, e) ==
        if factor == 200 then cache[name := t.(doubleDamageFrom := t.doubleDamageFrom + {attackingId})]
        else if factor == 50 then cache[name := t.(halfDamageFrom := t.halfDamageFrom + {attackingId})]
        else if factor == 0 then cache[name := t.(noDamageFrom := t.noDamageFrom + {attackingId})]
        else cache
  {
  }

  /** The inner loop over one attacking type's efficacies, in list order. */
  function ApplyEfficacies(cache: map<string, TypeData>, attackingId: int, es: seq<Option<GqlTypeDamage>>): map<string, TypeData>
    decreases |es|
  {
    if es == [] then cache else ApplyEfficacies(ApplyEfficacy(cache, attackingId, es[0]), attackingId, es[1..])
  }

  /** The body of the outer loop: an attacking type missing from the cache, or without efficacies, is skipped. */
  function ApplyDefinition(cache: map<string, TypeData>, d: GqlTypeDefinition): map<string, TypeData>
  {
    if d.name !in cache || d.typeEfficacies.None? then cache
    else ApplyEfficacies(cache, cache[d.name].id, d.typeEfficacies.value)
  }

  /** The whole nested loop, over the attacking types in list order. */
  function ApplyRelations(cache: map<string, TypeData>, defs: seq<GqlTypeDefinition>): map<string, TypeData>
    decreases |defs|
  {
    if defs == [] then cache else ApplyRelations(ApplyDefinition(cache, defs[0]), defs[1..])
  }

  // ------------------------------------------------------ closed form

  /** The ids one efficacy list adds to relation `rel` of the type named `target`. */
  function EfficacyAdds(attackingId: int, es: seq<Option<GqlTypeDamage>>, target: string, rel: Relation): set<int> {
    if es == [] then {}
    else (if Targets(es[0], target, rel) then {attackingId} else {}) + EfficacyAdds(attackingId, es[1..], target, rel)
  }

  /** The ids one attacking type adds to relation `rel` of the type named `target`, looked up in `cache`. */
  function DefinitionAdds(cache: map<string, TypeData>, d: GqlTypeDefinition, target: string, rel: Relation): set<int> {
    if d.name !in cache || d.typeEfficacies.None? then {}
    else EfficacyAdds(cache[d.name].id, d.typeEfficacies.value, target, rel)
  }

  /** The ids the whole table adds to relation `rel` of the type named `target`. */
  function RelationAdds(cache: map<string, TypeData>, defs: seq<GqlTypeDefinition>, target: string, rel: Relation): set<int> {
    if defs == [] then {}
    else DefinitionAdds(cache, defs[0], target, rel) + RelationAdds(cache, defs[1..], target, rel)
  }

  /** Two caches with the same names mapping to the same ids: all the loop ever looks at. */
  predicate SameShape(c: map<string, TypeData>, c': map<string, TypeData>) {
    c.Keys == c'.Keys && forall k :: k in c ==> c[k].id == c'[k].id && c[k].name == c'[k].name
  }

  lemma {:induction false} EfficaciesClosedForm(cache: map<string, TypeData>, attackingId: int, es: seq<Option<GqlTypeDamage>>)
    ensures var c := ApplyEfficacies(cache, attackingId, es);
      c.Keys == cache.Keys
      && forall k :: k in cache ==> c[k] == GrowAll(cache[k],
           EfficacyAdds(attackingId, es, k, DoubleFrom), EfficacyAdds(attackingId, es, k, HalfFrom),
           EfficacyAdds(attackingId, es, k, NoFrom))
  {
    if es != [] {
      var c1 := ApplyEfficacy(cache, attackingId, es[0]);
      EfficaciesClosedForm(c1, attackingId, es[1..]);
      var c := ApplyEfficacies(cache, attackingId, es);
      assert c == ApplyEfficacies(c1, attackingId, es[1..]);
      forall k | k in cache
        ensures c[k] == GrowAll(cache[k],
           EfficacyAdds(attackingId, es, k, DoubleFrom), EfficacyAdds(attackingId, es, k, HalfFrom),
           EfficacyAdds(attackingId, es, k, NoFrom))
      {
        GrowAllTwice(cache[k],
          if Targets(es[0], k, DoubleFrom) then {attackingId} else {},
          if Targets(es[0], k, HalfFrom) then {attackingId} else {},
          if Targets(es[0], k, NoFrom) then {attackingId} else {},
          EfficacyAdds(attackingId, es[1..], k, DoubleFrom), EfficacyAdds(attackingId, es[1..], k, HalfFrom),
          EfficacyAdds(attackingId, es[1..], k, NoFrom));
      }
    }
  }

  lemma GrowAllTwice(t: TypeData, d1: set<int>, h1: set<int>, n1: set<int>, d2: set<int>, h2: set<int>, n2: set<int>)
    ensures GrowAll(GrowAll(t, d1, h1, n1), d2, h2, n2) == GrowAll(t, d1 + d2, h1 + h2, n1 + n2)
  {
    assert t.doubleDamageFrom + d1 + d2 == t.doubleDamageFrom + (d1 + d2);
    assert t.halfDamageFrom + h1 + h2 == t.halfDamageFrom + (h1 + h2);
    assert t.noDamageFrom + n1 + n2 == t.noDamageFrom + (n1 + n2);
  }

  lemma {:induction false} RelationAddsDependOnShape(c: map<string, TypeData>, c': map<string, TypeData>, defs: seq<GqlTypeDefinition>, target: string, rel: Relation)
    requires SameShape(c, c')
    ensures RelationAdds(c, defs, target, rel) == RelationAdds(c', defs, target, rel)
  {
    if defs != [] {
      RelationAddsDependOnShape(c, c', defs[1..], target, rel);
    }
  }

  /**
   * The nested loop in closed form: the names and ids are kept and each
   * type's relations grow by the ids the table assigns to them, whatever the
   * order of the table.
   */
  lemma {:induction false} RelationsClosedForm(cache: map<string, TypeData>, defs: seq<GqlTypeDefinition>)
    ensures var c := ApplyRelations(cache, defs);
      c.Keys == cache.Keys
      && forall k :: k in cache ==> c[k] == GrowAll(cache[k],
           RelationAdds(cache, defs, k, DoubleFrom), RelationAdds(cache, defs, k, HalfFrom),
           RelationAdds(cache, defs, k, NoFrom))
  {
    if defs != [] {
      var d := defs[0];
      var c1 := ApplyDefinition(cache, d);
      if d.name in cache && d.typeEfficacies.Some? {
        EfficaciesClosedForm(cache, cache[d.name].id, d.typeEfficacies.value);
      }
      assert SameShape(cache, c1);
      RelationsClosedForm(c1, defs[1..]);
      var c := ApplyRelations(cache, defs);
      assert c == ApplyRelations(c1, defs[1..]);
      forall k | k in cache
        ensures c[k] == GrowAll(cache[k],
           RelationAdds(cache, defs, k, DoubleFrom), RelationAdds(cache, defs, k, HalfFrom),
           RelationAdds(cache, defs, k, NoFrom))
      {
        RelationAddsDependOnShape(c1, cache, defs[1..], k, DoubleFrom);
        RelationAddsDependOnShape(c1, cache, defs[1..], k, HalfFrom);
        RelationAddsDependOnShape(c1, cache, defs[1..], k, NoFrom);
        assert c1[k] == GrowAll(cache[k], DefinitionAdds(cache, d, k, DoubleFrom),
          DefinitionAdds(cache, d, k, HalfFrom), DefinitionAdds(cache, d, k, NoFrom)) by {
          if d.name !in cache || d.typeEfficacies.None? {
            assert cache[k] == GrowAll(cache[k], {}, {}, {});
          }
        }
        GrowAllTwice(cache[k], DefinitionAdds(cache, d, k, DoubleFrom),
          DefinitionAdds(cache, d, k, HalfFrom), DefinitionAdds(cache, d, k, NoFrom),
          RelationAdds(cache, defs[1..], k, DoubleFrom), RelationAdds(cache, defs[1..], k, HalfFrom),
          RelationAdds(cache, defs[1..], k, NoFrom));
      }
    }
  }

  /** The names and ids are kept and the relation sets only grow. */
  lemma RelationsOnlyAdd(cache: map<string, TypeData>, defs: seq<GqlTypeDefinition>)
    ensures var c := ApplyRelations(cache, defs);
      SameShape(cache, c)
      && forall k :: k in cache ==>
           cache[k].doubleDamageFrom <= c[k].doubleDamageFrom && cache[k].halfDamageFrom <= c[k].halfDamageFrom
           && cache[k].noDamageFrom <= c[k].noDamageFrom
  {
    RelationsClosedForm(cache, defs);
  }

  /**
   * Re-running the loop on the same table changes nothing: the sets are only
   * ever inserted into, and the second run inserts the same ids again.
   */
  lemma RelationsIdempotent(cache: map<string, TypeData>, defs: seq<GqlTypeDefinition>)
    ensures ApplyRelations(ApplyRelations(cache, defs), defs) == ApplyRelations(cache, defs)
  {
    var once := ApplyRelations(cache, defs);
    RelationsClosedForm(cache, defs);
    RelationsClosedForm(once, defs);
    assert SameShape(cache, once);
    forall rel, k | k in cache
      ensures RelationAdds(once, defs, k, rel) == RelationAdds(cache, defs, k, rel)
    {
      RelationAddsDependOnShape(once, cache, defs, k, rel);
    }
  }

  /**
   * Which ids the table adds: an id joins relation `rel` of `target` exactly
   * when some attacking type found in the cache, with that id, lists an entry
   * for `target` whose factor selects `rel`.
   */
  lemma {:induction false} RelationAddsMembers(cache: map<string, TypeData>, defs: seq<GqlTypeDefinition>, target: string, rel: Relation, id: int)
    ensures id in RelationAdds(cache, defs, target, rel) <==>
      exists i, j :: 0 <= i < |defs| && defs[i].name in cache && cache[defs[i].name].id == id
        && defs[i].typeEfficacies.Some? && 0 <= j < |defs[i].typeEfficacies.value|
        && Targets(defs[i].typeEfficacies.value[j], target, rel)
  {
    if defs != [] {
      RelationAddsMembers(cache, defs[1..], target, rel, id);
      var d := defs[0];
      if d.name in cache && d.typeEfficacies.Some? {
        EfficacyAddsMembers(cache[d.name].id, d.typeEfficacies.value, target, rel, id);
      }
      if id in RelationAdds(cache, defs, target, rel) {
        if id !in DefinitionAdds(cache, d, target, rel) {
          var i, j :| 0 <= i < |defs[1..]| && defs[1..][i].name in cache && cache[defs[1..][i].name].id == id
            && defs[1..][i].typeEfficacies.Some? && 0 <= j < |defs[1..][i].typeEfficacies.value|
            && Targets(defs[1..][i].typeEfficacies.value[j], target, rel);
          assert defs[i + 1] == defs[1..][i];
        }
      } else {
        forall i, j | 0 <= i < |defs| && defs[i].name in cache && cache[defs[i].name].id == id
          && defs[i].typeEfficacies.Some? && 0 <= j < |defs[i].typeEfficacies.value|
          ensures !Targets(defs[i].typeEfficacies.value[j], target, rel)
        {
          if i > 0 {
            assert defs[i] == defs[1..][i - 1];
          }
        }
      }
    }
  }

  lemma {:induction false} EfficacyAddsMembers(attackingId: int, es: seq<Option<GqlTypeDamage>>, target: string, rel: Relation, id: int)
    ensures id in EfficacyAdds(attackingId, es, target, rel) <==>
      id == attackingId && exists j :: 0 <= j < |es| && Targets(es[j], target, rel)
  {
    if es != [] {
      EfficacyAddsMembers(attackingId, es[1..], target, rel, id);
      if id == attackingId && !Targets(es[0], target, rel) && id in EfficacyAdds(attackingId, es[1..], target, rel) {
        var j :| 0 <= j < |es[1..]| && Targets(es[1..][j], target, rel);
        assert es[j + 1] == es[1..][j];
      }
      if id == attackingId && exists j :: 0 <= j < |es| && Targets(es[j], target, rel) {
        var j :| 0 <= j < |es| && Targets(es[j], target, rel);
        if j > 0 {
          assert es[1..][j - 1] == es[j];
        }
      }
    }
  }
}
