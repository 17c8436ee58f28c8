/**
 * Damage of one attack: the choice of physical or special stats, the base
 * formula, the type multiplier folded over the defender's types, the
 * same-type bonus, the random factor and the immunity and minimum-one rules.
 * Doubles are modelled as exact reals; the random draw is a parameter.
 */
module DamageCalculator {
  import opened Model

  /** Integer.MAX_VALUE and Integer.MIN_VALUE. */
  const MaxInt: int := 0x7FFF_FFFF
  const MinInt: int := -0x8000_0000

  // ---------------------------------------------------------------- stats

  function AsciiLower(c: char): char {
    if 'A' <= c <= 'Z' then (c as int + 32) as char else c
  }

  predicate IsAscii(s: string) {
    forall i :: 0 <= i < |s| ==> s[i] as int < 128
  }

  /**
   * Whether Java's case-insensitive comparison equates `c` with the lower-case
   * ASCII letter `p` (upper-casing both, then lower-casing both). Besides the
   * two ASCII cases, three characters qualify for the letters of "special":
   * U+017F (long s) upper-cases to 'S', U+0131 (dotless i) to 'I', and U+0130
   * (dotted capital I) lower-cases to 'i'.
   */
  predicate SameLetterIgnoringCase(c: char, p: char)
    requires 'a' <= p <= 'z'
  {
    c == p || c as int == p as int - 32
    || (p == 's' && c == 'ſ')
    || (p == 'i' && (c == 'ı' || c == 'İ'))
  }

  /** "special".equalsIgnoreCase(damageClass). */
  predicate IsSpecial(damageClass: string) {
    var word := "special";
    |damageClass| == |word| && forall i :: 0 <= i < |word| ==> SameLetterIgnoringCase(damageClass[i], word[i])
  }

  /** On ASCII text the rule is plain lower-casing: the class is special iff it lower-cases to "special". */
  lemma IsSpecialOnAscii(damageClass: string)
    requires IsAscii(damageClass)
    ensures IsSpecial(damageClass) <==> seq(|damageClass|, i requires 0 <= i < |damageClass| => AsciiLower(damageClass[i])) == "special"
  {
    var lowered := seq(|damageClass|, i requires 0 <= i < |damageClass| => AsciiLower(damageClass[i]));
    if IsSpecial(damageClass) {
      forall i | 0 <= i < |damageClass|
        ensures lowered[i] == "special"[i]
      {
        assert SameLetterIgnoringCase(damageClass[i], "special"[i]);
      }
    }
    if lowered == "special" {
      forall i | 0 <= i < |damageClass|
        ensures SameLetterIgnoringCase(damageClass[i], "special"[i])
      {
        assert AsciiLower(damageClass[i]) == "special"[i];
      }
    }
  }

  /** The offensive stat: special attack for a special move, attack otherwise. */
  function AttackStat(attacker: PokemonData, move: MoveData): (r: int)
    ensures IsSpecial(move.damageClass) ==> r == attacker.baseSpecialAttack
    ensures !IsSpecial(move.damageClass) ==> r == attacker.baseAttack
  {
    if IsSpecial(move.damageClass) then attacker.baseSpecialAttack else attacker.baseAttack
  }

  /** The defensive stat: special defense for a special move, defense otherwise. */
  function DefenseStat(defender: PokemonData, move: MoveData): (r: int)
    ensures IsSpecial(move.damageClass) ==> r == defender.baseSpecialDefense
    ensures !IsSpecial(move.damageClass) ==> r == defender.baseDefense
  {
    if IsSpecial(move.damageClass) then defender.baseSpecialDefense else defender.baseDefense
  }

  // ------------------------------------------------------ type multiplier

  /** Which damage relation of a defending type first mentions the attacking type. */
  datatype Bucket = Double | Half | Immune | Neutral

  /** The first matching relation, checked in the order double, half, none (ids compared, as Java's equality does). */
  function BucketOf(defending: TypeData, attackingId: int): Bucket {
    if attackingId in defending.doubleDamageFrom then Double
    else if attackingId in defending.halfDamageFrom then Half
    else if attackingId in defending.noDamageFrom then Immune
    else Neutral
  }

  /** The running multiplier after one more defending type: doubled, halved, zeroed or kept. */
  function Scaled(x: real, b: Bucket): real {
    match b
    case Double => x * 2.0
    case Half => x * 0.5
    case Immune => x * 0.0
    case Neutral => x
  }

  /** 2 raised to an integer power. */
  function Pow2(k: int): (r: real)
    ensures r > 0.0
    decreases if k < 0 then -k else k
  {
    if k == 0 then 1.0
    else if k > 0 then 2.0 * Pow2(k - 1)
    else Pow2(k + 1) / 2.0
  }

  lemma {:induction false} Pow2Succ(k: int)
    ensures Pow2(k + 1) == 2.0 * Pow2(k)
    decreases if k < 0 then -k else k
  {
    if k < -1 {
      Pow2Succ(k + 1);
    }
  }

  function InBucket(defenders: set<TypeData>, attackingId: int, b: Bucket): set<TypeData> {
    set t | t in defenders && BucketOf(t, attackingId) == b
  }

  /**
   * The type multiplier in closed form: 0 when some defending type is immune,
   * otherwise 2 to the power (doubling types - halving types). It does not
   * depend on the order in which the types are visited.
   */
  function TypeMultiplier(attackingId: int, defenders: set<TypeData>): (r: real)
    ensures r >= 0.0
    ensures r == 0.0 <==> exists t :: t in defenders && BucketOf(t, attackingId) == Immune
  {
    if exists t :: t in defenders && BucketOf(t, attackingId) == Immune then 0.0
    else Pow2(|InBucket(defenders, attackingId, Double)| - |InBucket(defenders, attackingId, Half)|)
  }

  /** Adding a type not yet visited grows exactly its own bucket, by one. */
  lemma InBucketGrows(visited: set<TypeData>, attackingId: int, d: TypeData, b: Bucket)
    requires d !in visited
    ensures BucketOf(d, attackingId) == b ==>
      InBucket(visited + {d}, attackingId, b) == InBucket(visited, attackingId, b) + {d}
      && |InBucket(visited + {d}, attackingId, b)| == |InBucket(visited, attackingId, b)| + 1
    ensures BucketOf(d, attackingId) != b ==>
      InBucket(visited + {d}, attackingId, b) == InBucket(visited, attackingId, b)
  {
    if BucketOf(d, attackingId) == b {
      assert InBucket(visited + {d}, attackingId, b) == InBucket(visited, attackingId, b) + {d};
      assert d !in InBucket(visited, attackingId, b);
    } else {
      assert InBucket(visited + {d}, attackingId, b) == InBucket(visited, attackingId, b);
    }
  }

  /** Visiting one more defending type multiplies the closed form by that type's factor. */
  lemma MultiplierStep(attackingId: int, visited: set<TypeData>, d: TypeData)
    requires d !in visited
    ensures TypeMultiplier(attackingId, visited + {d}) == Scaled(TypeMultiplier(attackingId, visited), BucketOf(d, attackingId))
  {
    if exists t :: t in visited && BucketOf(t, attackingId) == Immune {
      var t :| t in visited && BucketOf(t, attackingId) == Immune;
      assert t in visited + {d};
    } else if BucketOf(d, attackingId) == Immune {
      assert d in visited + {d};
    } else {
      LivingStep(attackingId, visited, d);
    }
  }

  /** MultiplierStep when neither the visited types nor the new one is immune: the exponent moves by the new type's bucket. */
  lemma LivingStep(attackingId: int, visited: set<TypeData>, d: TypeData)
    requires d !in visited && BucketOf(d, attackingId) != Immune
    requires forall t :: t in visited ==> BucketOf(t, attackingId) != Immune
    ensures TypeMultiplier(attackingId, visited + {d}) == Scaled(TypeMultiplier(attackingId, visited), BucketOf(d, attackingId))
  {
    var b := BucketOf(d, attackingId);
    var v' := visited + {d};
    assert forall t :: t in v' ==> BucketOf(t, attackingId) != Immune;
    InBucketGrows(visited, attackingId, d, Double);
    InBucketGrows(visited, attackingId, d, Half);
    var k := |InBucket(visited, attackingId, Double)| - |InBucket(visited, attackingId, Half)|;
    var k' := |InBucket(v', attackingId, Double)| - |InBucket(v', attackingId, Half)|;
    assert TypeMultiplier(attackingId, visited) == Pow2(k);
    assert TypeMultiplier(attackingId, v') == Pow2(k');
    if b == Double {
      assert k' == k + 1;
      Pow2Succ(k);
    } else if b == Half {
      assert k' + 1 == k;
      Pow2Succ(k');
    } else {
      assert k' == k;
    }
  }

  lemma NoTypesMultiplyByOne(attackingId: int)
    ensures TypeMultiplier(attackingId, {}) == 1.0
  {
    assert InBucket({}, attackingId, Double) == {};
    assert InBucket({}, attackingId, Half) == {};
  }

  /** The product of the factors in one particular visiting order, left to right. */
  function ProductInOrder(attackingId: int, defenders: seq<TypeData>): real {
    if defenders == [] then 1.0
    else Scaled(ProductInOrder(attackingId, defenders[..|defenders| - 1]), BucketOf(defenders[|defenders| - 1], attackingId))
  }

  /** Every visiting order of the defending types, each visited once, yields the closed form. */
  lemma {:induction false} ProductIsOrderFree(attackingId: int, defenders: seq<TypeData>)
    requires forall i, j :: 0 <= i < j < |defenders| ==> defenders[i] != defenders[j]
    ensures ProductInOrder(attackingId, defenders) == TypeMultiplier(attackingId, set t | t in defenders)
  {
    if defenders == [] {
      assert (set t | t in defenders) == {};
      NoTypesMultiplyByOne(attackingId);
    } else {
      var n := |defenders| - 1;
      var front := defenders[..n];
      var last := defenders[n];
      DistinctSplit(defenders);
      ProductIsOrderFree(attackingId, front);
      assert ProductInOrder(attackingId, defenders) == Scaled(ProductInOrder(attackingId, front), BucketOf(last, attackingId));
      MultiplierStep(attackingId, (set t | t in front), last);
    }
  }

  /** Splitting the last element off a sequence without repeats: the rest has no repeats and misses it. */
  lemma DistinctSplit<T>(s: seq<T>)
    requires |s| > 0 && forall i, j :: 0 <= i < j < |s| ==> s[i] != s[j]
    ensures var front := s[..|s| - 1];
      (forall i, j :: 0 <= i < j < |front| ==> front[i] != front[j])
      && s[|s| - 1] !in (set t | t in front)
      && (set t | t in s) == (set t | t in front) + {s[|s| - 1]}
  {
    var n := |s| - 1;
    var front := s[..n];
    forall i, j | 0 <= i < j < |front|
      ensures front[i] != front[j]
    {
      assert front[i] == s[i] && front[j] == s[j];
    }
    forall i | 0 <= i < n
      ensures front[i] != s[n]
    {
      assert s[i] != s[n];
    }
    assert s == front + [s[n]];
  }

  /** getTypeEffectiveness: the loop over the defender's types, in whatever order the set yields them. */
  method GetTypeEffectiveness(moveType: TypeData, defenderTypes: set<TypeData>) returns (multiplier: real)
    ensures multiplier == TypeMultiplier(moveType.id, defenderTypes)
  {
    multiplier := 1.0;
    var remaining := defenderTypes;
    ghost var visited: set<TypeData> := {};
    NoTypesMultiplyByOne(moveType.id);
    while remaining != {}
      invariant visited + remaining == defenderTypes && visited !! remaining
      invariant multiplier == TypeMultiplier(moveType.id, visited)
      decreases |remaining|
    {
      var defenderType :| defenderType in remaining;
      MultiplierStep(moveType.id, visited, defenderType);
      if moveType.id in defenderType.doubleDamageFrom {
        multiplier := multiplier * 2.0;
      } else if moveType.id in defenderType.halfDamageFrom {
        multiplier := multiplier * 0.5;
      } else if moveType.id in defenderType.noDamageFrom {
        multiplier := multiplier * 0.0;
      }
      remaining := remaining - {defenderType};
      visited := visited + {defenderType};
    }
  }

  // ------------------------------------------------------------- damage

  /** Whether a set of types contains the given type, compared by id as Java's equality does. */
  predicate HasType(types: set<TypeData>, t: TypeData) {
    exists u :: u in types && u.id == t.id
  }

  /** The same-type attack bonus. */
  function SameTypeBonus(attackerTypes: set<TypeData>, moveType: TypeData): (r: real)
    ensures r == 1.5 || r == 1.0
    ensures r == 1.5 <==> HasType(attackerTypes, moveType)
  {
    if HasType(attackerTypes, moveType) then 1.5 else 1.0
  }

  /** The random factor 0.85 + 0.15 * draw, for a draw of Math.random(). */
  function RandomFactor(draw: real): (r: real)
    requires 0.0 <= draw < 1.0
    ensures 0.85 <= r < 1.0
  {
    0.85 + draw * 0.15
  }

  /** The numerator of the base formula, (2 * level / 5 + 2) * attack * power. */
  function Numerator(attacker: PokemonData, level: int, move: MoveData): real {
    (2.0 * level as real / 5.0 + 2.0) * AttackStat(attacker, move) as real * move.power as real
  }

  /** The base damage, for a non-zero defensive stat. */
  function BaseDamage(attacker: PokemonData, level: int, defender: PokemonData, move: MoveData): real
    requires DefenseStat(defender, move) != 0
  {
    Numerator(attacker, level, move) / DefenseStat(defender, move) as real / 50.0 + 2.0
  }

  /** Base damage times type multiplier, same-type bonus and random factor. */
  function TotalDamage(attacker: PokemonData, level: int, defender: PokemonData, move: MoveData, draw: real): real
    requires DefenseStat(defender, move) != 0 && 0.0 <= draw < 1.0
  {
    BaseDamage(attacker, level, defender, move) * TypeMultiplier(move.moveType.id, defender.types)
    * SameTypeBonus(attacker.types, move.moveType) * RandomFactor(draw)
  }

  function RealMax(a: real, b: real): real {
    if a >= b then a else b
  }

  /** Java's (int) cast of a finite double: truncation toward zero, saturating at the int range. */
  function JavaIntOf(x: real): (r: int)
    ensures MinInt <= r <= MaxInt
    ensures x >= 1.0 && x < MaxInt as real ==> r as real <= x < r as real + 1.0
    ensures x >= MaxInt as real ==> r == MaxInt
  {
    var t := if x >= 0.0 then x.Floor else -((-x).Floor);
    if t > MaxInt then MaxInt else if t < MinInt then MinInt else t
  }

  /**
   * calculateDamage for a given random draw. With a zero defensive stat the
   * Java division yields an infinity or NaN: a positive numerator gives
   * +Infinity, cast to Integer.MAX_VALUE; a negative one -Infinity, raised to
   * 1 by the maximum; a zero one NaN, which the maximum keeps and the cast
   * turns into 0. An immune multiplier gives 0 before any of that matters.
   */
  function Damage(attacker: PokemonData, level: int, defender: PokemonData, move: MoveData, draw: real): (dmg: int)
    requires 0.0 <= draw < 1.0
    ensures 0 <= dmg <= MaxInt
    ensures dmg == 0 <==>
      TypeMultiplier(move.moveType.id, defender.types) == 0.0
      || (DefenseStat(defender, move) == 0 && Numerator(attacker, level, move) == 0.0)
  {
    if TypeMultiplier(move.moveType.id, defender.types) == 0.0 then 0
    else if DefenseStat(defender, move) == 0 then
      var n := Numerator(attacker, level, move);
      if n > 0.0 then MaxInt else if n < 0.0 then 1 else 0
    else
      JavaIntOf(RealMax(1.0, TotalDamage(attacker, level, defender, move, draw)))
  }

  /**
   * Against a non-immune defender with a non-zero defensive stat, the damage is
   * the integer part of max(1, total), saturated at Integer.MAX_VALUE; so it is
   * at least 1.
   */
  lemma DamageIsTruncatedTotal(attacker: PokemonData, level: int, defender: PokemonData, move: MoveData, draw: real)
    requires 0.0 <= draw < 1.0
    requires DefenseStat(defender, move) != 0 && TypeMultiplier(move.moveType.id, defender.types) != 0.0
    ensures var total := RealMax(1.0, TotalDamage(attacker, level, defender, move, draw));
      var dmg := Damage(attacker, level, defender, move, draw);
      1 <= dmg
      && (total < MaxInt as real ==> dmg as real <= total < dmg as real + 1.0)
      && (total >= MaxInt as real ==> dmg == MaxInt)
  {
  }

  /** calculateDamage: the service reads nothing but its three arguments and the draw. */
  method CalculateDamage(attacker: PlayerPokemon, defender: PlayerPokemon, move: MoveData, draw: real)
    returns (dmg: int)
    requires 0.0 <= draw < 1.0
    ensures dmg == Damage(attacker.basePokemon, attacker.level, defender.basePokemon, move, draw)
  {
    var isSpecial := IsSpecial(move.damageClass);
    var attackStat := if isSpecial then attacker.basePokemon.baseSpecialAttack else attacker.basePokemon.baseAttack;
    var defenseStat := if isSpecial then defender.basePokemon.baseSpecialDefense else defender.basePokemon.baseDefense;
    var numerator := (2.0 * attacker.level as real / 5.0 + 2.0) * attackStat as real * move.power as real;
    var typeMultiplier := GetTypeEffectiveness(move.moveType, defender.basePokemon.types);
    var stabMultiplier := 1.0;
    if HasType(attacker.basePokemon.types, move.moveType) {
      stabMultiplier := 1.5;
    }
    var randomMultiplier := 0.85 + draw * 0.15;
    assert numerator == Numerator(attacker.basePokemon, attacker.level, move);
    assert stabMultiplier == SameTypeBonus(attacker.basePokemon.types, move.moveType);
    assert randomMultiplier == RandomFactor(draw);
    if typeMultiplier == 0.0 {
      return 0;
    }
    if defenseStat == 0 {
      dmg := if numerator > 0.0 then MaxInt else if numerator < 0.0 then 1 else 0;
    } else {
      var baseDamage := numerator / defenseStat as real / 50.0 + 2.0;
      var totalDamage := baseDamage * typeMultiplier * stabMultiplier * randomMultiplier;
      assert baseDamage == BaseDamage(attacker.basePokemon, attacker.level, defender.basePokemon, move);
      assert totalDamage == TotalDamage(attacker.basePokemon, attacker.level, defender.basePokemon, move, draw);
      dmg := JavaIntOf(RealMax(1.0, totalDamage));
    }
  }
}
