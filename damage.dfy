/** The damage estimation model: for every available move, an expected
    damage figure with its STAB flag, type multiplier and priority. All
    multipliers are exact rationals. */
module Damage {
  import opened BattleState

  // ---------------------------------------------------------------------
  // Critical hits

  /** `get_crit_damage_multiplier` */
  function CritDamageMultiplier(gen: int, ability: string): (r: real)
    ensures r > 1.0
  {
    if ability == "sniper" then (if gen >= 6 then 2.25 else 3.0)
    else (if gen >= 6 then 1.5 else 2.0)
  }

  /** The critical-hit stage: the move's ratio, raised by Super Luck and by a
      Scope Lens. */
  function CritStage(m: Move, p: Pokemon): (r: int)
    ensures m.critRatio <= r <= m.critRatio + 2
    ensures p.ability == "" && p.item.None? ==> r == m.critRatio
  {
    m.critRatio
    + (if p.ability != "" && Contains(p.ability, "superluck") then 1 else 0)
    + (if p.item.Some? && p.item.value != "" && Contains(p.item.value, "scopelens") then 1 else 0)
  }

  /** `get_crit_chance`: the generation-keyed tables, with their defaults for
      stages not listed. */
  function CritChance(gen: int, stage: int): (r: real)
    ensures 0.0 < r <= 1.0
  {
    if gen >= 7 then
      (if stage == 0 then 1.0 / 24.0 else if stage == 1 then 1.0 / 8.0 else if stage == 2 then 1.0 / 2.0 else 1.0)
    else if gen == 6 then
      (if stage == 0 then 1.0 / 16.0 else if stage == 1 then 1.0 / 8.0 else if stage == 2 then 1.0 / 2.0 else 1.0)
    else
      (if stage == 0 then 1.0 / 16.0 else if stage == 1 then 1.0 / 8.0 else if stage == 2 then 1.0 / 4.0
       else if stage == 3 then 1.0 / 3.0 else if stage == 4 then 1.0 / 2.0 else 0.5)
  }

  /** The expected-damage factor of critical hits, `1 + p * (m - 1)`. */
  function CritFactor(gen: int, m: Move, p: Pokemon): (r: real)
    ensures r > 1.0
  {
    1.0 + CritChance(gen, CritStage(m, p)) * (CritDamageMultiplier(gen, p.ability) - 1.0)
  }

  // ---------------------------------------------------------------------
  // Type and ability adjustments of the effectiveness

  /** Line 220's type change of Weather Ball. */
  function MoveType(b: Battle, m: Move): (r: PType)
    ensures r != m.ty ==> m.id == "weatherball" && b.weather != NoWeather
    ensures r == m.ty || r in {Fire, Water, Rock, Ice}
  {
    if m.id == "weatherball" then
      if b.weather in {SunnyDay, DesolateLand} then Fire
      else if b.weather in {RainDance, PrimordialSea} then Water
      else if b.weather == Sandstorm then Rock
      else if b.weather == Snow then Ice
      else m.ty
    else m.ty
  }

  /** The variable-power table of lines 216-246. The estimate never reads it:
      power is recomputed from the base power once the move is known to be
      damaging. */
  function ProvisionalPower(b: Battle, m: Move): (r: real)
    ensures m.id in {"return", "frustration"} ==> r == 102.0
    ensures m.id in {"heavyslam", "heatcrash"} ==> r in {40.0, 60.0, 80.0, 100.0, 120.0}
  {
    if m.id == "weatherball" then
      if b.weather in {SunnyDay, DesolateLand, RainDance, PrimordialSea, Sandstorm, Snow} then 100.0
      else m.basePower as real
    else if m.id in {"return", "frustration"} then 102.0
    else if m.id in {"heavyslam", "heatcrash"} then
      if b.opponent.weight != 0.0 && b.active.weight != 0.0 then
        var ratio := b.opponent.weight / b.active.weight;
        if ratio < 0.2 then 120.0
        else if ratio < 0.25 then 100.0
        else if ratio < 1.0 / 3.0 then 80.0
        else if ratio < 0.5 then 60.0
        else 40.0
      else 100.0
    else m.basePower as real
  }

  /** The defending abilities that nullify a move type outright. */
  predicate IsImmune(ability: string, t: PType): (r: bool)
    ensures r ==> t in {Water, Fire, Ground, Electric, Grass}
    ensures ability == "" ==> !r
  {
    || (ability == "dryskin" && t == Water)
    || (ability == "flashfire" && t == Fire)
    || (ability == "levitate" && t == Ground)
    || (ability in {"lightningrod", "motordrive", "voltabsorb"} && t == Electric)
    || (ability == "sapsipper" && t == Grass)
    || (ability in {"stormdrain", "waterabsorb"} && t == Water)
  }

  /** `get_defensive_modifier(ability)`: an immunity returns 0 before any
      reducing or increasing factor is looked at. `raw` is the type
      multiplier before abilities, `hp` the defender's HP fraction. */
  function DefensiveModifier(ability: string, t: PType, m: Move, raw: real, hp: real): (r: real)
    ensures r >= 0.0
    ensures r == 0.0 <==> IsImmune(ability, t)
    ensures !IsImmune(ability, t) && ability !in {"dryskin", "fluffy"} ==> r <= 1.0
  {
    if IsImmune(ability, t) then 0.0
    else
      var m0 := 1.0;
      var m1 := if ability in {"filter", "solidrock", "prismarmor"} && raw > 1.0 then m0 * 0.75 else m0;
      var m2 := if ability == "fluffy" && "contact" in m.flags then m1 * 0.5 else m1;
      var m3 := if ability == "furcoat" && m.category == Physical then m2 * 0.5 else m2;
      var m4 := if ability == "heatproof" && t == Fire then m3 * 0.5 else m3;
      var m5 := if ability == "icescales" && m.category == Special then m4 * 0.5 else m4;
      var m6 := if ability == "multiscale" && hp == 1.0 then m5 * 0.5 else m5;
      var m7 := if ability == "punkrock" && "sound" in m.flags then m6 * 0.5 else m6;
      var m8 := if ability == "purifyingsalt" && t == Ghost then m7 * 0.5 else m7;
      var m9 := if ability == "thickfat" && t in {Fire, Ice} then m8 * 0.5 else m8;
      var m10 := if ability == "waterbubble" && t == Fire then m9 * 0.5 else m9;
      var m11 := if ability == "dryskin" && t == Fire then m10 * 1.25 else m10;
      if ability == "fluffy" && t == Fire then m11 * 2.0 else m11
  }

  /** The worst case over the possible abilities, as the loop computes it:
      start from 1.0 and take any modifier that is smaller. */
  function WorstFrom(abilities: seq<string>, worst: real, t: PType, m: Move, raw: real, hp: real): real
    decreases |abilities|
  {
    if abilities == [] then worst
    else
      var md := DefensiveModifier(abilities[0], t, m, raw, hp);
      WorstFrom(abilities[1..], if md < worst then md else worst, t, m, raw, hp)
  }

  function WorstCase(abilities: seq<string>, t: PType, m: Move, raw: real, hp: real): (r: real)
    ensures 0.0 <= r <= 1.0
  {
    WorstFromBounds(abilities, 1.0, t, m, raw, hp);
    WorstFrom(abilities, 1.0, t, m, raw, hp)
  }

  /** The worst case never exceeds the starting value or any ability's
      modifier, and is one of them. */
  lemma {:induction false} WorstFromBounds(abilities: seq<string>, worst: real, t: PType, m: Move, raw: real, hp: real)
    ensures WorstFrom(abilities, worst, t, m, raw, hp) <= worst
    ensures forall a :: a in abilities ==> WorstFrom(abilities, worst, t, m, raw, hp) <= DefensiveModifier(a, t, m, raw, hp)
    ensures WorstFrom(abilities, worst, t, m, raw, hp) == worst
         || exists a :: a in abilities && WorstFrom(abilities, worst, t, m, raw, hp) == DefensiveModifier(a, t, m, raw, hp)
    decreases |abilities|
  {
    if abilities != [] {
      var md := DefensiveModifier(abilities[0], t, m, raw, hp);
      WorstFromBounds(abilities[1..], if md < worst then md else worst, t, m, raw, hp);
    }
  }

  /** With an unknown ability the applied factor is min(1.0, every possible
      ability's modifier): never above 1, never below 0, and a possible
      immunity makes it 0. */
  lemma WorstCaseIsMinimum(abilities: seq<string>, t: PType, m: Move, raw: real, hp: real)
    ensures 0.0 <= WorstCase(abilities, t, m, raw, hp) <= 1.0
    ensures forall a :: a in abilities ==> WorstCase(abilities, t, m, raw, hp) <= DefensiveModifier(a, t, m, raw, hp)
    ensures WorstCase(abilities, t, m, raw, hp) == 1.0
         || exists a :: a in abilities && WorstCase(abilities, t, m, raw, hp) == DefensiveModifier(a, t, m, raw, hp)
    ensures (exists a :: a in abilities && IsImmune(a, t)) ==> WorstCase(abilities, t, m, raw, hp) == 0.0
  {
    WorstFromBounds(abilities, 1.0, t, m, raw, hp);
  }

  /** Lines 278-286 as the engine runs them. */
  method WorstCaseModifier(abilities: seq<string>, t: PType, m: Move, raw: real, hp: real) returns (worst: real)
    ensures worst == WorstCase(abilities, t, m, raw, hp)
  {
    worst := 1.0;
    var i := 0;
    while i < |abilities|
      invariant 0 <= i <= |abilities|
      invariant WorstFrom(abilities[i..], worst, t, m, raw, hp) == WorstCase(abilities, t, m, raw, hp)
    {
      assert abilities[i..][1..] == abilities[i + 1..];
      var modifier := DefensiveModifier(abilities[i], t, m, raw, hp);
      if modifier < worst {
        worst := modifier;
      }
      i := i + 1;
    }
  }

  /** The defender's ability factor: its own modifier when its ability is
      known, the worst case over its possible abilities otherwise. */
  function AbilityFactor(p: Pokemon, t: PType, m: Move, raw: real): (r: real)
    ensures r >= 0.0
    ensures p.ability == "" ==> r <= 1.0
  {
    if p.ability != "" then DefensiveModifier(p.ability, t, m, raw, p.hp)
    else WorstCase(p.possibleAbilities, t, m, raw, p.hp)
  }

  /** The opponent's type multiplier after its (known or worst-case) ability. */
  function DefendedEffectiveness(b: Battle, o: Oracle, m: Move): (r: real)
    ensures o.moveMultiplier(b.opponent, m) >= 0.0 ==> r >= 0.0
  {
    var raw := o.moveMultiplier(b.opponent, m);
    var f := AbilityFactor(b.opponent, MoveType(b, m), m, raw);
    Scale(raw, f)
  }

  /** A factor applied to a multiplier; never negative when both are not. */
  function Scale(x: real, y: real): (r: real)
    ensures x >= 0.0 && y >= 0.0 ==> r >= 0.0
    ensures y == 0.0 ==> r == 0.0
  {
    x * y
  }

  /** Tinted Lens doubles a resisted multiplier and touches nothing else. */
  function TintedLens(ability: string, e: real): (r: real)
    ensures e >= 1.0 ==> r == e
    ensures e >= 0.0 ==> r >= e
    ensures r != e ==> ability == "tintedlens" && e < 1.0 && r == 2.0 * e
  {
    if ability == "tintedlens" && e < 1.0 then e * 2.0 else e
  }

  /** The multiplier after the opponent's ability and our Tinted Lens. */
  function Effectiveness(b: Battle, o: Oracle, m: Move): (r: real)
    ensures o.moveMultiplier(b.opponent, m) >= 0.0 ==> r >= 0.0
  {
    TintedLens(b.active.ability, DefendedEffectiveness(b, o, m))
  }

  /** Freeze-Dry's multiplier: the product over the opponent's types, 2 for
      Water and the type chart's `t.damage_multiplier(ICE)` otherwise. */
  function FreezeDry(o: Oracle, types: seq<PType>): (r: real)
    ensures (forall i :: 0 <= i < |types| ==> types[i] != Water && o.chartMultiplier(types[i], Ice) == 1.0) ==> r == 1.0
  {
    if types == [] then 1.0
    else Scale(FreezeDry(o, types[..|types| - 1]),
               if types[|types| - 1] == Water then 2.0 else o.chartMultiplier(types[|types| - 1], Ice))
  }

  /** Lines 352-361 as the engine runs them. */
  method FreezeDryMultiplier(o: Oracle, types: seq<PType>) returns (effectiveness: real)
    ensures effectiveness == FreezeDry(o, types)
  {
    effectiveness := 1.0;
    for i := 0 to |types|
      invariant effectiveness == FreezeDry(o, types[..i])
    {
      assert types[..i + 1][..i] == types[..i];
      if types[i] == Water {
        effectiveness := effectiveness * 2.0;
      } else {
        effectiveness := effectiveness * o.chartMultiplier(types[i], Ice);
      }
    }
    assert types[..|types|] == types;
  }

  // ---------------------------------------------------------------------
  // Power

  /** STAB: Adaptability's 2x replaces the usual 1.5x. */
  function StabBonus(ability: string, isStab: bool): (r: real)
    ensures r in {1.0, 1.5, 2.0}
    ensures r == 1.0 <==> !isStab
    ensures r == 2.0 <==> isStab && ability == "adaptability"
  {
    if ability == "adaptability" && isStab then 2.0 else if isStab then 1.5 else 1.0
  }

  /** The attacker-ability chain of lines 305-329: the first matching branch
      gives the one multiplier applied. */
  function AttackerAbilityBoost(b: Battle, lastMove: Option<string>, m: Move, t: PType): (r: real)
    ensures r >= 1.0
  {
    var a := b.active.ability;
    var lowHp := b.active.hp <= 1.0 / 3.0;
    if a == "aerilate" && t == Normal then 1.2
    else if a == "analytic" && b.turn > 1 && lastMove == Some(m.id) then 1.3
    else if a == "blaze" && lowHp && t == Fire then 1.5
    else if a == "darkaura" then 1.33
    else if a == "fairyaura" then 1.33
    else if a == "flareboost" && b.active.status == Brn && m.category == Special then 1.5
    else if a == "guts" && b.active.status != NoStatus && m.category == Physical then 1.5
    else if a == "ironfist" && "punch" in m.flags then 1.2
    else if a == "megalauncher" && "pulse" in m.flags then 1.5
    else if a == "overgrow" && lowHp && t == Grass then 1.5
    else if a == "pixilate" && t == Normal then 1.2
    else if a == "punkrock" && "sound" in m.flags then 1.3
    else if a == "reckless" && m.recoil > 0.0 then 1.2
    else if a == "refrigerate" && t == Normal then 1.2
    else if a == "sandforce" && b.weather == Sandstorm && t in {Rock, Ground, Steel} then 1.3
    else if a == "solarpower" && b.weather in {SunnyDay, DesolateLand} && m.category == Special then 1.5
    else if a in {"steelworker", "steelyspirit"} && t == Steel then 1.5
    else if a == "strongjaw" && "bite" in m.flags then 1.5
    else if a == "swarm" && lowHp && t == Bug then 1.5
    else if a == "technician" && m.basePower <= 60 then 1.5
    else if a == "torrent" && lowHp && t == Water then 1.5
    else if a == "toughclaws" && "contact" in m.flags then 1.3
    else if a == "toxicboost" && b.active.status in {Psn, Tox} && m.category == Physical then 1.5
    else if a == "transistor" && t == Electric then 1.3
    else if a == "waterbubble" && t == Water then 2.0
    else 1.0
  }

  /** The abilities the chain knows. */
  const BoostingAbilities: set<string> := {
    "aerilate", "analytic", "blaze", "darkaura", "fairyaura", "flareboost", "guts", "ironfist",
    "megalauncher", "overgrow", "pixilate", "punkrock", "reckless", "refrigerate", "sandforce",
    "solarpower", "steelworker", "steelyspirit", "strongjaw", "swarm", "technician", "torrent",
    "toughclaws", "toxicboost", "transistor", "waterbubble"}

  /** At most one attacker-ability multiplier applies to a move: the factor is
      one of the single multipliers of the chain, never a product of two, and
      an ability outside the chain contributes nothing. */
  lemma AtMostOneAttackerBoost(b: Battle, lastMove: Option<string>, m: Move, t: PType)
    ensures AttackerAbilityBoost(b, lastMove, m, t) in {1.0, 1.2, 1.3, 1.33, 1.5, 2.0}
    ensures b.active.ability !in BoostingAbilities ==> AttackerAbilityBoost(b, lastMove, m, t) == 1.0
  {
  }

  /** Weather and terrain multipliers of lines 332-339 (terrain only for a
      grounded attacker). */
  function WeatherTerrainBoost(b: Battle, m: Move, t: PType): (r: real)
    ensures r > 0.0
  {
    var sun := b.weather in {SunnyDay, DesolateLand};
    var rain := b.weather in {RainDance, PrimordialSea};
    var grounded := Flying !in b.active.types && b.active.ability != "levitate";
    var w0 := 1.0;
    var w1 := if sun && t == Fire then w0 * 1.5 else w0;
    var w2 := if sun && t == Water then w1 * 0.5 else w1;
    var w3 := if rain && t == Water then w2 * 1.5 else w2;
    var w4 := if rain && t == Fire then w3 * 0.5 else w3;
    var w5 := if ElectricTerrain in b.fields && t == Electric && grounded then w4 * 1.3 else w4;
    var w6 := if GrassyTerrain in b.fields && t == Grass && grounded then w5 * 1.3 else w5;
    if PsychicTerrain in b.fields && t == Psychic && grounded then w6 * 1.3 else w6
  }

  /** Burn, screens and the weather-driven defensive multipliers of lines
      342-349. */
  function FinalModifier(b: Battle, m: Move): (r: real)
    ensures 0.0 < r <= 1.0
  {
    var f0 := 1.0;
    var f1 := if b.active.status == Brn && m.category == Physical && b.active.ability != "guts" then f0 * 0.5 else f0;
    var f2 := if Reflect in b.opponentSideConditions && m.category == Physical then f1 * 0.5 else f1;
    var f3 := if LightScreen in b.opponentSideConditions && m.category == Special then f2 * 0.5 else f2;
    var f4 := if b.weather == Sandstorm && Rock in b.opponent.types && m.category == Special && b.gen >= 4
              then f3 / 1.5 else f3;
    if b.weather == Snow && Ice in b.opponent.types && m.category == Physical && b.gen >= 9 then f4 / 1.5 else f4
  }

  // ---------------------------------------------------------------------
  // One move, then the whole map

  /** The power of a damaging move: base power with STAB, the attacker's
      ability and the weather and terrain. */
  function MovePower(b: Battle, lastMove: Option<string>, m: Move, t: PType, isStab: bool): (r: real)
    ensures m.basePower >= 0 ==> r >= 0.0
  {
    var bp, stab := m.basePower as real, StabBonus(b.active.ability, isStab);
    var ab, wt := AttackerAbilityBoost(b, lastMove, m, t), WeatherTerrainBoost(b, m, t);
    Scale(Scale(Scale(bp, stab), ab), wt)
  }

  /** Accuracy times base damage times the critical-hit factor. */
  function ExpectedDamage(b: Battle, lastMove: Option<string>, m: Move, t: PType, isStab: bool, eff: real): (r: real)
    ensures m.accuracy >= 0.0 && m.basePower >= 0 && eff >= 0.0 ==> r >= 0.0
  {
    var power, fm, crit := MovePower(b, lastMove, m, t, isStab), FinalModifier(b, m), CritFactor(b.gen, m, b.active);
    var acc := m.accuracy / 100.0;
    Scale(Scale(acc, Scale(Scale(power, eff), fm)), crit)
  }

  /** The entry `calculate_move_damages` records for one move. */
  function Estimate(b: Battle, o: Oracle, lastMove: Option<string>, m: Move): (r: DamageInfo)
    ensures r.priority == m.priority
    ensures r.stab <==> MoveType(b, m) in b.active.types
    ensures m.category == StatusMove ==> r.expectedDamage == 0.0
  {
    var t := MoveType(b, m);
    var eff := Effectiveness(b, o, m);
    var isStab := t in b.active.types;
    if m.category == StatusMove || eff == 0.0 then DamageInfo(0.0, isStab, eff, m.priority)
    else
      var finalEff := if m.id == "freezedry" then FreezeDry(o, b.opponent.types) else eff;
      DamageInfo(ExpectedDamage(b, lastMove, m, t, isStab, finalEff), isStab, finalEff, m.priority)
  }

  /** The insertion-ordered dictionary a loop over `ms` builds by storing
      `f(m)` under `m.id`. */
  function Tabulate(ms: seq<Move>, f: Move -> DamageInfo): DamageMap {
    if ms == [] then []
    else Put(Tabulate(ms[..|ms| - 1], f), ms[|ms| - 1].id, f(ms[|ms| - 1]))
  }

  function DamageMapOf(b: Battle, o: Oracle, lastMove: Option<string>, ms: seq<Move>): (r: DamageMap)
    ensures DistinctKeys(r)
    ensures forall id :: id in Keys(r) <==> id in MoveIds(ms)
  {
    TabulateKeys(ms, (m: Move) => Estimate(b, o, lastMove, m));
    Tabulate(ms, (m: Move) => Estimate(b, o, lastMove, m))
  }

  /** Lines 251-286: the type multiplier times the known ability's
      modifier, or times the worst case over the possible abilities. */
  method DefendedMultiplier(b: Battle, o: Oracle, m: Move) returns (effectiveness: real)
    ensures effectiveness == DefendedEffectiveness(b, o, m)
  {
    var moveType := MoveType(b, m);
    var raw := o.moveMultiplier(b.opponent, m);
    var factor;
    if b.opponent.ability != "" {
      factor := DefensiveModifier(b.opponent.ability, moveType, m, raw, b.opponent.hp);
    } else {
      factor := WorstCaseModifier(b.opponent.possibleAbilities, moveType, m, raw, b.opponent.hp);
    }
    assert factor == AbilityFactor(b.opponent, moveType, m, raw);
    effectiveness := Scale(raw, factor);
  }

  /** The body of the loop over the available moves, for one move. */
  method EstimateMove(b: Battle, o: Oracle, lastMove: Option<string>, m: Move) returns (d: DamageInfo)
    ensures d == Estimate(b, o, lastMove, m)
  {
    var moveType := MoveType(b, m);
    var effectiveness := DefendedMultiplier(b, o, m);
    if b.active.ability == "tintedlens" && effectiveness < 1.0 {
      effectiveness := effectiveness * 2.0;
    }
    assert effectiveness == Effectiveness(b, o, m);

    var isStab := moveType in b.active.types;
    if m.category == StatusMove || effectiveness == 0.0 {
      return DamageInfo(0.0, isStab, effectiveness, m.priority);
    }
    if m.id == "freezedry" {
      effectiveness := FreezeDryMultiplier(o, b.opponent.types);
    }
    var expectedDamage := ExpectedDamage(b, lastMove, m, moveType, isStab, effectiveness);
    d := DamageInfo(expectedDamage, isStab, effectiveness, m.priority);
  }

  /** `calculate_move_damages(battle)`; `lastMove` is the player's
      remembered last move, read by Analytic. */
  method CalculateMoveDamages(b: Battle, o: Oracle, lastMove: Option<string>) returns (info: DamageMap)
    ensures info == DamageMapOf(b, o, lastMove, b.availableMoves)
    ensures DistinctKeys(info)
    ensures forall id :: id in Keys(info) <==> id in MoveIds(b.availableMoves)
    ensures info == [] <==> b.availableMoves == []
  {
    TabulateKeys(b.availableMoves, (m: Move) => Estimate(b, o, lastMove, m));
    info := [];
    if b.availableMoves == [] {
      return;
    }
    info := EstimateEach(b, o, lastMove, b.availableMoves);
  }

  /** The loop of lines 215-375: one store per move, in order, a repeated id
      overwriting the earlier entry in place. */
  method EstimateEach(b: Battle, o: Oracle, lastMove: Option<string>, moves: seq<Move>) returns (info: DamageMap)
    ensures info == DamageMapOf(b, o, lastMove, moves)
  {
    info := [];
    for i := 0 to |moves|
      invariant info == DamageMapOf(b, o, lastMove, moves[..i])
    {
      assert moves[..i + 1][..i] == moves[..i];
      var d := EstimateMove(b, o, lastMove, moves[i]);
      info := Put(info, moves[i].id, d);
    }
    assert moves[..|moves|] == moves;
  }

  // ---------------------------------------------------------------------
  // Properties of the estimate and of the map

  /** The map has one key per distinct move id, nothing else, and no key
      twice; it is empty exactly when no move is available. */
  lemma {:induction false} TabulateKeys(ms: seq<Move>, f: Move -> DamageInfo)
    ensures DistinctKeys(Tabulate(ms, f))
    ensures forall id :: id in Keys(Tabulate(ms, f)) <==> id in MoveIds(ms)
    ensures Tabulate(ms, f) == [] <==> ms == []
    decreases |ms|
  {
    if ms != [] {
      var init := ms[..|ms| - 1];
      var last := ms[|ms| - 1];
      TabulateKeys(init, f);
      PutKeys(Tabulate(init, f), last.id, f(last));
      PutDistinct(Tabulate(init, f), last.id, f(last));
      MoveIdsSnoc(ms);
    }
  }

  lemma MoveIdsSnoc(ms: seq<Move>)
    requires ms != []
    ensures MoveIds(ms) == MoveIds(ms[..|ms| - 1]) + [ms[|ms| - 1].id]
  {
    assert |MoveIds(ms)| == |MoveIds(ms[..|ms| - 1]) + [ms[|ms| - 1].id]|;
  }

  /** With distinct move ids every move's entry is the value computed for
      that move. */
  lemma {:induction false} TabulateValues(ms: seq<Move>, f: Move -> DamageInfo, k: nat)
    requires NoDup(MoveIds(ms))
    requires k < |ms|
    ensures Lookup(Tabulate(ms, f), ms[k].id) == Some(f(ms[k]))
    decreases |ms|
  {
    var init := ms[..|ms| - 1];
    var last := ms[|ms| - 1];
    var prev := Tabulate(init, f);
    PutKeys(prev, last.id, f(last));
    if k < |ms| - 1 {
      assert MoveIds(init) == MoveIds(ms)[..|ms| - 1];
      assert NoDup(MoveIds(init));
      assert ms[k] == init[k];
      assert MoveIds(ms)[k] != MoveIds(ms)[|ms| - 1];
      TabulateValues(init, f, k);
      PutKeepsOthers(prev, last.id, f(last), ms[k].id);
    }
  }

  /** The damage map of a turn: one entry per available move id, and with
      distinct ids each move's entry is its own estimate. */
  lemma DamageMapShape(b: Battle, o: Oracle, lastMove: Option<string>, k: nat)
    requires NoDup(MoveIds(b.availableMoves))
    requires k < |b.availableMoves|
    ensures DistinctKeys(DamageMapOf(b, o, lastMove, b.availableMoves))
    ensures Keys(DamageMapOf(b, o, lastMove, b.availableMoves)) == MoveIds(b.availableMoves)
    ensures Lookup(DamageMapOf(b, o, lastMove, b.availableMoves), b.availableMoves[k].id)
         == Some(Estimate(b, o, lastMove, b.availableMoves[k]))
  {
    var f := (m: Move) => Estimate(b, o, lastMove, m);
    TabulateValues(b.availableMoves, f, k);
    TabulateKeysInOrder(b.availableMoves, f);
  }

  /** Without repeated ids the keys come in the order of the moves. */
  lemma {:induction false} TabulateKeysInOrder(ms: seq<Move>, f: Move -> DamageInfo)
    requires NoDup(MoveIds(ms))
    ensures Keys(Tabulate(ms, f)) == MoveIds(ms)
    decreases |ms|
  {
    if ms != [] {
      var init := ms[..|ms| - 1];
      var last := ms[|ms| - 1];
      MoveIdsSnoc(ms);
      NoDupSnoc(MoveIds(init), last.id);
      TabulateKeysInOrder(init, f);
      PutKeyOrder(Tabulate(init, f), last.id, f(last));
    }
  }

  /** A status move, or a move the opponent is immune to, is recorded with
      zero expected damage and still carries its STAB flag, multiplier and
      priority. */
  lemma NonDamagingEntry(b: Battle, o: Oracle, lastMove: Option<string>, m: Move)
    requires m.category == StatusMove || Effectiveness(b, o, m) == 0.0
    ensures Estimate(b, o, lastMove, m)
         == DamageInfo(0.0, MoveType(b, m) in b.active.types, Effectiveness(b, o, m), m.priority)
  {
  }

  /** A known immunity zeroes the multiplier whatever the move's type
      multiplier and whatever other factor the ability has. */
  lemma ImmunityZeroes(b: Battle, o: Oracle, lastMove: Option<string>, m: Move)
    requires b.opponent.ability != "" && IsImmune(b.opponent.ability, MoveType(b, m))
    ensures Effectiveness(b, o, m) == 0.0
    ensures Estimate(b, o, lastMove, m).expectedDamage == 0.0
  {
    var raw := o.moveMultiplier(b.opponent, m);
    assert AbilityFactor(b.opponent, MoveType(b, m), m, raw) == 0.0;
    assert DefendedEffectiveness(b, o, m) == 0.0;
  }

  /** With non-negative type multipliers, accuracy and base power, every
      estimate is non-negative. */
  lemma EstimateNonNegative(b: Battle, o: Oracle, lastMove: Option<string>, m: Move)
    requires NonNegative(o)
    requires m.accuracy >= 0.0 && m.basePower >= 0
    ensures Estimate(b, o, lastMove, m).expectedDamage >= 0.0
    ensures Estimate(b, o, lastMove, m).multiplier >= 0.0
  {
    assert o.moveMultiplier(b.opponent, m) >= 0.0;
    FreezeDryNonNegative(o, b.opponent.types);
  }

  lemma {:induction false} FreezeDryNonNegative(o: Oracle, types: seq<PType>)
    requires NonNegative(o)
    ensures FreezeDry(o, types) >= 0.0
    decreases |types|
  {
    if types != [] {
      var init, t := types[..|types| - 1], types[|types| - 1];
      FreezeDryNonNegative(o, init);
      assert o.chartMultiplier(t, Ice) >= 0.0;
    }
  }

  /** A higher non-negative crit stage never lowers the crit chance, so Super
      Luck and Scope Lens only help. */
  lemma CritChanceMonotone(gen: int, lo: int, hi: int)
    requires 0 <= lo <= hi
    ensures CritChance(gen, lo) <= CritChance(gen, hi)
  {
  }
}
