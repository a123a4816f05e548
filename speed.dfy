/** The turn-order resolver: each side's effective speed and whether our
    active Pokémon is expected to move first. */
module TurnOrder {
  import opened BattleState

  /** The stage multiplier for a speed boost: (2+b)/2 above zero, 2/(2-b)
      below. Stages are not clamped to [-6, 6]. */
  function BoostFactor(boost: int): (r: real)
    ensures r > 0.0
    ensures r == 1.0 <==> boost == 0
  {
    if boost > 0 then (2 + boost) as real / 2.0
    else if boost < 0 then 2.0 / (2 - boost) as real
    else 1.0
  }

  /** A stat at a stage. */
  function Boosted(stat: real, boost: int): real {
    stat * BoostFactor(boost)
  }

  /** The speed stat with its stage, the weather-driven abilities and Slow
      Start, before paralysis and Tailwind. */
  function BaseSpeed(b: Battle, p: Pokemon): (r: real)
    ensures r > 0.0 <==> p.speStat > 0.0
    ensures r == 0.0 <==> p.speStat == 0.0
  {
    var s0 := Boosted(p.speStat, Boost(p, Spe));
    var s1 := if p.ability == "slushrush" && b.weather in {Hail, Snow} then s0 * 2.0 else s0;
    var s2 := if p.ability == "swiftswim" && b.weather in {RainDance, PrimordialSea} then s1 * 2.0 else s1;
    var s3 := if p.ability == "chlorophyll" && b.weather in {SunnyDay, DesolateLand} then s2 * 2.0 else s2;
    if p.ability == "slowstart" && p.turnCount < 5 then s3 * 0.5 else s3
  }

  /** Paralysis: half speed from generation 7 on, a quarter before. */
  function ParalysisFactor(gen: int): real {
    if gen >= 7 then 0.5 else 0.25
  }

  /** `calculate_speed(pokemon, side_conditions)` */
  function CalculateSpeed(b: Battle, p: Pokemon, side: map<SideCondition, int>): (r: real)
    ensures r > 0.0 <==> p.speStat > 0.0
    ensures r == 0.0 <==> p.speStat == 0.0
  {
    var s4 := BaseSpeed(b, p);
    var s5 := if p.status == Par then s4 * ParalysisFactor(b.gen) else s4;
    if Tailwind in side then s5 * 2.0 else s5
  }

  function MySpeed(b: Battle): real {
    CalculateSpeed(b, b.active, b.sideConditions)
  }

  function OpponentSpeed(b: Battle): real {
    CalculateSpeed(b, b.opponent, b.opponentSideConditions)
  }

  /** `determine_who_moves_first`: under Trick Room the slower side moves
      first, otherwise the faster one. */
  function MovesFirst(b: Battle): (r: bool)
    ensures r ==> MySpeed(b) != OpponentSpeed(b)
    ensures r ==> (TrickRoom in b.fields <==> MySpeed(b) < OpponentSpeed(b))
  {
    if TrickRoom in b.fields then MySpeed(b) < OpponentSpeed(b) else MySpeed(b) > OpponentSpeed(b)
  }

  // ---------------------------------------------------------------------

  /** A positive stage speeds up, a negative one slows down, zero is neutral,
      and opposite stages cancel. */
  lemma BoostFactorShape(boost: int)
    ensures BoostFactor(boost) > 0.0
    ensures BoostFactor(boost) > 1.0 <==> boost > 0
    ensures BoostFactor(boost) < 1.0 <==> boost < 0
    ensures BoostFactor(boost) * BoostFactor(-boost) == 1.0
  {
    if boost > 0 {
      var n := (2 + boost) as real;
      assert BoostFactor(-boost) == 2.0 / n;
      assert (n / 2.0) * (2.0 / n) == 1.0;
    } else if boost < 0 {
      var n := (2 - boost) as real;
      assert BoostFactor(-boost) == n / 2.0;
      assert (2.0 / n) * (n / 2.0) == 1.0;
    }
  }

  /** Two over a larger positive number is smaller. */
  lemma HalvingMonotone(c: real, a: real)
    requires 0.0 < c <= a
    ensures 2.0 / a <= 2.0 / c
  {
    var x, y := 2.0 / a, 2.0 / c;
    assert x * a == y * c;
    assert y * c <= y * a;
    assert x * a <= y * a;
  }

  /** A higher stage never gives a lower multiplier. */
  lemma BoostFactorMonotone(lo: int, hi: int)
    requires lo <= hi
    ensures BoostFactor(lo) <= BoostFactor(hi)
  {
    BoostFactorShape(lo);
    BoostFactorShape(hi);
    if hi < 0 {
      HalvingMonotone((2 - hi) as real, (2 - lo) as real);
    } else if lo > 0 {
      assert (2 + lo) as real <= (2 + hi) as real;
    }
  }

  /** Paralysis halves speed from generation 7 on and quarters it before. */
  lemma ParalysisScales(b: Battle, p: Pokemon, side: map<SideCondition, int>)
    requires p.status != Par
    ensures CalculateSpeed(b, p.(status := Par), side)
         == CalculateSpeed(b, p, side) * (if b.gen >= 7 then 0.5 else 0.25)
  {
    var x := BaseSpeed(b, p);
    var f := ParalysisFactor(b.gen);
    BaseSpeedIgnoresStatus(b, p, Par);
    assert x * f * 2.0 == x * 2.0 * f;
  }

  /** The status enters the formula only through the paralysis factor. */
  lemma BaseSpeedIgnoresStatus(b: Battle, p: Pokemon, s: Status)
    ensures BaseSpeed(b, p.(status := s)) == BaseSpeed(b, p)
  {
  }

  /** Tailwind on a side doubles that side's speed. */
  lemma TailwindDoubles(b: Battle, p: Pokemon, side: map<SideCondition, int>, turns: int)
    requires Tailwind !in side
    ensures CalculateSpeed(b, p, side[Tailwind := turns]) == 2.0 * CalculateSpeed(b, p, side)
  {
  }

  /** Equal effective speeds never count as moving first, with or without
      Trick Room. */
  lemma TieIsNotFirst(b: Battle)
    requires MySpeed(b) == OpponentSpeed(b)
    ensures !MovesFirst(b)
  {
  }

  /** When the speeds differ, Trick Room reverses the prediction. */
  lemma TrickRoomInverts(b: Battle)
    requires MySpeed(b) != OpponentSpeed(b)
    ensures MovesFirst(b.(fields := b.fields + {TrickRoom}))
        == !MovesFirst(b.(fields := b.fields - {TrickRoom}))
  {
    var on, off := b.(fields := b.fields + {TrickRoom}), b.(fields := b.fields - {TrickRoom});
    SpeedIgnoresFields(b, on);
    SpeedIgnoresFields(b, off);
  }

  /** Field effects do not enter the speed formula. */
  lemma SpeedIgnoresFields(b: Battle, b': Battle)
    requires b' == b.(fields := b'.fields)
    ensures MySpeed(b') == MySpeed(b) && OpponentSpeed(b') == OpponentSpeed(b)
  {
    SpeedReadsWeatherAndGen(b, b', b.active, b.sideConditions);
    SpeedReadsWeatherAndGen(b, b', b.opponent, b.opponentSideConditions);
  }

  /** Of the battle, the speed formula reads only the weather and the
      generation. */
  lemma SpeedReadsWeatherAndGen(b: Battle, b': Battle, p: Pokemon, side: map<SideCondition, int>)
    requires b'.weather == b.weather && b'.gen == b.gen
    ensures CalculateSpeed(b', p, side) == CalculateSpeed(b, p, side)
  {
    assert BaseSpeed(b', p) == BaseSpeed(b, p);
  }
}
