/** `filter_suboptimal_moves`: the rule-by-rule pruning of the candidate
    actions. Most rules remove named moves from the working list; a few end
    the filter early with a list of their own (the viable switches, the
    switch actions of the working list, or the working list as it stands). */
module MoveFilter {
  import opened BattleState
  import opened ActionLists
  import opened SwitchFilter
  import opened Overrides

  /** What a rule that may end the filter hands on: the list the remaining
      rules work on, or the filter's answer. */
  datatype Stage = Continue(actions: seq<string>) | Return(actions: seq<string>)

  const HealingMoves: seq<string> :=
    ["healorder", "milkdrink", "moonlight", "morningsun", "recover", "rest",
     "roost", "shoreup", "slackoff", "softboiled", "swallow", "synthesis"]

  /** The moves the repeat guards of rule 2 may drop. */
  const ConditionMoves: seq<string> :=
    ["stealthrock", "spikes", "toxicspikes", "stickyweb", "reflect", "lightscreen",
     "auroraveil", "tailwind", "trickroom"]

  const HazardClearers: seq<string> := ["rapidspin", "mortalspin", "defog"]

  const Hazards: set<SideCondition> := {StealthRock, Spikes, ToxicSpikes, StickyWeb}

  /** The moves the boost guards of rule 4 may drop. */
  const SingleStatSetupMoves: seq<string> :=
    ["swordsdance", "nastyplot", "irondefense", "acidarmor", "amnesia", "agility", "rockpolish"]

  const MultiStatSetupMoves: seq<string> := ["bulkup", "coil", "dragondance", "calmmind", "quiverdance"]

  const SleepMoves: seq<string> :=
    ["darkvoid", "grasswhistle", "hypnosis", "lovelykiss", "sing", "sleeppowder", "spore", "yawn"]

  const TrappingEffects: set<Effect> :=
    {Bind, Clamp, FireSpin, Infestation, SandTomb, SnapTrap, ThunderCage, Whirlpool, Wrap}

  const TrappingMoves: seq<string> :=
    ["bind", "clamp", "firespin", "infestation", "sandtomb", "snaptrap", "thundercage", "whirlpool", "wrap"]

  /** The moves rule 9 may drop. */
  const RepeatEffectMoves: seq<string> := ["taunt", "encore", "leechseed"] + TrappingMoves

  const ItemSwapMoves: seq<string> := ["trick", "switcheroo"]

  const StatusMoves: seq<string> :=
    ["glare", "poisonpowder", "poisongas", "stunspore", "thunderwave", "toxic", "willowisp",
     "darkvoid", "grasswhistle", "hypnosis", "lovelykiss", "sing", "sleeppowder", "spore", "yawn"]

  /** The moves the type checks of rule 13 may drop. */
  const TypeImmunityMoves: seq<string> := ["thunderwave", "willowisp", "toxic", "poisonpowder", "leechseed"]

  const PowderMoves: seq<string> := ["poisonpowder", "sleeppowder", "spore", "stunspore"]

  const ParalysisMoves: seq<string> := ["thunderwave", "glare", "nuzzle"]

  const PivotMoves: seq<string> := ["batonpass", "teleport", "flipturn", "voltswitch"]

  const ProtectMoves: seq<string> :=
    ["protect", "detect", "spikyshield", "kingsshield", "banefulbunker", "obstruct", "burningbulwark", "silktrap"]

  /** The moves rule 18 may drop. */
  const WeatherMoves: seq<string> := ["solarbeam", "solarblade", "electroshot", "auroraveil", "weatherball"]

  const RechargeMoves: seq<string> :=
    ["hyperbeam", "gigaimpact", "rockwrecker", "frenzyplant", "blastburn", "hydrocannon", "roaroftime", "eternabeam"]

  const SelfKoMoves: seq<string> := ["explosion", "selfdestruct", "mistyexplosion"]

  const ClericMoves: seq<string> := ["healbell", "aromatherapy"]

  /** The moves the closing rules 29-36 may drop. */
  const LateMoves: seq<string> := ["yawn"] + SelfKoMoves + ClericMoves + ["trickroom"]

  // ---------------------------------------------------------------------
  // The rules, one function each, on the working list `s`

  /** `if c and x in s: s.remove(x)` */
  function RemoveWhen(c: bool, s: seq<string>, x: string): (r: seq<string>)
    ensures forall y :: y in r ==> y in s
    ensures forall y :: y in s && y !in r ==> y == x
    ensures !c ==> r == s
  {
    if c then Remove(s, x) else s
  }

  /** `if c: for x in names: if x in s: s.remove(x)` */
  function RemoveEachWhen(c: bool, s: seq<string>, names: seq<string>): (r: seq<string>)
    ensures forall y :: y in r ==> y in s
    ensures forall y :: y in s && y !in r ==> y in names
    ensures !c ==> r == s
  {
    if c then RemoveEach(s, names) else s
  }

  /** Rule 1: no healing at two thirds of HP or more. */
  function HealingRule(b: Battle, s: seq<string>): (r: seq<string>)
    ensures Prunes(r, s, HealingMoves)
    ensures b.active.hp < 0.66 ==> r == s
  {
    RemoveEachWhen(b.active.hp >= 0.66, s, HealingMoves)
  }

  /** Rule 2: no hazard, screen, Tailwind or Trick Room that is already up;
      Spikes stack to three and Toxic Spikes to two. */
  function ConditionRule(b: Battle, s: seq<string>): (r: seq<string>)
    ensures Prunes(r, s, ConditionMoves)
  {
    OwnConditionRule(b, OpponentHazardRule(b, s))
  }

  /** Rule 2 on the opponent's side: the entry hazards. */
  function OpponentHazardRule(b: Battle, s: seq<string>): (r: seq<string>)
    ensures Prunes(r, s, ["stealthrock", "spikes", "toxicspikes", "stickyweb"])
  {
    var opp := b.opponentSideConditions;
    var s1 := RemoveWhen(StealthRock in opp, s, "stealthrock");
    var s2 := RemoveWhen(Count(opp, Spikes) >= 3, s1, "spikes");
    var s3 := RemoveWhen(Count(opp, ToxicSpikes) >= 2, s2, "toxicspikes");
    RemoveWhen(StickyWeb in opp, s3, "stickyweb")
  }

  /** Rule 2 on our side and the field: screens, Tailwind, Trick Room. */
  function OwnConditionRule(b: Battle, s: seq<string>): (r: seq<string>)
    ensures Prunes(r, s, ["reflect", "lightscreen", "auroraveil", "tailwind", "trickroom"])
  {
    var mine := b.sideConditions;
    var s1 := RemoveWhen(Reflect in mine, s, "reflect");
    var s2 := RemoveWhen(LightScreen in mine, s1, "lightscreen");
    var s3 := RemoveWhen(AuroraVeil in mine, s2, "auroraveil");
    var s4 := RemoveWhen(Tailwind in mine, s3, "tailwind");
    RemoveWhen(TrickRoom in b.fields, s4, "trickroom")
  }

  predicate MySideHazards(b: Battle) {
    exists c :: c in b.sideConditions && c in Hazards
  }

  /** `any(opponent_side_conditions.values())` */
  predicate OpponentSideActive(b: Battle) {
    exists c :: c in b.opponentSideConditions && b.opponentSideConditions[c] != 0
  }

  /** Rule 3: with no hazard on our side, no Rapid Spin or Mortal Spin, and
      no Defog unless some opponent side condition is up. */
  function HazardClearRule(b: Battle, s: seq<string>): (r: seq<string>)
    ensures Prunes(r, s, HazardClearers)
    ensures MySideHazards(b) ==> r == s
  {
    if MySideHazards(b) then s
    else
      var s1 := RemoveEach(s, ["rapidspin", "mortalspin"]);
      RemoveWhen("defog" in s1 && !OpponentSideActive(b), s1, "defog")
  }

  /** Rule 4, single-stat moves: none once its stat is at +2. */
  function SingleStatSetupRule(b: Battle, s: seq<string>): (r: seq<string>)
    ensures Prunes(r, s, SingleStatSetupMoves)
  {
    var p := b.active;
    var s1 := RemoveWhen(Boost(p, Atk) >= 2, s, "swordsdance");
    var s2 := RemoveWhen(Boost(p, Spa) >= 2, s1, "nastyplot");
    var s3 := RemoveEachWhen(Boost(p, Def) >= 2, s2, ["irondefense", "acidarmor"]);
    var s4 := RemoveWhen(Boost(p, Spd) >= 2, s3, "amnesia");
    RemoveEachWhen(Boost(p, Spe) >= 2, s4, ["agility", "rockpolish"])
  }

  /** Rule 4, multi-stat moves: none once every stat it raises is up. */
  function MultiStatSetupRule(b: Battle, s: seq<string>): (r: seq<string>)
    ensures Prunes(r, s, MultiStatSetupMoves)
  {
    var p := b.active;
    var s1 := RemoveEachWhen(Boost(p, Atk) >= 1 && Boost(p, Def) >= 1, s, ["bulkup", "coil"]);
    var s2 := RemoveWhen(Boost(p, Atk) >= 1 && Boost(p, Spe) >= 1, s1, "dragondance");
    var s3 := RemoveWhen(Boost(p, Spa) >= 1 && Boost(p, Spd) >= 1, s2, "calmmind");
    RemoveWhen(Boost(p, Spa) >= 1 && Boost(p, Spd) >= 1 && Boost(p, Spe) >= 1, s3, "quiverdance")
  }

  /** Rule 4, special cases: Shell Smash once an attacking stat and speed
      are at +2, and Curse (for a non-Ghost) once attack and defence are up. */
  function SpecialSetupRule(b: Battle, s: seq<string>): (r: seq<string>)
    ensures Prunes(r, s, ["shellsmash", "curse"])
  {
    var p := b.active;
    var s1 := RemoveWhen((Boost(p, Atk) >= 2 || Boost(p, Spa) >= 2) && Boost(p, Spe) >= 2, s, "shellsmash");
    RemoveWhen(Ghost !in p.types && Boost(p, Atk) >= 1 && Boost(p, Def) >= 1, s1, "curse")
  }

  /** Rules 5, 15, 26 and 27 end on the viable switch actions. */
  function ViableSwitchActions(b: Battle, o: Oracle): (r: seq<string>)
    ensures forall y :: y in r ==> y in AllSwitchIds(b)
  {
    ViableSwitches(b, o, AllSwitchIds(b))
  }

  /** Rule 5: locked into a single move the opponent resists, switch to a
      viable Pokémon, or keep the list when none is viable. */
  function LockedMoveRule(b: Battle, o: Oracle, s: seq<string>): (r: Stage)
    ensures r.Continue? ==> r.actions == s
    ensures forall y :: y in r.actions ==> y in s || y in AllSwitchIds(b)
  {
    if |b.availableMoves| == 1 && o.moveMultiplier(b.opponent, b.availableMoves[0]) < 1.0 then
      var viable := ViableSwitchActions(b, o);
      if viable == [] then Return(s) else Return(viable)
    else Continue(s)
  }

  /** The expected-damage tests of rules 6 and 7. */
  datatype Cutoff = Immune | Feeble

  predicate Meets(c: Cutoff, damage: real) {
    match c
    case Immune => damage == 0.0
    case Feeble => damage <= 0.5
  }

  /** `id` names an available move that is not a status move. */
  predicate IsAttack(moves: seq<Move>, id: string) {
    match FindMove(moves, id)
    case None => false
    case Some(m) => m.category != StatusMove
  }

  /** Rules 6 and 7: walking the damage map in order, drop every available
      attack whose expected damage meets the cutoff. */
  function DropAttacks(s: seq<string>, dm: DamageMap, moves: seq<Move>, c: Cutoff): (r: seq<string>)
    ensures forall y :: y in r ==> y in s
    ensures forall y :: !IsAttack(moves, y) ==> (y in r <==> y in s)
    decreases |dm|
  {
    if dm == [] then s
    else
      var e := dm[0];
      var s1 := if Meets(c, e.info.expectedDamage) && IsAttack(moves, e.id) then Remove(s, e.id) else s;
      DropAttacks(s1, dm[1..], moves, c)
  }

  predicate OpponentTeamAsleep(b: Battle) {
    exists p :: p in b.opponentTeam && p.status == Slp
  }

  /** Rule 8: one sleeping opponent at a time (the sleep clause). */
  function SleepClauseRule(b: Battle, s: seq<string>): (r: seq<string>)
    ensures Prunes(r, s, SleepMoves)
  {
    RemoveEachWhen(OpponentTeamAsleep(b), s, SleepMoves)
  }

  /** Rule 9: do not repeat Taunt, Encore, Leech Seed or a trapping move
      that is already on the opponent. */
  function RepeatEffectRule(b: Battle, s: seq<string>): (r: seq<string>)
    ensures Prunes(r, s, RepeatEffectMoves)
  {
    var fx := b.opponent.effects;
    var s1 := RemoveWhen(Taunt in fx, s, "taunt");
    var s2 := RemoveWhen(Encore in fx, s1, "encore");
    var s3 := RemoveWhen(LeechSeed in fx, s2, "leechseed");
    RemoveEachWhen(OpponentTrapped(b), s3, TrappingMoves)
  }

  /** `any(effect in opponent.effects for effect in trapping_effects)` */
  predicate OpponentTrapped(b: Battle) {
    exists e :: e in b.opponent.effects && e in TrappingEffects
  }

  /** Rule 10. Asleep for at most one more turn: Sleep Talk, when it is among
      the original legal actions, plus the switch actions, and the filter goes
      on; otherwise an asleep Pokémon may only switch. Awake: no Sleep Talk. */
  function SleepRule(b: Battle, legal: seq<string>, s: seq<string>): (r: Stage)
    ensures forall y :: y in r.actions ==> y in s || (y == "sleeptalk" && y in legal)
    ensures b.active.status != Slp ==> r == Continue(Remove(s, "sleeptalk"))
    ensures b.active.status == Slp ==> forall y :: y in r.actions ==> IsSwitch(y) || y == "sleeptalk"
  {
    if b.active.status == Slp then
      if b.active.statusCounter <= 1 && "sleeptalk" in legal then Continue(["sleeptalk"] + SwitchesOf(s))
      else Return(SwitchesOf(s))
    else Continue(Remove(s, "sleeptalk"))
  }

  /** Rule 11: no Trick or Switcheroo without an item of our own or against
      Sticky Hold. */
  function ItemSwapRule(b: Battle, s: seq<string>): (r: seq<string>)
    ensures Prunes(r, s, ItemSwapMoves)
  {
    RemoveEachWhen(("trick" in s || "switcheroo" in s)
                   && (b.active.item.None? || (b.opponent.ability != "" && Contains(b.opponent.ability, "sticky-hold"))),
                   s, ItemSwapMoves)
  }

  /** Rule 13, first part: no status move against a statused opponent. */
  function AlreadyStatusedRule(b: Battle, s: seq<string>): (r: seq<string>)
    ensures Prunes(r, s, StatusMoves)
    ensures b.opponent.status == NoStatus ==> r == s
  {
    RemoveEachWhen(b.opponent.status != NoStatus, s, StatusMoves)
  }

  /** Rule 13, second part: no status move the opponent's types make it
      immune to (Corrosion still poisons Poison and Steel types). */
  function TypeImmunityRule(b: Battle, s: seq<string>): (r: seq<string>)
    ensures Prunes(r, s, TypeImmunityMoves)
  {
    var foe := b.opponent;
    var s1 := RemoveWhen(Electric in foe.types && b.gen >= 6, s, "thunderwave");
    var s2 := RemoveWhen(Fire in foe.types, s1, "willowisp");
    var s3 := RemoveEachWhen((Poison in foe.types || Steel in foe.types) && b.active.ability != "corrosion",
                             s2, ["toxic", "poisonpowder"]);
    RemoveWhen(Grass in foe.types, s3, "leechseed")
  }

  /** The opponent abilities rule 13.5 considers: the known one, or every
      possible one. */
  function CandidateAbilities(foe: Pokemon): seq<string> {
    if foe.ability != "" then [foe.ability] else foe.possibleAbilities
  }

  /** Rule 13.5: no status move an ability (or, for powder and paralysis, a
      type) of the opponent makes it immune to, checked only when some
      ability is known or possible. */
  function AbilityImmunityRule(b: Battle, s: seq<string>): (r: seq<string>)
    ensures Prunes(r, s, PowderMoves + SleepMoves + ["willowisp"] + ParalysisMoves + ["taunt"])
    ensures CandidateAbilities(b.opponent) == [] ==> r == s
  {
    var abilities := CandidateAbilities(b.opponent);
    if abilities == [] then s
    else OtherImmunityRule(b, abilities, PowderSleepImmunityRule(b, abilities, s))
  }

  /** Overcoat (or, from generation 6, a Grass type) blocks powder moves;
      Insomnia blocks sleep, checked under the ability id "vitalsprit" as the
      engine spells it. */
  function PowderSleepImmunityRule(b: Battle, abilities: seq<string>, s: seq<string>): (r: seq<string>)
    ensures Prunes(r, s, PowderMoves + SleepMoves)
  {
    var s1 := RemoveEachWhen("overcoat" in abilities || (Grass in b.opponent.types && b.gen >= 6), s, PowderMoves);
    RemoveEachWhen("insomnia" in abilities || "vitalsprit" in abilities, s1, SleepMoves)
  }

  /** Water Veil blocks burns, Limber (or, from generation 6, an Electric
      type) paralysis, and Oblivious Taunt from generation 6. */
  function OtherImmunityRule(b: Battle, abilities: seq<string>, s: seq<string>): (r: seq<string>)
    ensures Prunes(r, s, ["willowisp"] + ParalysisMoves + ["taunt"])
  {
    var s1 := RemoveWhen("waterveil" in abilities, s, "willowisp");
    var s2 := RemoveEachWhen("limber" in abilities || (Electric in b.opponent.types && b.gen >= 6), s1, ParalysisMoves);
    RemoveWhen("oblivious" in abilities && b.gen >= 6, s2, "taunt")
  }

  /** `sum(1 for m in moves if m.category == c)` */
  function CountCategory(moves: seq<Move>, c: Category): (n: nat)
    ensures n <= |moves|
    ensures n == 0 <==> forall m :: m in moves ==> m.category != c
  {
    if moves == [] then 0
    else (if moves[0].category == c then 1 else 0) + CountCategory(moves[1..], c)
  }

  /** Rule 15's test: the attacking stat the moves mostly rely on (either
      one on a tie) is at -2 or lower. */
  predicate AttackStatTooLow(b: Battle): (r: bool)
    ensures r ==> Boost(b.active, Atk) <= -2 || Boost(b.active, Spa) <= -2
    ensures Boost(b.active, Atk) <= -2 && Boost(b.active, Spa) <= -2 ==> r
  {
    var physical := CountCategory(b.availableMoves, Physical);
    var special := CountCategory(b.availableMoves, Special);
    var atk, spa := Boost(b.active, Atk), Boost(b.active, Spa);
    if physical > special then atk <= -2
    else if special > physical then spa <= -2
    else atk <= -2 || spa <= -2
  }

  /** Rule 15: with the attacking stat too low, switch to a viable Pokémon,
      or keep the list when none is viable. */
  function LoweredStatRule(b: Battle, o: Oracle, s: seq<string>): (r: Stage)
    ensures r.Continue? <==> !AttackStatTooLow(b)
    ensures r.Continue? ==> r.actions == s
    ensures forall y :: y in r.actions ==> y in s || y in AllSwitchIds(b)
  {
    if AttackStatTooLow(b) then
      var viable := ViableSwitchActions(b, o);
      if viable == [] then Return(s) else Return(viable)
    else Continue(s)
  }

  /** Rule 18: no sun, rain or snow move without that weather, and no
      Weather Ball without any weather. The sun-healing check only reports
      and removes nothing. */
  function WeatherRule(b: Battle, s: seq<string>): (r: seq<string>)
    ensures Prunes(r, s, WeatherMoves)
  {
    var w := b.weather;
    var s1 := RemoveEachWhen(w !in {SunnyDay, DesolateLand}, s, ["solarbeam", "solarblade"]);
    var s2 := RemoveWhen(w !in {RainDance, PrimordialSea}, s1, "electroshot");
    var s3 := RemoveWhen(w !in {Hail, Snow, Snowscape}, s2, "auroraveil");
    RemoveWhen(w !in {RainDance, PrimordialSea, DeltaStream, DesolateLand, Hail, Sandstorm, Snow, Snowscape, SunnyDay},
               s3, "weatherball")
  }

  /** `id` names an available status move. */
  predicate IsStatusMove(moves: seq<Move>, id: string) {
    match FindMove(moves, id)
    case None => false
    case Some(m) => m.category == StatusMove
  }

  /** The entries of `s` that are not switch actions and name an available
      status move, in list order. */
  function StatusIds(s: seq<string>, moves: seq<Move>): (r: seq<string>)
    ensures forall y :: y in r <==> y in s && !IsSwitch(y) && IsStatusMove(moves, y)
  {
    if s == [] then []
    else (if !IsSwitch(s[0]) && IsStatusMove(moves, s[0]) then [s[0]] else []) + StatusIds(s[1..], moves)
  }

  /** Rules 21 and 23 drop every status move from the list. */
  function DropStatusMoves(s: seq<string>, moves: seq<Move>): (r: seq<string>)
    ensures forall y :: y in r <==> y in s && (IsSwitch(y) || !IsStatusMove(moves, y))
  {
    var ids := StatusIds(s, moves);
    if ids != [] then Without(s, ids) else s
  }

  /** Rule 21: no status move into the opponent's Substitute. */
  function SubstituteRule(b: Battle, s: seq<string>): (r: seq<string>)
    ensures forall y :: y in r ==> y in s
    ensures forall y :: !IsStatusMove(b.availableMoves, y) ==> (y in r <==> y in s)
  {
    if Substitute in b.opponent.effects then DropStatusMoves(s, b.availableMoves) else s
  }

  /** Rule 23: a Prankster's status moves fail against Dark types from
      generation 7 on. */
  function PranksterRule(b: Battle, s: seq<string>): (r: seq<string>)
    ensures forall y :: y in r ==> y in s
    ensures forall y :: !IsStatusMove(b.availableMoves, y) ==> (y in r <==> y in s)
  {
    if b.active.ability == "prankster" && b.gen >= 7 && Dark in b.opponent.types
    then DropStatusMoves(s, b.availableMoves) else s
  }

  /** Rule 25: never a move that needs a recharge turn. */
  function RechargeRule(s: seq<string>): (r: seq<string>)
    ensures Prunes(r, s, RechargeMoves)
  {
    RemoveEach(s, RechargeMoves)
  }

  /** Every stat a setup move raises is already at +6. */
  predicate SetupUseless(p: Pokemon, boosts: map<Stat, int>) {
    forall st :: st in boosts ==> Boost(p, st) >= 6
  }

  /** Rule 26, first scenario: the Encore-locked move is a resisted attack,
      a setup move with nothing left to raise, or a hazard already at its
      limit. */
  predicate EncoreForcesSwitch(b: Battle, dm: DamageMap, m: Move): (r: bool)
    ensures r && m.category == StatusMove && |m.boosts| == 0 ==> m.id in {"stealthrock", "spikes", "stickyweb"}
    ensures m.category != StatusMove && m.id !in Keys(dm) ==> !r
  {
    if m.category != StatusMove then MultiplierOr1(dm, m.id) < 1.0
    else
      var opp := b.opponentSideConditions;
      || (|m.boosts| > 0 && SetupUseless(b.active, m.boosts))
      || (m.id == "stealthrock" && StealthRock in opp)
      || (m.id == "spikes" && Count(opp, Spikes) >= 3)
      || (m.id == "stickyweb" && StickyWeb in opp)
  }

  /** Rule 26. Locked by Encore into a move not worth using: switch if a
      viable switch exists. Taunted with only resisted attacks: the same.
      Taunted with no move at all: the viable switches, even none. */
  function LockedInRule(b: Battle, o: Oracle, dm: DamageMap, s: seq<string>): (r: Stage)
    ensures r.Continue? ==> r.actions == s
    ensures forall y :: y in r.actions ==> y in AllSwitchIds(b) || (r.Continue? && y in s)
  {
    var st := EncoreRule(b, o, dm, s);
    if st.Return? then st else TauntRule(b, o, dm, s)
  }

  /** Rule 26, first scenario. */
  function EncoreRule(b: Battle, o: Oracle, dm: DamageMap, s: seq<string>): (r: Stage)
    ensures r.Continue? ==> r.actions == s
    ensures r.Return? ==> Encore in b.active.effects && |b.availableMoves| == 1 && r.actions != []
                          && forall y :: y in r.actions ==> y in AllSwitchIds(b)
  {
    var viable := ViableSwitchActions(b, o);
    if Encore in b.active.effects && |b.availableMoves| == 1
       && EncoreForcesSwitch(b, dm, b.availableMoves[0]) && viable != [] then Return(viable)
    else Continue(s)
  }

  /** Rule 26, second scenario. */
  function TauntRule(b: Battle, o: Oracle, dm: DamageMap, s: seq<string>): (r: Stage)
    ensures r.Continue? ==> r.actions == s
    ensures r.Return? ==> Taunt in b.active.effects && forall y :: y in r.actions ==> y in AllSwitchIds(b)
    ensures r.Return? && b.availableMoves != [] ==> r.actions != []
    ensures Taunt in b.active.effects && b.availableMoves == [] ==> r.Return?
  {
    var viable := ViableSwitchActions(b, o);
    if Taunt in b.active.effects then
      if b.availableMoves != [] then
        if AllAttacksResisted(b, dm) && viable != [] then Return(viable) else Continue(s)
      else Return(viable)
    else Continue(s)
  }

  /** Every available move does less than neutral damage by the damage map
      (a move missing from it counts as neutral). */
  predicate AllAttacksResisted(b: Battle, dm: DamageMap) {
    forall m :: m in b.availableMoves ==> MultiplierOr1(dm, m.id) < 1.0
  }

  /** Rule 27: against Blissey or Chansey without a physical move, switch if
      a viable switch exists. */
  function SpecialWallRule(b: Battle, o: Oracle, s: seq<string>): (r: Stage)
    ensures r.Continue? ==> r.actions == s
    ensures r.Return? ==> r.actions != [] && forall y :: y in r.actions ==> y in AllSwitchIds(b)
  {
    var viable := ViableSwitchActions(b, o);
    if Lower(b.opponent.species) in ["blissey", "chansey"]
       && !HasPhysicalMove(b) && viable != []
    then Return(viable) else Continue(s)
  }

  predicate HasPhysicalMove(b: Battle) {
    exists m :: m in b.availableMoves && m.category == Physical
  }

  predicate TeamStatused(b: Battle) {
    exists p :: p in b.team && !p.fainted && p.status != NoStatus
  }

  /** Rules 29-36: no Yawn or Trick Room twice in a row, self-KO moves only
      as a favourable trade, and cleric moves only for a statused team. */
  function LateRule(b: Battle, lastMove: Option<string>, s: seq<string>): (r: seq<string>)
    ensures Prunes(r, s, LateMoves)
  {
    var s1 := RemoveWhen(lastMove == Some("yawn"), s, "yawn");
    var s2 := RemoveEachWhen(!(b.active.hp < 0.34 && b.opponent.hp > 0.66), s1, SelfKoMoves);
    var s3 := RemoveEachWhen(!TeamStatused(b), s2, ClericMoves);
    RemoveWhen(lastMove == Some("trickroom"), s3, "trickroom")
  }

  // ---------------------------------------------------------------------
  // The pipeline, cut at the rules that may return early

  /** Rules 0 and 0.5: the overrides, whose result the later rules go on
      filtering. */
  function OverrideRule(b: Battle, o: Oracle, legal: seq<string>, dm: DamageMap): (r: seq<string>)
    ensures forall y :: y in r ==> y in legal || y in Keys(dm) || y in AllSwitchIds(b)
    ensures !HasKoThreat(b, o) && b.opponent.hp >= 0.5 ==> r == legal
  {
    MortalPerilWithin(b, o, legal, dm);
    KoMovesKeys(dm, 2.5);
    var s := MortalPerilAlert(b, o, legal, dm);
    if b.opponent.hp < 0.5 then StepOnThroat(b, s, dm) else s
  }

  /** The whole filter: the stages in order, until one ends the filter. */
  function FilteredActions(b: Battle, o: Oracle, lastMove: Option<string>, legal: seq<string>, dm: DamageMap): (r: seq<string>)
    ensures forall y :: y in r ==> y in legal || y in Keys(dm) || y in AllSwitchIds(b)
  {
    var st1 := Rules0To5(b, o, legal, dm);
    if st1.Return? then st1.actions else FromRule6(b, o, lastMove, legal, dm, st1.actions)
  }

  /** The stages after rule 5. */
  function FromRule6(b: Battle, o: Oracle, lastMove: Option<string>, legal: seq<string>, dm: DamageMap, s: seq<string>): (r: seq<string>)
    ensures forall y :: y in r ==> y in s || y in AllSwitchIds(b) || (y == "sleeptalk" && y in legal)
  {
    var st2 := Rules6To10(b, legal, dm, s);
    if st2.Return? then st2.actions else
    var st3 := Rules11To15(b, o, lastMove, st2.actions);
    if st3.Return? then st3.actions else
    var st4 := Rules21To24(b, Rules16To20(b, lastMove, dm, st3.actions));
    if st4.Return? then st4.actions else
    var st5 := Rules25To26(b, o, dm, st4.actions);
    if st5.Return? then st5.actions else
    Rules27To36(b, o, lastMove, st5.actions)
  }

  /** Rules 0-5, ending early when locked into a resisted move. */
  function Rules0To5(b: Battle, o: Oracle, legal: seq<string>, dm: DamageMap): (r: Stage)
    ensures r.Continue? ==> r.actions == Rules1To4(b, OverrideRule(b, o, legal, dm))
    ensures forall y :: y in r.actions ==> y in Rules1To4(b, OverrideRule(b, o, legal, dm)) || y in AllSwitchIds(b)
  {
    LockedMoveRule(b, o, Rules1To4(b, OverrideRule(b, o, legal, dm)))
  }

  /** Rules 1-4, which only remove. */
  function Rules1To4(b: Battle, s: seq<string>): (r: seq<string>)
    ensures forall y :: y in r ==> y in s
  {
    var s1 := HazardClearRule(b, ConditionRule(b, HealingRule(b, s)));
    SpecialSetupRule(b, MultiStatSetupRule(b, SingleStatSetupRule(b, s1)))
  }

  /** Rules 6-10, ending early when asleep without Sleep Talk. */
  function Rules6To10(b: Battle, legal: seq<string>, dm: DamageMap, s: seq<string>): (r: Stage)
    ensures forall y :: y in r.actions ==> y in s || (y == "sleeptalk" && y in legal)
  {
    var s1 := DropAttacks(DropAttacks(s, dm, b.availableMoves, Immune), dm, b.availableMoves, Feeble);
    SleepRule(b, legal, RepeatEffectRule(b, SleepClauseRule(b, s1)))
  }

  /** Rules 11-15, ending early when the attacking stat is too low. */
  function Rules11To15(b: Battle, o: Oracle, lastMove: Option<string>, s: seq<string>): (r: Stage)
    ensures forall y :: y in r.actions ==> y in s || y in AllSwitchIds(b)
  {
    LoweredStatRule(b, o, Rules11To14(b, lastMove, s))
  }

  /** Rules 11-14, which only remove. */
  function Rules11To14(b: Battle, lastMove: Option<string>, s: seq<string>): (r: seq<string>)
    ensures forall y :: y in r ==> y in s
  {
    var s1 := RemoveWhen(lastMove == Some("wish"), ItemSwapRule(b, s), "wish");
    PainSplitRule(b, StatusMoveRule(b, s1))
  }

  /** Rule 14: no Pain Split without less HP than the opponent. */
  function PainSplitRule(b: Battle, s: seq<string>): (r: seq<string>)
    ensures Prunes(r, s, ["painsplit"])
    ensures b.active.hp < b.opponent.hp ==> r == s
  {
    RemoveWhen(b.active.hp >= b.opponent.hp, s, "painsplit")
  }

  /** Rules 13 and 13.5: no status move that cannot take hold. */
  function StatusMoveRule(b: Battle, s: seq<string>): (r: seq<string>)
    ensures forall y :: y in r ==> y in s
  {
    AbilityImmunityRule(b, TypeImmunityRule(b, AlreadyStatusedRule(b, s)))
  }

  /** Rules 16-20, which only remove. */
  function Rules16To20(b: Battle, lastMove: Option<string>, dm: DamageMap, s: seq<string>): (r: seq<string>)
    ensures forall y :: y in r ==> y in s
  {
    var s1 := RemoveEachWhen(|b.team| == 1, s, PivotMoves);
    var s2 := RemoveEachWhen(lastMove.Some? && lastMove.value in ProtectMoves, s1, ProtectMoves);
    RemoveWhen(!(b.opponent.item.Some? && b.opponent.item.value != "") && MultiplierOr1(dm, "knockoff") <= 1.0,
               WeatherRule(b, s2), "knockoff")
  }

  /** Rules 21-24, ending early on a Truant turn that must recharge: only
      the switch actions, possibly none. */
  function Rules21To24(b: Battle, s: seq<string>): (r: Stage)
    ensures forall y :: y in r.actions ==> y in s
  {
    var s1 := RemoveWhen(Substitute in b.active.effects, SubstituteRule(b, s), "substitute");
    var s2 := PranksterRule(b, s1);
    if b.active.ability == "truant" && b.active.mustRecharge then Return(SwitchesOf(s2)) else Continue(s2)
  }

  /** Rules 25 and 26. */
  function Rules25To26(b: Battle, o: Oracle, dm: DamageMap, s: seq<string>): (r: Stage)
    ensures forall y :: y in r.actions ==> y in s || y in AllSwitchIds(b)
  {
    LockedInRule(b, o, dm, RechargeRule(s))
  }

  /** Rules 27-36. */
  function Rules27To36(b: Battle, o: Oracle, lastMove: Option<string>, s: seq<string>): (r: seq<string>)
    ensures forall y :: y in r ==> y in s || y in AllSwitchIds(b)
  {
    match SpecialWallRule(b, o, s)
    case Return(r) => r
    case Continue(s1) => LateRule(b, lastMove, s1)
  }

  // ---------------------------------------------------------------------
  // The filter as the engine runs it: one working list, shrunk in place by
  // `remove` calls and removal loops, with early returns. Each rule with
  // several guarded removals is a method of its own.

  /** `filter_suboptimal_moves(battle, legal_actions, damage_map)`, with
      `self.last_move` passed in as `lastMove`: the stages in order, stopping
      at the first early return. */
  method FilterSuboptimalMoves(b: Battle, o: Oracle, lastMove: Option<string>, legal: seq<string>, dm: DamageMap)
    returns (r: seq<string>)
    ensures r == FilteredActions(b, o, lastMove, legal, dm)
  {
    var st := FilterRules0To5(b, o, legal, dm);
    if st.Return? {
      return st.actions;
    }
    st := FilterRules6To10(b, legal, dm, st.actions);
    if st.Return? {
      return st.actions;
    }
    st := FilterRules11To15(b, o, lastMove, st.actions);
    if st.Return? {
      return st.actions;
    }
    var filtered := FilterRules16To20(b, lastMove, dm, st.actions);
    st := FilterRules21To24(b, filtered);
    if st.Return? {
      return st.actions;
    }
    st := FilterRules25To26(b, o, dm, st.actions);
    if st.Return? {
      return st.actions;
    }
    r := FilterRules27To36(b, o, lastMove, st.actions);
  }

  method FilterRules0To5(b: Battle, o: Oracle, legal: seq<string>, dm: DamageMap) returns (st: Stage)
    ensures st == Rules0To5(b, o, legal, dm)
  {
    var filtered := ApplyOverrideRule(b, o, legal, dm);
    filtered := ApplyRules1To4(b, filtered);
    if |b.availableMoves| == 1 && o.moveMultiplier(b.opponent, b.availableMoves[0]) < 1.0 {
      var viable := FilterSuboptimalSwitches(b, o, AllSwitchIds(b));
      if viable == [] {
        return Return(filtered);
      }
      return Return(viable);
    }
    return Continue(filtered);
  }

  method ApplyOverrideRule(b: Battle, o: Oracle, legal: seq<string>, dm: DamageMap) returns (r: seq<string>)
    ensures r == OverrideRule(b, o, legal, dm)
  {
    r := MortalPerilAlert(b, o, legal, dm);
    if b.opponent.hp < 0.5 {
      r := StepOnThroat(b, r, dm);
    }
  }

  method ApplyRules1To4(b: Battle, s: seq<string>) returns (r: seq<string>)
    ensures r == Rules1To4(b, s)
  {
    r := s;
    if b.active.hp >= 0.66 {
      r := RemoveListed(r, HealingMoves);
    }
    r := ApplyOpponentHazardRule(b, r);
    r := ApplyOwnConditionRule(b, r);
    r := ApplyHazardClearRule(b, r);
    r := ApplySingleStatSetupRule(b, r);
    r := ApplyMultiStatSetupRule(b, r);
    r := ApplySpecialSetupRule(b, r);
  }

  method ApplyOpponentHazardRule(b: Battle, s: seq<string>) returns (r: seq<string>)
    ensures r == OpponentHazardRule(b, s)
  {
    var opp := b.opponentSideConditions;
    r := s;
    if StealthRock in opp { r := Remove(r, "stealthrock"); }
    if Count(opp, Spikes) >= 3 { r := Remove(r, "spikes"); }
    if Count(opp, ToxicSpikes) >= 2 { r := Remove(r, "toxicspikes"); }
    if StickyWeb in opp { r := Remove(r, "stickyweb"); }
  }

  method ApplyOwnConditionRule(b: Battle, s: seq<string>) returns (r: seq<string>)
    ensures r == OwnConditionRule(b, s)
  {
    var mine := b.sideConditions;
    r := s;
    if Reflect in mine { r := Remove(r, "reflect"); }
    if LightScreen in mine { r := Remove(r, "lightscreen"); }
    if AuroraVeil in mine { r := Remove(r, "auroraveil"); }
    if Tailwind in mine { r := Remove(r, "tailwind"); }
    if TrickRoom in b.fields { r := Remove(r, "trickroom"); }
  }

  method ApplyHazardClearRule(b: Battle, s: seq<string>) returns (r: seq<string>)
    ensures r == HazardClearRule(b, s)
  {
    r := s;
    if !MySideHazards(b) {
      r := RemoveListed(r, ["rapidspin", "mortalspin"]);
      if "defog" in r && !OpponentSideActive(b) {
        r := Remove(r, "defog");
      }
    }
  }

  method ApplySingleStatSetupRule(b: Battle, s: seq<string>) returns (r: seq<string>)
    ensures r == SingleStatSetupRule(b, s)
  {
    var p := b.active;
    r := s;
    if Boost(p, Atk) >= 2 { r := Remove(r, "swordsdance"); }
    if Boost(p, Spa) >= 2 { r := Remove(r, "nastyplot"); }
    if Boost(p, Def) >= 2 { r := RemoveListed(r, ["irondefense", "acidarmor"]); }
    if Boost(p, Spd) >= 2 { r := Remove(r, "amnesia"); }
    if Boost(p, Spe) >= 2 { r := RemoveListed(r, ["agility", "rockpolish"]); }
  }

  method ApplyMultiStatSetupRule(b: Battle, s: seq<string>) returns (r: seq<string>)
    ensures r == MultiStatSetupRule(b, s)
  {
    var p := b.active;
    r := s;
    if Boost(p, Atk) >= 1 && Boost(p, Def) >= 1 { r := RemoveListed(r, ["bulkup", "coil"]); }
    if Boost(p, Atk) >= 1 && Boost(p, Spe) >= 1 { r := Remove(r, "dragondance"); }
    if Boost(p, Spa) >= 1 && Boost(p, Spd) >= 1 { r := Remove(r, "calmmind"); }
    if Boost(p, Spa) >= 1 && Boost(p, Spd) >= 1 && Boost(p, Spe) >= 1 { r := Remove(r, "quiverdance"); }
  }

  method ApplySpecialSetupRule(b: Battle, s: seq<string>) returns (r: seq<string>)
    ensures r == SpecialSetupRule(b, s)
  {
    var p := b.active;
    r := s;
    if (Boost(p, Atk) >= 2 || Boost(p, Spa) >= 2) && Boost(p, Spe) >= 2 { r := Remove(r, "shellsmash"); }
    if Ghost !in p.types && Boost(p, Atk) >= 1 && Boost(p, Def) >= 1 { r := Remove(r, "curse"); }
  }

  /** Rules 6 and 7: one pass over the damage map in insertion order. */
  method RemoveLowDamageAttacks(s: seq<string>, dm: DamageMap, moves: seq<Move>, c: Cutoff) returns (r: seq<string>)
    ensures r == DropAttacks(s, dm, moves, c)
  {
    r := s;
    var i := 0;
    while i < |dm|
      invariant 0 <= i <= |dm|
      invariant DropAttacks(r, dm[i..], moves, c) == DropAttacks(s, dm, moves, c)
    {
      assert dm[i..][0] == dm[i] && dm[i..][1..] == dm[i + 1..];
      var e := dm[i];
      if Meets(c, e.info.expectedDamage) {
        var found := FindMove(moves, e.id);
        if found.Some? && found.value.category != StatusMove {
          r := Remove(r, e.id);
        }
      }
      i := i + 1;
    }
  }

  method ApplyRepeatEffectRule(b: Battle, s: seq<string>) returns (r: seq<string>)
    ensures r == RepeatEffectRule(b, s)
  {
    var fx := b.opponent.effects;
    r := s;
    if Taunt in fx { r := Remove(r, "taunt"); }
    if Encore in fx { r := Remove(r, "encore"); }
    if LeechSeed in fx { r := Remove(r, "leechseed"); }
    if OpponentTrapped(b) {
      r := RemoveListed(r, TrappingMoves);
    }
  }

  method FilterRules6To10(b: Battle, legal: seq<string>, dm: DamageMap, s: seq<string>) returns (st: Stage)
    ensures st == Rules6To10(b, legal, dm, s)
  {
    var filtered := RemoveLowDamageAttacks(s, dm, b.availableMoves, Immune);
    filtered := RemoveLowDamageAttacks(filtered, dm, b.availableMoves, Feeble);
    if OpponentTeamAsleep(b) {
      filtered := RemoveListed(filtered, SleepMoves);
    }
    filtered := ApplyRepeatEffectRule(b, filtered);
    if b.active.status == Slp {
      if b.active.statusCounter <= 1 && "sleeptalk" in legal {
        return Continue(["sleeptalk"] + SwitchesOf(filtered));
      }
      return Return(SwitchesOf(filtered));
    }
    return Continue(Remove(filtered, "sleeptalk"));
  }

  method ApplyItemSwapRule(b: Battle, s: seq<string>) returns (r: seq<string>)
    ensures r == ItemSwapRule(b, s)
  {
    r := s;
    if "trick" in r || "switcheroo" in r {
      if b.active.item.None? || (b.opponent.ability != "" && Contains(b.opponent.ability, "sticky-hold")) {
        r := RemoveListed(r, ItemSwapMoves);
      }
    }
  }

  method ApplyTypeImmunityRule(b: Battle, s: seq<string>) returns (r: seq<string>)
    ensures r == TypeImmunityRule(b, s)
  {
    var foe := b.opponent;
    r := s;
    if Electric in foe.types && b.gen >= 6 { r := Remove(r, "thunderwave"); }
    if Fire in foe.types { r := Remove(r, "willowisp"); }
    if (Poison in foe.types || Steel in foe.types) && b.active.ability != "corrosion" {
      r := RemoveListed(r, ["toxic", "poisonpowder"]);
    }
    if Grass in foe.types { r := Remove(r, "leechseed"); }
  }

  method ApplyAbilityImmunityRule(b: Battle, s: seq<string>) returns (r: seq<string>)
    ensures r == AbilityImmunityRule(b, s)
  {
    var foe := b.opponent;
    var abilities := foe.possibleAbilities;
    if foe.ability != "" {
      abilities := [foe.ability];
    }
    r := s;
    if abilities != [] {
      if "overcoat" in abilities || (Grass in foe.types && b.gen >= 6) {
        r := RemoveListed(r, PowderMoves);
      }
      if "insomnia" in abilities || "vitalsprit" in abilities {
        r := RemoveListed(r, SleepMoves);
      }
      r := ApplyOtherImmunityRule(b, abilities, r);
    }
  }

  method ApplyOtherImmunityRule(b: Battle, abilities: seq<string>, s: seq<string>) returns (r: seq<string>)
    ensures r == OtherImmunityRule(b, abilities, s)
  {
    r := s;
    if "waterveil" in abilities { r := Remove(r, "willowisp"); }
    if "limber" in abilities || (Electric in b.opponent.types && b.gen >= 6) {
      r := RemoveListed(r, ParalysisMoves);
    }
    if "oblivious" in abilities && b.gen >= 6 { r := Remove(r, "taunt"); }
  }

  method FilterRules11To15(b: Battle, o: Oracle, lastMove: Option<string>, s: seq<string>) returns (st: Stage)
    ensures st == Rules11To15(b, o, lastMove, s)
  {
    var filtered := ApplyRules11To14(b, lastMove, s);
    var shouldForceSwitch := LowStatForcesSwitch(b);
    if shouldForceSwitch {
      var viable := FilterSuboptimalSwitches(b, o, AllSwitchIds(b));
      if viable == [] {
        return Return(filtered);
      }
      return Return(viable);
    }
    return Continue(filtered);
  }

  method ApplyRules11To14(b: Battle, lastMove: Option<string>, s: seq<string>) returns (r: seq<string>)
    ensures r == Rules11To14(b, lastMove, s)
  {
    r := ApplyItemSwapRule(b, s);
    if lastMove == Some("wish") {
      r := Remove(r, "wish");
    }
    r := ApplyStatusMoveRule(b, r);
    r := ApplyPainSplitRule(b, r);
  }

  method ApplyPainSplitRule(b: Battle, s: seq<string>) returns (r: seq<string>)
    ensures r == PainSplitRule(b, s)
  {
    r := s;
    if b.active.hp >= b.opponent.hp {
      r := Remove(r, "painsplit");
    }
  }

  method ApplyStatusMoveRule(b: Battle, s: seq<string>) returns (r: seq<string>)
    ensures r == StatusMoveRule(b, s)
  {
    r := s;
    if b.opponent.status != NoStatus {
      r := RemoveListed(r, StatusMoves);
    }
    r := ApplyTypeImmunityRule(b, r);
    r := ApplyAbilityImmunityRule(b, r);
  }

  /** Rule 15's flag, from the category counts and the two attacking boosts. */
  method LowStatForcesSwitch(b: Battle) returns (shouldForceSwitch: bool)
    ensures shouldForceSwitch == AttackStatTooLow(b)
  {
    var atkBoost, spaBoost := Boost(b.active, Atk), Boost(b.active, Spa);
    var physical := CountCategory(b.availableMoves, Physical);
    var special := CountCategory(b.availableMoves, Special);
    shouldForceSwitch := false;
    if physical > special && atkBoost <= -2 {
      shouldForceSwitch := true;
    } else if special > physical && spaBoost <= -2 {
      shouldForceSwitch := true;
    } else if physical == special && (atkBoost <= -2 || spaBoost <= -2) {
      shouldForceSwitch := true;
    }
  }

  method ApplyWeatherRule(b: Battle, s: seq<string>) returns (r: seq<string>)
    ensures r == WeatherRule(b, s)
  {
    var w := b.weather;
    r := s;
    if w !in {SunnyDay, DesolateLand} {
      r := RemoveListed(r, ["solarbeam", "solarblade"]);
    }
    if w !in {RainDance, PrimordialSea} {
      r := Remove(r, "electroshot");
    }
    if w !in {Hail, Snow, Snowscape} {
      r := Remove(r, "auroraveil");
    }
    if w !in {RainDance, PrimordialSea, DeltaStream, DesolateLand, Hail, Sandstorm, Snow, Snowscape, SunnyDay} {
      r := Remove(r, "weatherball");
    }
  }

  method FilterRules16To20(b: Battle, lastMove: Option<string>, dm: DamageMap, s: seq<string>) returns (r: seq<string>)
    ensures r == Rules16To20(b, lastMove, dm, s)
  {
    r := s;
    if |b.team| == 1 {
      r := RemoveListed(r, PivotMoves);
    }
    if lastMove.Some? && lastMove.value in ProtectMoves {
      r := RemoveListed(r, ProtectMoves);
    }
    r := ApplyWeatherRule(b, r);
    if !(b.opponent.item.Some? && b.opponent.item.value != "") && MultiplierOr1(dm, "knockoff") <= 1.0 {
      r := Remove(r, "knockoff");
    }
  }

  /** The ids of the status moves in `s`, built by appending. */
  method CollectStatusMoves(s: seq<string>, moves: seq<Move>) returns (ids: seq<string>)
    ensures ids == StatusIds(s, moves)
  {
    ids := [];
    var i := 0;
    while i < |s|
      invariant 0 <= i <= |s|
      invariant ids + StatusIds(s[i..], moves) == StatusIds(s, moves)
    {
      StatusIdsStep(s, moves, i, ids);
      var keep := false;
      if !IsSwitch(s[i]) {
        var found := FindMove(moves, s[i]);
        keep := found.Some? && found.value.category == StatusMove;
      }
      if keep {
        ids := ids + [s[i]];
      }
      i := i + 1;
    }
    assert s[i..] == [];
  }

  /** One step of the collecting loop: the entry at `i` joins the collected
      ids exactly when it is a status move. */
  lemma StatusIdsStep(s: seq<string>, moves: seq<Move>, i: nat, ids: seq<string>)
    requires i < |s|
    ensures ids + StatusIds(s[i..], moves)
         == (if !IsSwitch(s[i]) && IsStatusMove(moves, s[i]) then ids + [s[i]] else ids) + StatusIds(s[i + 1..], moves)
  {
    assert s[i..][0] == s[i] && s[i..][1..] == s[i + 1..];
  }

  /** Rules 21 and 23: collect the status moves, then drop them all. */
  method RemoveStatusMoves(s: seq<string>, moves: seq<Move>) returns (r: seq<string>)
    ensures r == DropStatusMoves(s, moves)
  {
    var ids := CollectStatusMoves(s, moves);
    r := s;
    if ids != [] {
      r := Without(s, ids);
    }
  }

  method FilterRules21To24(b: Battle, s: seq<string>) returns (st: Stage)
    ensures st == Rules21To24(b, s)
  {
    var filtered := s;
    if Substitute in b.opponent.effects {
      filtered := RemoveStatusMoves(filtered, b.availableMoves);
    }
    if Substitute in b.active.effects {
      filtered := Remove(filtered, "substitute");
    }
    if b.active.ability == "prankster" && b.gen >= 7 && Dark in b.opponent.types {
      filtered := RemoveStatusMoves(filtered, b.availableMoves);
    }
    if b.active.ability == "truant" && b.active.mustRecharge {
      return Return(SwitchesOf(filtered));
    }
    return Continue(filtered);
  }

  /** The Encore check on a setup move: whether every boosted stat is
      already at +6, stopping at the first that is not. */
  method SetupIsUseless(p: Pokemon, boosts: map<Stat, int>) returns (useless: bool)
    ensures useless == SetupUseless(p, boosts)
  {
    var rest := boosts.Keys;
    while rest != {}
      invariant rest <= boosts.Keys
      invariant forall st :: st in boosts && st !in rest ==> Boost(p, st) >= 6
      decreases rest
    {
      var st :| st in rest;
      if Boost(p, st) < 6 {
        return false;
      }
      rest := rest - {st};
    }
    return true;
  }

  /** Rule 26's Encore flag for the one move we are locked into. */
  method EncoreShouldForceSwitch(b: Battle, dm: DamageMap, locked: Move) returns (shouldForceSwitch: bool)
    ensures shouldForceSwitch == EncoreForcesSwitch(b, dm, locked)
  {
    var opp := b.opponentSideConditions;
    shouldForceSwitch := false;
    if locked.category != StatusMove {
      if MultiplierOr1(dm, locked.id) < 1.0 {
        shouldForceSwitch := true;
      }
    } else {
      if |locked.boosts| > 0 {
        var useless := SetupIsUseless(b.active, locked.boosts);
        if useless {
          shouldForceSwitch := true;
        }
      }
      if locked.id == "stealthrock" && StealthRock in opp {
        shouldForceSwitch := true;
      } else if locked.id == "spikes" && Count(opp, Spikes) >= 3 {
        shouldForceSwitch := true;
      } else if locked.id == "stickyweb" && StickyWeb in opp {
        shouldForceSwitch := true;
      }
    }
  }

  method FilterRules25To26(b: Battle, o: Oracle, dm: DamageMap, s: seq<string>) returns (st: Stage)
    ensures st == Rules25To26(b, o, dm, s)
  {
    var filtered := RemoveListed(s, RechargeMoves);
    st := ApplyEncoreRule(b, o, dm, filtered);
    if st.Continue? {
      st := ApplyTauntRule(b, o, dm, filtered);
    }
  }

  method ApplyEncoreRule(b: Battle, o: Oracle, dm: DamageMap, s: seq<string>) returns (st: Stage)
    ensures st == EncoreRule(b, o, dm, s)
  {
    if Encore in b.active.effects && |b.availableMoves| == 1 {
      var shouldForceSwitch := EncoreShouldForceSwitch(b, dm, b.availableMoves[0]);
      if shouldForceSwitch {
        var viable := FilterSuboptimalSwitches(b, o, AllSwitchIds(b));
        if viable != [] {
          return Return(viable);
        }
      }
    }
    return Continue(s);
  }

  method ApplyTauntRule(b: Battle, o: Oracle, dm: DamageMap, s: seq<string>) returns (st: Stage)
    ensures st == TauntRule(b, o, dm, s)
  {
    if Taunt in b.active.effects {
      if b.availableMoves != [] {
        var allAttacksAreBad := AllAttacksResisted(b, dm);
        if allAttacksAreBad {
          var viable := FilterSuboptimalSwitches(b, o, AllSwitchIds(b));
          if viable != [] {
            return Return(viable);
          }
        }
      } else {
        var viable := FilterSuboptimalSwitches(b, o, AllSwitchIds(b));
        return Return(viable);
      }
    }
    return Continue(s);
  }

  method FilterRules27To36(b: Battle, o: Oracle, lastMove: Option<string>, s: seq<string>) returns (r: seq<string>)
    ensures r == Rules27To36(b, o, lastMove, s)
  {
    if Lower(b.opponent.species) in ["blissey", "chansey"] {
      var hasPhysicalAttack := HasPhysicalMove(b);
      if !hasPhysicalAttack {
        var viable := FilterSuboptimalSwitches(b, o, AllSwitchIds(b));
        if viable != [] {
          return viable;
        }
      }
    }
    r := ApplyLateRule(b, lastMove, s);
  }

  method ApplyLateRule(b: Battle, lastMove: Option<string>, s: seq<string>) returns (r: seq<string>)
    ensures r == LateRule(b, lastMove, s)
  {
    r := s;
    if lastMove == Some("yawn") {
      r := Remove(r, "yawn");
    }
    if !(b.active.hp < 0.34 && b.opponent.hp > 0.66) {
      r := RemoveListed(r, SelfKoMoves);
    }
    var isTeamStatused := TeamStatused(b);
    if !isTeamStatused {
      r := RemoveListed(r, ClericMoves);
    }
    if lastMove == Some("trickroom") {
      r := Remove(r, "trickroom");
    }
  }
}
