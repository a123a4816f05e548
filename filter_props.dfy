/** What the move filter promises: each removal rule takes away only the
    moves it names, the stages add nothing but switch actions (and Sleep
    Talk, when legal), and a handful of rules hold for the filter as a whole. */
module FilterProperties {
  import opened BattleState
  import opened ActionLists
  import opened SwitchFilter
  import opened Overrides
  import opened MoveFilter

  // ---------------------------------------------------------------------
  // Lists free of repeats stay so; a removed name is then gone for good

  lemma RemoveWhenNoDup(c: bool, s: seq<string>, x: string)
    requires NoDup(s)
    ensures NoDup(RemoveWhen(c, s, x))
    ensures c ==> x !in RemoveWhen(c, s, x)
  {
    if c {
      RemoveNoDup(s, x);
    }
  }

  lemma RemoveEachWhenNoDup(c: bool, s: seq<string>, names: seq<string>)
    requires NoDup(s)
    ensures NoDup(RemoveEachWhen(c, s, names))
    ensures c ==> forall y :: y in names ==> y !in RemoveEachWhen(c, s, names)
  {
    if c {
      RemoveEachNoDup(s, names);
    }
  }

  lemma {:induction false} DropAttacksNoDup(s: seq<string>, dm: DamageMap, moves: seq<Move>, c: Cutoff)
    requires NoDup(s)
    ensures NoDup(DropAttacks(s, dm, moves, c))
    decreases |dm|
  {
    if dm != [] {
      var e := dm[0];
      if Meets(c, e.info.expectedDamage) && IsAttack(moves, e.id) {
        RemoveNoDup(s, e.id);
        DropAttacksNoDup(Remove(s, e.id), dm[1..], moves, c);
      } else {
        DropAttacksNoDup(s, dm[1..], moves, c);
      }
    }
  }

  lemma RepeatEffectNoDup(b: Battle, s: seq<string>)
    requires NoDup(s)
    ensures NoDup(RepeatEffectRule(b, s))
  {
    var fx := b.opponent.effects;
    var s1 := RemoveWhen(Taunt in fx, s, "taunt");
    var s2 := RemoveWhen(Encore in fx, s1, "encore");
    var s3 := RemoveWhen(LeechSeed in fx, s2, "leechseed");
    RemoveWhenNoDup(Taunt in fx, s, "taunt");
    RemoveWhenNoDup(Encore in fx, s1, "encore");
    RemoveWhenNoDup(LeechSeed in fx, s2, "leechseed");
    RemoveEachWhenNoDup(OpponentTrapped(b), s3, TrappingMoves);
  }

  /** With no repeats among the legal moves, the damage-map keys and the
      switch actions, the overrides return a list without repeats. */
  lemma OverrideRuleNoDup(b: Battle, o: Oracle, legal: seq<string>, dm: DamageMap)
    requires NoDup(legal) && DistinctKeys(dm) && NoDup(AllSwitchIds(b))
    ensures NoDup(OverrideRule(b, o, legal, dm))
  {
    ViableSwitchesNoDup(b, o, AllSwitchIds(b));
    KoMovesNoDup(dm, 2.0);
    KoMovesNoDup(dm, 2.5);
  }

  // ---------------------------------------------------------------------
  // Move names that are no switch action

  /** A name that does not begin with "swi" is no switch action. */
  lemma NotSwitch(m: string)
    requires |m| > 2 && (m[0] != 's' || m[1] != 'w' || m[2] != 'i')
    ensures !IsSwitch(m)
  {
    if |m| >= |SwitchPrefix| {
      var head := m[..|SwitchPrefix|];
      assert head[0] == m[0] && head[1] == m[1] && head[2] == m[2];
    }
  }

  lemma HealingMovesNotSwitches()
    ensures forall m :: m in HealingMoves ==> !IsSwitch(m) && m != "sleeptalk"
  {
    forall m | m in HealingMoves ensures !IsSwitch(m) && m != "sleeptalk" {
      NotSwitch(m);
    }
  }

  lemma RechargeMovesNotSwitches()
    ensures forall m :: m in RechargeMoves ==> !IsSwitch(m)
  {
    forall m | m in RechargeMoves ensures !IsSwitch(m) {
      NotSwitch(m);
    }
  }

  // ---------------------------------------------------------------------
  // Single rules

  /** Rule 1: at two thirds of HP or more no healing move is left, and no
      later rule of the first stage brings one back. */
  lemma HealingMovesDropped(b: Battle, s: seq<string>)
    requires NoDup(s) && b.active.hp >= 0.66
    ensures forall m :: m in HealingMoves ==> m !in Rules1To4(b, s)
  {
    RemoveEachNoDup(s, HealingMoves);
  }

  /** Rule 2: Spikes go once three layers are up, Toxic Spikes once two
      are, and each stays otherwise. */
  lemma HazardStackLimits(b: Battle, s: seq<string>)
    requires NoDup(s)
    ensures "spikes" in ConditionRule(b, s) <==> "spikes" in s && Count(b.opponentSideConditions, Spikes) < 3
    ensures "toxicspikes" in ConditionRule(b, s) <==> "toxicspikes" in s && Count(b.opponentSideConditions, ToxicSpikes) < 2
  {
    var opp := b.opponentSideConditions;
    var s1 := RemoveWhen(StealthRock in opp, s, "stealthrock");
    RemoveWhenNoDup(StealthRock in opp, s, "stealthrock");
    var s2 := RemoveWhen(Count(opp, Spikes) >= 3, s1, "spikes");
    RemoveWhenNoDup(Count(opp, Spikes) >= 3, s1, "spikes");
    var s3 := RemoveWhen(Count(opp, ToxicSpikes) >= 2, s2, "toxicspikes");
    RemoveWhenNoDup(Count(opp, ToxicSpikes) >= 2, s2, "toxicspikes");
    assert OpponentHazardRule(b, s) == RemoveWhen(StickyWeb in opp, s3, "stickyweb");
  }

  /** Rule 10, as the first stage after rule 5 ends: awake, no Sleep Talk is
      left; asleep with Sleep Talk usable, Sleep Talk first and then only
      switch actions, and the filter goes on; asleep otherwise, the filter
      ends on switch actions alone. */
  lemma SleepOutcomes(b: Battle, legal: seq<string>, dm: DamageMap, s: seq<string>)
    requires NoDup(s)
    ensures b.active.status != Slp ==>
              Rules6To10(b, legal, dm, s).Continue? && "sleeptalk" !in Rules6To10(b, legal, dm, s).actions
    ensures b.active.status == Slp && b.active.statusCounter <= 1 && "sleeptalk" in legal ==>
              var r := Rules6To10(b, legal, dm, s);
              r.Continue? && |r.actions| >= 1 && r.actions[0] == "sleeptalk"
              && forall y :: y in r.actions[1..] ==> IsSwitch(y) && y in s
    ensures b.active.status == Slp && !(b.active.statusCounter <= 1 && "sleeptalk" in legal) ==>
              var r := Rules6To10(b, legal, dm, s);
              r.Return? && forall y :: y in r.actions ==> IsSwitch(y) && y in s
  {
    var s1 := DropAttacks(DropAttacks(s, dm, b.availableMoves, Immune), dm, b.availableMoves, Feeble);
    var s2 := RepeatEffectRule(b, SleepClauseRule(b, s1));
    DropAttacksNoDup(s, dm, b.availableMoves, Immune);
    DropAttacksNoDup(DropAttacks(s, dm, b.availableMoves, Immune), dm, b.availableMoves, Feeble);
    RemoveEachWhenNoDup(OpponentTeamAsleep(b), s1, SleepMoves);
    RepeatEffectNoDup(b, SleepClauseRule(b, s1));
    RemoveNoDup(s2, "sleeptalk");
    if b.active.status == Slp && b.active.statusCounter <= 1 && "sleeptalk" in legal {
      assert Rules6To10(b, legal, dm, s).actions[1..] == SwitchesOf(s2);
    }
  }

  /** Rule 25: no recharge move survives rules 25 and 26. */
  lemma RechargeMovesDropped(b: Battle, o: Oracle, dm: DamageMap, s: seq<string>)
    requires NoDup(s)
    ensures forall m :: m in RechargeMoves ==> m !in Rules25To26(b, o, dm, s).actions
  {
    RemoveEachNoDup(s, RechargeMoves);
    RechargeMovesNotSwitches();
    AllSwitchIdsAreSwitches(b);
    assert Rules25To26(b, o, dm, s) == LockedInRule(b, o, dm, RechargeRule(s));
  }

  /** Rule 18's sun check removes nothing: the sun-boosted healing moves
      survive rules 16-20 whatever the weather. */
  lemma SunHealingKept(b: Battle, lastMove: Option<string>, dm: DamageMap, s: seq<string>)
    ensures forall m :: m in ["synthesis", "moonlight", "morningsun"] ==> (m in Rules16To20(b, lastMove, dm, s) <==> m in s)
  {
    forall m | m in ["synthesis", "moonlight", "morningsun"]
      ensures m in Rules16To20(b, lastMove, dm, s) <==> m in s
    {
      assert m !in PivotMoves && m !in ProtectMoves && m !in WeatherMoves && m != "knockoff";
      Rules16To20Keeps(b, lastMove, dm, s, m);
    }
  }

  /** Rules 16-20 only touch the pivot, protection and weather moves and
      Knock Off. */
  lemma Rules16To20Keeps(b: Battle, lastMove: Option<string>, dm: DamageMap, s: seq<string>, m: string)
    requires m !in PivotMoves && m !in ProtectMoves && m !in WeatherMoves && m != "knockoff"
    ensures m in Rules16To20(b, lastMove, dm, s) <==> m in s
  {
    var s1 := RemoveEachWhen(|b.team| == 1, s, PivotMoves);
    var s2 := RemoveEachWhen(lastMove.Some? && lastMove.value in ProtectMoves, s1, ProtectMoves);
    var s3 := WeatherRule(b, s2);
    assert m in s1 <==> m in s;
    assert m in s2 <==> m in s1;
    assert m in s3 <==> m in s2;
  }

  // ---------------------------------------------------------------------
  // The whole filter

  /** The filter never invents an action: whatever it returns is a legal
      action, a damage-map id (from the overrides) or a switch action. */
  lemma FilteredActionsWithin(b: Battle, o: Oracle, lastMove: Option<string>, legal: seq<string>, dm: DamageMap)
    ensures forall y :: y in FilteredActions(b, o, lastMove, legal, dm) ==> y in legal || y in Keys(dm) || y in AllSwitchIds(b)
  {
    MortalPerilWithin(b, o, legal, dm);
    KoMovesKeys(dm, 2.5);
  }

  /** Past rules 0-4 the filter only removes, apart from switch actions and
      Sleep Talk. */
  lemma FilteredActionsSources(b: Battle, o: Oracle, lastMove: Option<string>, legal: seq<string>, dm: DamageMap)
    ensures forall y :: y in FilteredActions(b, o, lastMove, legal, dm) ==>
              y in Rules1To4(b, OverrideRule(b, o, legal, dm)) || y in AllSwitchIds(b) || y == "sleeptalk"
  {
    var st1 := Rules0To5(b, o, legal, dm);
    if st1.Continue? {
      assert FilteredActions(b, o, lastMove, legal, dm) == FromRule6(b, o, lastMove, legal, dm, st1.actions);
    }
  }

  /** At two thirds of HP or more the filter never returns a healing move,
      as long as neither the legal moves, the damage-map keys nor the switch
      actions repeat. */
  lemma HighHpNeverHeals(b: Battle, o: Oracle, lastMove: Option<string>, legal: seq<string>, dm: DamageMap)
    requires b.active.hp >= 0.66
    requires NoDup(legal) && DistinctKeys(dm) && NoDup(AllSwitchIds(b))
    ensures forall m :: m in HealingMoves ==> m !in FilteredActions(b, o, lastMove, legal, dm)
  {
    OverrideRuleNoDup(b, o, legal, dm);
    HealingMovesDropped(b, OverrideRule(b, o, legal, dm));
    HealingMovesNotSwitches();
    AllSwitchIdsAreSwitches(b);
    FilteredActionsSources(b, o, lastMove, legal, dm);
  }

  /** Locked into a single move the opponent resists, the filter ends on
      the viable switches, or on the first stage's list when none is
      viable; with any Pokémon to switch to, that is a non-empty list of
      switch actions. */
  lemma LockedIntoResistedMove(b: Battle, o: Oracle, lastMove: Option<string>, legal: seq<string>, dm: DamageMap)
    requires |b.availableMoves| == 1 && o.moveMultiplier(b.opponent, b.availableMoves[0]) < 1.0
    ensures var viable := ViableSwitches(b, o, AllSwitchIds(b));
            FilteredActions(b, o, lastMove, legal, dm)
              == if viable == [] then Rules1To4(b, OverrideRule(b, o, legal, dm)) else viable
    ensures b.availableSwitches != [] ==>
              var r := FilteredActions(b, o, lastMove, legal, dm);
              r != [] && forall y :: y in r ==> y in AllSwitchIds(b)
  {
    if b.availableSwitches != [] {
      ViableSwitchesNonEmpty(b, o, AllSwitchIds(b));
      ViableSwitchesWithin(b, o, AllSwitchIds(b));
    }
  }
}
