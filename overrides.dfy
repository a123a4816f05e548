/** The two overrides that replace the whole candidate list: the
    mortal-peril alert (switch out or go for the KO when a knock-out threat
    is visible) and step-on-throat (take the KO when the opponent is low). */
module Overrides {
  import opened BattleState
  import opened ActionLists
  import opened TurnOrder
  import opened SwitchFilter

  /** `[id for id, info in damage_map.items() if info['expected_damage'] >= threshold]` */
  function KoMoves(dm: DamageMap, threshold: real): (r: seq<string>)
    ensures |r| <= |dm|
    ensures forall id :: id in r <==> exists e :: e in dm && e.id == id && e.info.expectedDamage >= threshold
    ensures r == [] <==> forall e :: e in dm ==> e.info.expectedDamage < threshold
  {
    if dm == [] then []
    else (if dm[0].info.expectedDamage >= threshold then [dm[0].id] else []) + KoMoves(dm[1..], threshold)
  }

  /** A revealed move that hits our active Pokémon four times over, or, with
      nothing revealed, an opponent type it is weak to. */
  predicate HasKoThreat(b: Battle, o: Oracle): (r: bool)
    ensures |b.opponent.moves| > 0 ==> (r <==> exists m :: m in b.opponent.moves && o.moveMultiplier(b.active, m) == 4.0)
    ensures |b.opponent.moves| == 0 ==> (r <==> exists t :: t in b.opponent.types && o.typeMultiplier(b.active, t) > 1.0)
    ensures r ==> b.opponent.moves != [] || b.opponent.types != []
  {
    if |b.opponent.moves| > 0 then
      exists m :: m in b.opponent.moves && o.moveMultiplier(b.active, m) == 4.0
    else
      exists t :: t in b.opponent.types && o.typeMultiplier(b.active, t) > 1.0
  }

  /** `mortal_peril_alert(battle, legal_actions, damage_info)` */
  function MortalPerilAlert(b: Battle, o: Oracle, legal: seq<string>, dm: DamageMap): (r: seq<string>)
    ensures !HasKoThreat(b, o) ==> r == legal
    ensures HasKoThreat(b, o) ==> forall y :: y in r ==> y in AllSwitchIds(b) || exists e :: e in dm && e.id == y && e.info.expectedDamage >= 2.0
  {
    if !HasKoThreat(b, o) then legal
    else
      var viable := ViableSwitches(b, o, AllSwitchIds(b));
      if !MovesFirst(b) then viable
      else
        var ko := KoMoves(dm, 2.0);
        if |ko| == 0 then viable else ko
  }

  /** `step_on_throat(battle, legal_actions, damage_info)` */
  function StepOnThroat(b: Battle, legal: seq<string>, dm: DamageMap): (r: seq<string>)
    ensures !MovesFirst(b) ==> r == legal
    ensures r != legal ==> r != [] && forall y :: y in r ==> exists e :: e in dm && e.id == y && e.info.expectedDamage >= 2.5
  {
    if !MovesFirst(b) then legal
    else
      var ko := KoMoves(dm, 2.5);
      if ko != [] then ko else legal
  }

  // ---------------------------------------------------------------------

  /** The three outcomes of the alert: the input when there is no threat;
      the viable switches when we do not move first or nothing reaches 2;
      otherwise exactly the damage-map ids reaching 2. */
  lemma MortalPerilOutcomes(b: Battle, o: Oracle, legal: seq<string>, dm: DamageMap)
    ensures !HasKoThreat(b, o) ==> MortalPerilAlert(b, o, legal, dm) == legal
    ensures HasKoThreat(b, o) && (!MovesFirst(b) || forall e :: e in dm ==> e.info.expectedDamage < 2.0) ==>
              MortalPerilAlert(b, o, legal, dm) == ViableSwitches(b, o, AllSwitchIds(b))
    ensures HasKoThreat(b, o) && MovesFirst(b) && (exists e :: e in dm && e.info.expectedDamage >= 2.0) ==>
              forall id :: id in MortalPerilAlert(b, o, legal, dm)
                <==> exists e :: e in dm && e.id == id && e.info.expectedDamage >= 2.0
  {
    if HasKoThreat(b, o) && MovesFirst(b) && (exists e :: e in dm && e.info.expectedDamage >= 2.0) {
      var e :| e in dm && e.info.expectedDamage >= 2.0;
      assert e.id in KoMoves(dm, 2.0);
    }
  }

  /** Whatever the alert returns is a legal action, a damage-map id or a
      switch action. */
  lemma MortalPerilWithin(b: Battle, o: Oracle, legal: seq<string>, dm: DamageMap)
    ensures Within(MortalPerilAlert(b, o, legal, dm), legal, Keys(dm) + AllSwitchIds(b))
  {
    ViableSwitchesWithin(b, o, AllSwitchIds(b));
    KoMovesKeys(dm, 2.0);
  }

  /** The KO list holds damage-map keys only. */
  lemma KoMovesKeys(dm: DamageMap, threshold: real)
    ensures forall id :: id in KoMoves(dm, threshold) ==> id in Keys(dm)
  {
    forall id | id in KoMoves(dm, threshold) ensures id in Keys(dm) {
      var e :| e in dm && e.id == id && e.info.expectedDamage >= threshold;
      var k :| 0 <= k < |dm| && dm[k] == e;
      assert Keys(dm)[k] == id;
    }
  }

  /** With distinct keys, the KO list has no repeats. */
  lemma {:induction false} KoMovesNoDup(dm: DamageMap, threshold: real)
    requires DistinctKeys(dm)
    ensures NoDup(KoMoves(dm, threshold))
  {
    if dm != [] {
      assert Keys(dm) == [dm[0].id] + Keys(dm[1..]);
      NoDupCons(dm[0].id, Keys(dm[1..]));
      KoMovesNoDup(dm[1..], threshold);
      KoMovesKeys(dm[1..], threshold);
      if dm[0].info.expectedDamage >= threshold {
        NoDupCons(dm[0].id, KoMoves(dm[1..], threshold));
      } else {
        assert KoMoves(dm, threshold) == KoMoves(dm[1..], threshold);
      }
    }
  }

  /** Step-on-throat keeps its input unless we move first and some id
      reaches 2.5, and then returns exactly those ids. */
  lemma StepOnThroatOutcomes(b: Battle, legal: seq<string>, dm: DamageMap)
    ensures (!MovesFirst(b) || forall e :: e in dm ==> e.info.expectedDamage < 2.5) ==>
              StepOnThroat(b, legal, dm) == legal
    ensures MovesFirst(b) && (exists e :: e in dm && e.info.expectedDamage >= 2.5) ==>
              forall id :: id in StepOnThroat(b, legal, dm)
                <==> exists e :: e in dm && e.id == id && e.info.expectedDamage >= 2.5
  {
    if MovesFirst(b) && (exists e :: e in dm && e.info.expectedDamage >= 2.5) {
      var e :| e in dm && e.info.expectedDamage >= 2.5;
      assert e.id in KoMoves(dm, 2.5);
    }
  }

  /** A KO list at threshold 2.5 is part of the one at 2: step-on-throat
      never picks a move the alert would not also pick. */
  lemma {:induction false} KoMovesNested(dm: DamageMap, lo: real, hi: real)
    requires lo <= hi
    ensures Within(KoMoves(dm, hi), KoMoves(dm, lo), [])
  {
    forall id | id in KoMoves(dm, hi) ensures id in KoMoves(dm, lo) {
      var e :| e in dm && e.id == id && e.info.expectedDamage >= hi;
    }
  }
}
