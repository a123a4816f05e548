/** `filter_suboptimal_switches`: drops switch actions whose Pokémon is weak
    to what the opponent has shown, unless that would drop them all. */
module SwitchFilter {
  import opened BattleState
  import opened ActionLists

  /** Whether the Pokémon named by a switch action is weak to the opponent:
      to a revealed damaging move when the opponent has revealed any, to one
      of its types otherwise. An action naming no available Pokémon is never
      weak. */
  predicate IsWeakSwitch(b: Battle, o: Oracle, option: string): (r: bool)
    ensures r ==> FindSpecies(b.availableSwitches, StripSwitchPrefix(option)).Some?
  {
    match FindSpecies(b.availableSwitches, StripSwitchPrefix(option))
    case None => false
    case Some(p) =>
      if |b.opponent.moves| > 0 then
        exists m :: m in b.opponent.moves && m.category != StatusMove && o.moveMultiplier(p, m) > 1.0
      else
        exists t :: t in b.opponent.types && o.typeMultiplier(p, t) > 1.0
  }

  /** `switches_to_remove`: the weak options, in input order. */
  function WeakOptions(b: Battle, o: Oracle, options: seq<string>): (r: seq<string>)
    ensures |r| <= |options|
    ensures forall x :: x in r <==> x in options && IsWeakSwitch(b, o, x)
  {
    if options == [] then []
    else (if IsWeakSwitch(b, o, options[0]) then [options[0]] else []) + WeakOptions(b, o, options[1..])
  }

  /** The result of the filter. */
  function ViableSwitches(b: Battle, o: Oracle, options: seq<string>): (r: seq<string>)
    ensures forall x :: x in r ==> x in options
    ensures r == [] <==> options == []
  {
    if options == [] then []
    else
      var weak := WeakOptions(b, o, options);
      AllWeakByCount(b, o, options);
      if |weak| == |options| then options else Without(options, weak)
  }

  /** Lines 925-964 as the engine runs them. */
  method FilterSuboptimalSwitches(b: Battle, o: Oracle, options: seq<string>) returns (r: seq<string>)
    ensures r == ViableSwitches(b, o, options)
  {
    if options == [] {
      return [];
    }
    var switchesToRemove: seq<string> := [];
    var i := 0;
    while i < |options|
      invariant 0 <= i <= |options|
      invariant switchesToRemove + WeakOptions(b, o, options[i..]) == WeakOptions(b, o, options)
    {
      assert options[i..][0] == options[i] && options[i..][1..] == options[i + 1..];
      if IsWeakSwitch(b, o, options[i]) {
        switchesToRemove := switchesToRemove + [options[i]];
      }
      i := i + 1;
    }
    assert options[i..] == [];
    assert switchesToRemove + [] == switchesToRemove;
    assert switchesToRemove == WeakOptions(b, o, options);
    if |switchesToRemove| == |options| {
      return options;
    }
    r := Without(options, switchesToRemove);
  }

  // ---------------------------------------------------------------------

  /** Every option is weak exactly when the weak list is as long as the
      input. */
  lemma {:induction false} AllWeakByCount(b: Battle, o: Oracle, options: seq<string>)
    ensures |WeakOptions(b, o, options)| == |options| <==> forall x :: x in options ==> IsWeakSwitch(b, o, x)
  {
    if options != [] {
      AllWeakByCount(b, o, options[1..]);
      assert options == [options[0]] + options[1..];
      if !IsWeakSwitch(b, o, options[0]) {
        assert |WeakOptions(b, o, options[1..])| <= |options[1..]|;
      }
    }
  }

  /** The filter's result, member by member: nothing when there was
      nothing, the whole input when every option is weak, otherwise exactly
      the options that are not weak. */
  lemma ViableSwitchesMembers(b: Battle, o: Oracle, options: seq<string>)
    ensures options == [] ==> ViableSwitches(b, o, options) == []
    ensures (forall x :: x in options ==> IsWeakSwitch(b, o, x)) ==> ViableSwitches(b, o, options) == options
    ensures (exists x :: x in options && !IsWeakSwitch(b, o, x)) ==>
              ViableSwitches(b, o, options) == Without(options, WeakOptions(b, o, options))
              && forall x :: x in ViableSwitches(b, o, options) <==> x in options && !IsWeakSwitch(b, o, x)
  {
    AllWeakByCount(b, o, options);
  }

  /** A non-empty input never comes back empty. */
  lemma ViableSwitchesNonEmpty(b: Battle, o: Oracle, options: seq<string>)
    requires options != []
    ensures ViableSwitches(b, o, options) != []
  {
    AllWeakByCount(b, o, options);
    if |WeakOptions(b, o, options)| != |options| {
      var x :| x in options && !IsWeakSwitch(b, o, x);
      assert x in ViableSwitches(b, o, options);
    }
  }

  /** The filter only ever keeps options it was given. */
  lemma ViableSwitchesWithin(b: Battle, o: Oracle, options: seq<string>)
    ensures forall x :: x in ViableSwitches(b, o, options) ==> x in options
  {
  }

  /** The filter keeps an option list free of repeats. */
  lemma ViableSwitchesNoDup(b: Battle, o: Oracle, options: seq<string>)
    requires NoDup(options)
    ensures NoDup(ViableSwitches(b, o, options))
  {
    WithoutNoDup(options, WeakOptions(b, o, options));
  }

  /** An option naming no available Pokémon always survives. */
  lemma UnknownSpeciesKept(b: Battle, o: Oracle, options: seq<string>, x: string)
    requires x in options
    requires FindSpecies(b.availableSwitches, StripSwitchPrefix(x)).None?
    ensures x in ViableSwitches(b, o, options)
  {
    AllWeakByCount(b, o, options);
  }
}
