/** The player object: its memory of the last move used and of a switch on
    the previous turn, the best-damage fallback, and the turn decision that
    offers the filtered actions to the decision-maker and accepts the first
    usable answer. The decision-maker's answers are an input. */
module Player {
  import opened BattleState
  import opened ActionLists
  import opened Sanitize
  import opened Damage
  import opened SwitchFilter
  import opened MoveFilter
  import opened FilterProperties

  /** What the player sends for the turn. `RandomMove` is the battle
      library's random move; `RandomSwitch` is `random.choice` over the
      available switches. */
  datatype Order = Pass | UseMove(move: Move) | SwitchTo(pokemon: Pokemon) | RandomMove | RandomSwitch

  /** The order together with the player's memory after the turn. */
  datatype Turn = Turn(order: Order, lastMove: Option<string>, justSwitched: bool)

  /** An accepted answer: a Pokémon to switch to or a move to use. */
  datatype Pick = PickSwitch(pokemon: Pokemon) | PickMove(move: Move)

  /** How many times the decision-maker is asked. */
  const MaxRetries: nat := 3

  // ---------------------------------------------------------------------
  // The best-damage fallback

  /** The highest expected damage in the map, and -1 when no entry exceeds
      -1 (the running maximum's start value). */
  function MaxDamage(dm: DamageMap): (r: real)
    ensures r >= -1.0
    ensures forall j :: 0 <= j < |dm| ==> dm[j].info.expectedDamage <= r
    ensures r == -1.0 || exists j :: 0 <= j < |dm| && dm[j].info.expectedDamage == r
    decreases |dm|
  {
    if dm == [] then -1.0
    else
      var m := MaxDamage(dm[..|dm| - 1]);
      var d := dm[|dm| - 1].info.expectedDamage;
      if d > m then d else m
  }

  /** The id of the first entry whose expected damage is `v`. */
  function FirstReaching(dm: DamageMap, v: real): (r: Option<string>)
    ensures r.None? <==> forall j :: 0 <= j < |dm| ==> dm[j].info.expectedDamage != v
    ensures r.Some? ==> exists k :: 0 <= k < |dm| && dm[k].info.expectedDamage == v && dm[k].id == r.value
                                   && forall j :: 0 <= j < k ==> dm[j].info.expectedDamage != v
    decreases |dm|
  {
    if dm == [] then None
    else
      var init := dm[..|dm| - 1];
      var r := FirstReaching(init, v);
      if r.Some? then r
      else if dm[|dm| - 1].info.expectedDamage == v then Some(dm[|dm| - 1].id)
      else None
  }

  /** The reference choice: the first id reaching the maximum, when that
      maximum exceeds -1. */
  function BestDamageId(dm: DamageMap): (r: Option<string>)
    ensures r.Some? ==> r.value in Keys(dm)
    ensures r.None? <==> forall e :: e in dm ==> e.info.expectedDamage <= -1.0
  {
    var v := MaxDamage(dm);
    if v > -1.0 then FirstReaching(dm, v) else None
  }

  /** Entry `k` beats -1, every entry before it is strictly lower and no
      entry after it is higher. */
  ghost predicate IsFirstMaximum(dm: DamageMap, k: int) {
    && 0 <= k < |dm|
    && dm[k].info.expectedDamage > -1.0
    && (forall j :: 0 <= j < k ==> dm[j].info.expectedDamage < dm[k].info.expectedDamage)
    && (forall j :: k < j < |dm| ==> dm[j].info.expectedDamage <= dm[k].info.expectedDamage)
  }

  /** The loop of lines 972-976: a strict `>` against a running maximum
      that starts at -1. */
  method BestDamageMove(dm: DamageMap) returns (best: Option<string>, maxDamage: real)
    ensures best == BestDamageId(dm)
    ensures maxDamage == MaxDamage(dm)
  {
    best := None;
    maxDamage := -1.0;
    for i := 0 to |dm|
      invariant maxDamage == MaxDamage(dm[..i])
      invariant best == BestDamageId(dm[..i])
    {
      assert dm[..i + 1] == dm[..i] + [dm[i]];
      BestDamageStep(dm[..i], dm[i]);
      if dm[i].info.expectedDamage > maxDamage {
        maxDamage := dm[i].info.expectedDamage;
        best := Some(dm[i].id);
      }
    }
    assert dm[..|dm|] == dm;
  }

  /** One more entry: it becomes the choice exactly when it beats the
      maximum so far. */
  lemma BestDamageStep(dm: DamageMap, e: Entry)
    ensures var d := e.info.expectedDamage;
            MaxDamage(dm + [e]) == (if d > MaxDamage(dm) then d else MaxDamage(dm))
    ensures BestDamageId(dm + [e]) == (if e.info.expectedDamage > MaxDamage(dm) then Some(e.id) else BestDamageId(dm))
  {
    var all := dm + [e];
    assert all[..|all| - 1] == dm;
    var v, d := MaxDamage(dm), e.info.expectedDamage;
    if d <= v && v > -1.0 {
      var k :| 0 <= k < |dm| && dm[k].info.expectedDamage == v;
      assert FirstReaching(dm, v).Some?;
    }
  }

  /** The reference choice is the first maximal entry above -1, and there
      is none exactly when every entry is at most -1. */
  lemma BestDamageIsFirstMaximum(dm: DamageMap)
    ensures BestDamageId(dm).None? <==> forall j :: 0 <= j < |dm| ==> dm[j].info.expectedDamage <= -1.0
    ensures BestDamageId(dm).Some? ==> exists k :: IsFirstMaximum(dm, k) && dm[k].id == BestDamageId(dm).value
  {
    var v := MaxDamage(dm);
    if v > -1.0 {
      var k :| 0 <= k < |dm| && dm[k].info.expectedDamage == v && dm[k].id == FirstReaching(dm, v).value
               && forall j :: 0 <= j < k ==> dm[j].info.expectedDamage != v;
      assert IsFirstMaximum(dm, k);
    }
  }

  /** The chosen id is a key of the map. */
  lemma BestDamageIdIsKey(dm: DamageMap)
    ensures BestDamageId(dm).Some? ==> BestDamageId(dm).value in Keys(dm)
  {
    BestDamageIsFirstMaximum(dm);
    if BestDamageId(dm).Some? {
      var k :| IsFirstMaximum(dm, k) && dm[k].id == BestDamageId(dm).value;
      assert Keys(dm)[k] == dm[k].id;
    }
  }

  /** With no negative estimate, an empty map is the only one without a
      choice. */
  lemma BestDamageFoundUnlessEmpty(dm: DamageMap)
    requires forall j :: 0 <= j < |dm| ==> dm[j].info.expectedDamage >= 0.0
    ensures BestDamageId(dm).None? <==> dm == []
  {
    BestDamageIsFirstMaximum(dm);
    if dm != [] {
      assert dm[0].info.expectedDamage > -1.0;
    }
  }

  lemma FindMoveById(ms: seq<Move>, id: string)
    requires id in MoveIds(ms)
    ensures FindMove(ms, id).Some?
  {
    var k :| 0 <= k < |MoveIds(ms)| && MoveIds(ms)[k] == id;
    assert ms[k].id == id;
  }

  /** The id the fallback picks from the turn's damage map names an
      available move. */
  lemma FallbackIdIsMove(b: Battle, o: Oracle, lastMove: Option<string>)
    ensures var best := BestDamageId(DamageMapOf(b, o, lastMove, b.availableMoves));
            best.Some? ==> FindMove(b.availableMoves, best.value).Some?
  {
    var dm := DamageMapOf(b, o, lastMove, b.availableMoves);
    TabulateKeys(b.availableMoves, (m: Move) => Estimate(b, o, lastMove, m));
    BestDamageIdIsKey(dm);
    if BestDamageId(dm).Some? {
      FindMoveById(b.availableMoves, BestDamageId(dm).value);
    }
  }

  /** `select_best_damage_move` on the player's memory: the move with the
      first highest estimate, remembered as the last move, or a random move
      when no id was found (an empty id counts as none). */
  function BestDamageFallback(b: Battle, o: Oracle, lastMove: Option<string>, justSwitched: bool): (r: Turn)
    ensures r.justSwitched == justSwitched
    ensures r.order.UseMove? || r.order.RandomMove?
    ensures r.order.UseMove? ==> r.order.move in b.availableMoves && r.lastMove == Some(r.order.move.id)
    ensures r.order.RandomMove? ==> r.lastMove == lastMove
  {
    var best := BestDamageId(DamageMapOf(b, o, lastMove, b.availableMoves));
    if best.Some? && best.value != "" then
      FallbackIdIsMove(b, o, lastMove);
      var m := FindMove(b.availableMoves, best.value).value;
      Turn(UseMove(m), Some(m.id), justSwitched)
    else
      Turn(RandomMove, lastMove, justSwitched)
  }

  /** Every entry of a tabulated map is the value computed for one of the
      moves. */
  lemma {:induction false} TabulateEntries(ms: seq<Move>, f: Move -> DamageInfo)
    ensures forall e :: e in Tabulate(ms, f) ==> exists m :: m in ms && e.info == f(m)
    decreases |ms|
  {
    if ms != [] {
      var init := ms[..|ms| - 1];
      TabulateEntries(init, f);
      PutEntries(Tabulate(init, f), ms[|ms| - 1].id, f(ms[|ms| - 1]));
    }
  }

  lemma {:induction false} PutEntries(dm: DamageMap, id: string, info: DamageInfo)
    ensures forall e :: e in Put(dm, id, info) ==> e in dm || e == Entry(id, info)
  {
    if dm != [] && dm[0].id != id {
      PutEntries(dm[1..], id, info);
    }
  }

  /** With non-negative type multipliers, accuracies and base powers, no
      entry of the turn's damage map is negative. */
  lemma DamageMapNonNegative(b: Battle, o: Oracle, lastMove: Option<string>)
    requires NonNegative(o)
    requires forall m :: m in b.availableMoves ==> m.accuracy >= 0.0 && m.basePower >= 0
    ensures var dm := DamageMapOf(b, o, lastMove, b.availableMoves);
            forall j :: 0 <= j < |dm| ==> dm[j].info.expectedDamage >= 0.0
  {
    var f := (m: Move) => Estimate(b, o, lastMove, m);
    var dm := DamageMapOf(b, o, lastMove, b.availableMoves);
    TabulateEntries(b.availableMoves, f);
    forall j | 0 <= j < |dm| ensures dm[j].info.expectedDamage >= 0.0 {
      var m :| m in b.availableMoves && dm[j].info == f(m);
      EstimateNonNegative(b, o, lastMove, m);
    }
  }

  /** With non-negative type multipliers, accuracies and base powers, and
      no empty move id, the fallback plays a random move only when no move
      is available. */
  lemma FallbackRandomOnlyWithoutMoves(b: Battle, o: Oracle, lastMove: Option<string>, justSwitched: bool)
    requires NonNegative(o)
    requires forall m :: m in b.availableMoves ==> m.accuracy >= 0.0 && m.basePower >= 0 && m.id != ""
    ensures BestDamageFallback(b, o, lastMove, justSwitched).order.RandomMove? <==> b.availableMoves == []
  {
    var dm := DamageMapOf(b, o, lastMove, b.availableMoves);
    TabulateKeys(b.availableMoves, (m: Move) => Estimate(b, o, lastMove, m));
    DamageMapNonNegative(b, o, lastMove);
    BestDamageFoundUnlessEmpty(dm);
    BestDamageIdIsKey(dm);
    if BestDamageId(dm).Some? {
      var id := BestDamageId(dm).value;
      var k :| 0 <= k < |MoveIds(b.availableMoves)| && MoveIds(b.availableMoves)[k] == id;
      assert b.availableMoves[k].id == id;
    }
  }

  // ---------------------------------------------------------------------
  // The answers

  /** The answer to the `i`-th query; a query past the given answers gets
      none. */
  function Response(responses: seq<Option<string>>, i: nat): Option<string> {
    if i < |responses| then responses[i] else None
  }

  /** Lines 1199-1228 for one answer: a non-empty answer, once sanitized,
      must be one of the offered actions and name an available Pokémon
      (for a switch action) or an available move. */
  function Accept(b: Battle, legal: seq<string>, response: Option<string>): (r: Option<Pick>)
    ensures r.Some? ==> response.Some? && SanitizeResponse(response.value) in legal
    ensures r.Some? && r.value.PickSwitch? ==>
              var c := SanitizeResponse(response.value);
              IsSwitch(c) && r.value.pokemon in b.availableSwitches && Normalize(r.value.pokemon.species) == StripSwitchPrefix(c)
    ensures r.Some? && r.value.PickMove? ==>
              var c := SanitizeResponse(response.value);
              !IsSwitch(c) && r.value.move in b.availableMoves && r.value.move.id == c
  {
    if response.None? || response.value == "" then None
    else
      var c := SanitizeResponse(response.value);
      if c !in legal then None
      else if IsSwitch(c) then
        match FindSpecies(b.availableSwitches, StripSwitchPrefix(c))
        case Some(p) => Some(PickSwitch(p))
        case None => None
      else
        match FindMove(b.availableMoves, c)
        case Some(m) => Some(PickMove(m))
        case None => None
  }

  /** What each of the `MaxRetries` queries yields, in order. */
  function Answers(b: Battle, legal: seq<string>, responses: seq<Option<string>>): (r: seq<Option<Pick>>)
    ensures |r| == MaxRetries
    ensures forall k :: 0 <= k < MaxRetries ==> r[k] == Accept(b, legal, Response(responses, k))
  {
    seq(MaxRetries, k requires 0 <= k => Accept(b, legal, Response(responses, k)))
  }

  /** The first pick at or after position `i`. */
  function FirstSome(picks: seq<Option<Pick>>, i: nat): Option<Pick>
    decreases |picks| - i
  {
    if i >= |picks| then None
    else if picks[i].Some? then picks[i]
    else FirstSome(picks, i + 1)
  }

  /** The first accepted answer among the `MaxRetries` queries. */
  function FirstAccepted(b: Battle, legal: seq<string>, responses: seq<Option<string>>): (r: Option<Pick>)
    ensures r.Some? ==> exists k :: 0 <= k < MaxRetries && Accept(b, legal, Response(responses, k)) == r
    ensures r.None? <==> forall k :: 0 <= k < MaxRetries ==> Accept(b, legal, Response(responses, k)).None?
  {
    FirstSomeIndex(Answers(b, legal, responses), 0);
    FirstSomeNone(Answers(b, legal, responses), 0);
    FirstSome(Answers(b, legal, responses), 0)
  }

  /** There is no pick exactly when every position from `i` on is empty. */
  lemma {:induction false} FirstSomeNone(picks: seq<Option<Pick>>, i: nat)
    requires i <= |picks|
    ensures FirstSome(picks, i).None? <==> forall k :: i <= k < |picks| ==> picks[k].None?
    decreases |picks| - i
  {
    if i < |picks| {
      FirstSomeNone(picks, i + 1);
    }
  }

  /** A pick is the one at the first non-empty position from `i` on. */
  lemma {:induction false} FirstSomeIndex(picks: seq<Option<Pick>>, i: nat)
    requires i <= |picks|
    ensures FirstSome(picks, i).Some? ==>
              exists k :: i <= k < |picks| && picks[k] == FirstSome(picks, i) && forall j :: i <= j < k ==> picks[j].None?
    decreases |picks| - i
  {
    if i < |picks| && picks[i].None? && FirstSome(picks, i + 1).Some? {
      FirstSomeIndex(picks, i + 1);
      var k :| i + 1 <= k < |picks| && picks[k] == FirstSome(picks, i + 1) && forall j :: i + 1 <= j < k ==> picks[j].None?;
      assert picks[k] == FirstSome(picks, i);
    }
  }

  /** The retry loop accepts the first usable answer among the first three,
      and none exactly when all three are unusable. */
  lemma FirstAcceptedIsFirst(b: Battle, legal: seq<string>, responses: seq<Option<string>>)
    ensures FirstAccepted(b, legal, responses).None? <==>
              forall k :: 0 <= k < MaxRetries ==> Accept(b, legal, Response(responses, k)).None?
    ensures FirstAccepted(b, legal, responses).Some? ==>
              exists k :: 0 <= k < MaxRetries && Accept(b, legal, Response(responses, k)) == FirstAccepted(b, legal, responses)
                          && forall j :: 0 <= j < k ==> Accept(b, legal, Response(responses, j)).None?
  {
    var picks := Answers(b, legal, responses);
    FirstSomeNone(picks, 0);
    FirstSomeIndex(picks, 0);
    if FirstAccepted(b, legal, responses).Some? {
      var k :| 0 <= k < MaxRetries && picks[k] == FirstSome(picks, 0) && forall j :: 0 <= j < k ==> picks[j].None?;
      assert Accept(b, legal, Response(responses, k)) == FirstAccepted(b, legal, responses);
    }
  }

  /** An accepted answer names an available Pokémon or an available move. */
  lemma FirstAcceptedAvailable(b: Battle, legal: seq<string>, responses: seq<Option<string>>)
    ensures match FirstAccepted(b, legal, responses)
            case Some(PickSwitch(p)) => p in b.availableSwitches
            case Some(PickMove(m)) => m in b.availableMoves
            case None => true
  {
    FirstAcceptedIsFirst(b, legal, responses);
  }

  /** Answers after the third are never read. */
  lemma LaterAnswersIgnored(b: Battle, legal: seq<string>, responses: seq<Option<string>>, more: seq<Option<string>>)
    requires |responses| >= MaxRetries
    ensures FirstAccepted(b, legal, responses + more) == FirstAccepted(b, legal, responses)
  {
    forall k | 0 <= k < MaxRetries ensures Response(responses + more, k) == Response(responses, k) {
      assert (responses + more)[k] == responses[k];
    }
    assert Answers(b, legal, responses + more) == Answers(b, legal, responses);
  }

  /** The retry loop of lines 1195-1231. */
  method FirstValidAnswer(b: Battle, legal: seq<string>, responses: seq<Option<string>>) returns (pick: Option<Pick>)
    ensures pick == FirstAccepted(b, legal, responses)
  {
    ghost var picks := Answers(b, legal, responses);
    var i := 0;
    while i < MaxRetries
      invariant 0 <= i <= MaxRetries
      invariant FirstSome(picks, i) == FirstSome(picks, 0)
    {
      var modelResponse := Response(responses, i);
      if modelResponse.Some? && modelResponse.value != "" {
        var cleaned := SanitizeResponse(modelResponse.value);
        if cleaned in legal {
          if IsSwitch(cleaned) {
            var switchToUse := FindSpecies(b.availableSwitches, StripSwitchPrefix(cleaned));
            if switchToUse.Some? {
              return Some(PickSwitch(switchToUse.value));
            }
          } else {
            var moveToUse := FindMove(b.availableMoves, cleaned);
            if moveToUse.Some? {
              return Some(PickMove(moveToUse.value));
            }
          }
        }
      }
      i := i + 1;
    }
    return None;
  }

  // ---------------------------------------------------------------------
  // The candidate actions and the answer loop

  /** The actions offered to the decision-maker: the filtered moves, and
      after a turn that did not begin with a switch also the viable
      switches. */
  function Candidates(b: Battle, o: Oracle, lastMove: Option<string>, postSwitch: bool): (r: seq<string>)
    ensures forall y :: y in r ==> y in MoveIds(b.availableMoves) || y in AllSwitchIds(b)
  {
    TabulateKeys(b.availableMoves, (m: Move) => Estimate(b, o, lastMove, m));
    var dm := DamageMapOf(b, o, lastMove, b.availableMoves);
    var moves := FilteredActions(b, o, lastMove, MoveIds(b.availableMoves), dm);
    if postSwitch then moves else moves + ViableSwitches(b, o, AllSwitchIds(b))
  }

  /** Only real actions are offered: available move ids and switch actions
      for available Pokémon. */
  lemma CandidatesWithin(b: Battle, o: Oracle, lastMove: Option<string>, postSwitch: bool)
    ensures forall y :: y in Candidates(b, o, lastMove, postSwitch) ==> y in MoveIds(b.availableMoves) || y in AllSwitchIds(b)
  {
    var dm := DamageMapOf(b, o, lastMove, b.availableMoves);
    TabulateKeys(b.availableMoves, (m: Move) => Estimate(b, o, lastMove, m));
    FilteredActionsWithin(b, o, lastMove, MoveIds(b.availableMoves), dm);
    ViableSwitchesWithin(b, o, AllSwitchIds(b));
  }

  /** Lines 1185-1233 once the candidate list `legal` is known: no
      candidate or no usable answer falls back to the best damage move;
      otherwise the first usable answer is played. */
  function Respond(b: Battle, o: Oracle, lastMove: Option<string>, legal: seq<string>,
                   responses: seq<Option<string>>): (r: Turn)
    ensures r.order.UseMove? || r.order.SwitchTo? || r.order.RandomMove?
    ensures r.justSwitched <==> r.order.SwitchTo?
    ensures r.order.UseMove? ==> r.order.move in b.availableMoves && r.lastMove == Some(r.order.move.id)
    ensures r.order.SwitchTo? ==> r.order.pokemon in b.availableSwitches && r.lastMove == None
    ensures r.order.RandomMove? ==> r.lastMove == lastMove
    ensures r.order.UseMove? ==> r.order.move.id in legal || r == BestDamageFallback(b, o, lastMove, false)
    ensures r.order.SwitchTo? ==>
              exists c :: c in legal && IsSwitch(c) && Normalize(r.order.pokemon.species) == StripSwitchPrefix(c)
  {
    if legal == [] then BestDamageFallback(b, o, lastMove, false)
    else
      FirstAcceptedAvailable(b, legal, responses);
      match FirstAccepted(b, legal, responses)
      case Some(PickSwitch(p)) => Turn(SwitchTo(p), None, true)
      case Some(PickMove(m)) => Turn(UseMove(m), Some(m.id), false)
      case None => BestDamageFallback(b, o, lastMove, false)
  }

  // ---------------------------------------------------------------------
  // The forced replacement

  /** The replacement names of the available switches, without the
      `switch-` prefix. */
  function SpeciesNames(ps: seq<Pokemon>): (r: seq<string>)
    ensures |r| == |ps|
    ensures forall i :: 0 <= i < |ps| ==> r[i] == Normalize(ps[i].species)
  {
    if ps == [] then [] else [Normalize(ps[0].species)] + SpeciesNames(ps[1..])
  }

  /** The names offered for a forced replacement: the viable ones among
      the available switches. */
  function ReplacementNames(b: Battle, o: Oracle): seq<string> {
    ViableSwitches(b, o, SpeciesNames(b.availableSwitches))
  }

  /** There is a replacement name exactly when a Pokémon can come in, and
      every name offered belongs to one of them. */
  lemma ReplacementNamesShape(b: Battle, o: Oracle)
    ensures ReplacementNames(b, o) == [] <==> b.availableSwitches == []
    ensures forall x :: x in ReplacementNames(b, o) ==> FindSpecies(b.availableSwitches, x).Some?
  {
    var names := SpeciesNames(b.availableSwitches);
    ViableSwitchesMembers(b, o, names);
    if names != [] {
      ViableSwitchesNonEmpty(b, o, names);
    }
    ViableSwitchesWithin(b, o, names);
    forall x | x in ReplacementNames(b, o)
      ensures FindSpecies(b.availableSwitches, x).Some?
    {
      var k :| 0 <= k < |names| && names[k] == x;
      assert Normalize(b.availableSwitches[k].species) == x;
    }
  }

  /** `choose_random_switch`: a random available Pokémon with the last move
      forgotten, or the best-damage fallback when none can come in. */
  function RandomSwitchTurn(b: Battle, o: Oracle, lastMove: Option<string>, justSwitched: bool): (r: Turn)
    ensures r.order.RandomSwitch? <==> b.availableSwitches != []
    ensures r.order.RandomSwitch? ==> r.lastMove == None
    ensures r.justSwitched == justSwitched
    ensures r.order.RandomSwitch? || r.order.UseMove? || r.order.RandomMove?
    ensures r.order.UseMove? ==> r.order.move in b.availableMoves && r.lastMove == Some(r.order.move.id)
    ensures r.order.RandomMove? ==> r.lastMove == lastMove
  {
    if b.availableSwitches != [] then Turn(RandomSwitch, None, justSwitched)
    else BestDamageFallback(b, o, lastMove, justSwitched)
  }

  /** `handle_switch` on the player's memory and the one answer it asks
      for: a random move when no Pokémon can come in; the named Pokémon,
      with no last move and the switch flag up, when the sanitized answer
      is one of the viable names; a random switch, with no last move,
      otherwise. */
  function ForcedSwitch(b: Battle, o: Oracle, lastMove: Option<string>, justSwitched: bool,
                        response: Option<string>): (r: Turn)
    ensures r.order.SwitchTo? || r.order.RandomSwitch? || r.order.RandomMove?
    ensures r.order.RandomMove? <==> b.availableSwitches == []
    ensures r.order.RandomMove? ==> r.lastMove == lastMove && r.justSwitched == justSwitched
    ensures r.order.SwitchTo? <==>
              b.availableSwitches != [] && response.Some? && response.value != ""
              && SanitizeResponse(response.value) in ReplacementNames(b, o)
    ensures r.order.SwitchTo? ==>
              r.order.pokemon in b.availableSwitches && Normalize(r.order.pokemon.species) == SanitizeResponse(response.value)
              && r.lastMove == None && r.justSwitched
    ensures r.order.RandomSwitch? ==> r.lastMove == None && r.justSwitched == justSwitched
  {
    ReplacementNamesShape(b, o);
    var names := ReplacementNames(b, o);
    if names == [] then Turn(RandomMove, lastMove, justSwitched)
    else if response.Some? && response.value != "" && SanitizeResponse(response.value) in names then
      var p := FindSpecies(b.availableSwitches, SanitizeResponse(response.value)).value;
      Turn(SwitchTo(p), None, true)
    else RandomSwitchTurn(b, o, lastMove, justSwitched)
  }

  // ---------------------------------------------------------------------
  // The turn decision

  /** `choose_move` once the candidate list `legal` is known: pass while
      recharging, hand over to the forced replacement with the first
      answer, play a random move when still forced after the wait, and
      otherwise follow the first usable answer or fall back to the best
      damage move. */
  function DecideWith(b: Battle, o: Oracle, lastMove: Option<string>, justSwitched: bool,
                      stillForced: bool, legal: seq<string>, responses: seq<Option<string>>): (r: Turn)
    ensures r.order.Pass? <==> b.active.mustRecharge
    ensures r.order.Pass? ==> r.lastMove == lastMove && r.justSwitched == justSwitched
    ensures r.order.RandomSwitch? ==> !b.active.mustRecharge && b.forceSwitch && !justSwitched
    ensures !b.active.mustRecharge && b.forceSwitch && !justSwitched ==>
              (r.order.SwitchTo? || r.order.RandomSwitch? || r.order.RandomMove?)
              && (r.order.RandomMove? <==> b.availableSwitches == [])
              && (r.order.RandomMove? ==> r.lastMove == lastMove && !r.justSwitched)
              && (r.order.RandomSwitch? ==> r.lastMove == None && !r.justSwitched)
    ensures r.order.UseMove? ==> r.order.move in b.availableMoves && r.lastMove == Some(r.order.move.id) && !r.justSwitched
    ensures r.order.SwitchTo? ==> r.order.pokemon in b.availableSwitches && r.lastMove == None && r.justSwitched
    ensures r.order.RandomMove? ==> r.lastMove == lastMove
    ensures r.order.UseMove? ==> !b.active.mustRecharge && !(b.forceSwitch && (stillForced || !justSwitched))
    ensures r.order.SwitchTo? ==> !b.active.mustRecharge && !(b.forceSwitch && justSwitched && stillForced)
    ensures r.order.UseMove? ==> r.order.move.id in legal || r == BestDamageFallback(b, o, lastMove, false)
  {
    if b.active.mustRecharge then Turn(Pass, lastMove, justSwitched)
    else if b.forceSwitch && !justSwitched then ForcedSwitch(b, o, lastMove, justSwitched, Response(responses, 0))
    else if b.forceSwitch && stillForced then Turn(RandomMove, lastMove, justSwitched)
    else Respond(b, o, lastMove, legal, responses)
  }

  /** `choose_move` as a function of the battle, the player's memory, the
      state of the forced-switch flag after the wait, and the answers. */
  function Decide(b: Battle, o: Oracle, lastMove: Option<string>, justSwitched: bool,
                  stillForced: bool, responses: seq<Option<string>>): (r: Turn)
    ensures r.order.Pass? <==> b.active.mustRecharge
    ensures r.order.UseMove? ==>
              r.order.move.id in Candidates(b, o, lastMove, justSwitched) || r == BestDamageFallback(b, o, lastMove, false)
    ensures r.order.SwitchTo? ==> r.lastMove == None && r.justSwitched
  {
    DecideWith(b, o, lastMove, justSwitched, stillForced, Candidates(b, o, lastMove, justSwitched), responses)
  }

  /** Outside the recharge and forced-switch cases the flag is up after
      the turn exactly when the turn switches, and a switch is only played
      when a switch action was offered. */
  lemma SwitchNeedsOfferedSwitch(b: Battle, o: Oracle, lastMove: Option<string>, justSwitched: bool,
                                 stillForced: bool, legal: seq<string>, responses: seq<Option<string>>)
    requires !b.active.mustRecharge && !(b.forceSwitch && (stillForced || !justSwitched))
    ensures var r := DecideWith(b, o, lastMove, justSwitched, stillForced, legal, responses);
            r.justSwitched <==> r.order.SwitchTo?
    ensures var r := DecideWith(b, o, lastMove, justSwitched, stillForced, legal, responses);
            r.order.SwitchTo? ==> exists y :: y in legal && IsSwitch(y)
  {
    var r := DecideWith(b, o, lastMove, justSwitched, stillForced, legal, responses);
    if legal != [] && r.order.SwitchTo? {
      FirstAcceptedIsFirst(b, legal, responses);
      var k :| 0 <= k < MaxRetries && Accept(b, legal, Response(responses, k)) == FirstAccepted(b, legal, responses)
               && forall j :: 0 <= j < k ==> Accept(b, legal, Response(responses, j)).None?;
      var c := SanitizeResponse(Response(responses, k).value);
      assert c in legal && IsSwitch(c);
    }
  }

  /** A turn that began right after a switch clears the flag unless it
      switches again, and it can switch again only to a switch action the
      move filter itself produced. */
  lemma PostSwitchTurn(b: Battle, o: Oracle, lastMove: Option<string>, stillForced: bool, responses: seq<Option<string>>)
    requires !b.active.mustRecharge && !(b.forceSwitch && stillForced)
    ensures var r := Decide(b, o, lastMove, true, stillForced, responses);
            r.justSwitched <==> r.order.SwitchTo?
    ensures var r := Decide(b, o, lastMove, true, stillForced, responses);
            r.order.SwitchTo? ==>
              exists y :: y in FilteredActions(b, o, lastMove, MoveIds(b.availableMoves), DamageMapOf(b, o, lastMove, b.availableMoves))
                          && IsSwitch(y)
  {
    SwitchNeedsOfferedSwitch(b, o, lastMove, true, stillForced, Candidates(b, o, lastMove, true), responses);
  }

  /** A usable answer is always followed: when one of the first three
      answers is usable, the turn plays the first of them. */
  lemma AnswerFollowed(b: Battle, o: Oracle, lastMove: Option<string>, justSwitched: bool,
                       stillForced: bool, legal: seq<string>, responses: seq<Option<string>>, k: nat)
    requires !b.active.mustRecharge && !(b.forceSwitch && (stillForced || !justSwitched))
    requires k < MaxRetries
    requires Accept(b, legal, Response(responses, k)).Some?
    requires forall j :: 0 <= j < k ==> Accept(b, legal, Response(responses, j)).None?
    ensures var r := DecideWith(b, o, lastMove, justSwitched, stillForced, legal, responses);
            match Accept(b, legal, Response(responses, k)).value
            case PickSwitch(p) => r == Turn(SwitchTo(p), None, true)
            case PickMove(m) => r == Turn(UseMove(m), Some(m.id), false)
  {
    FirstAcceptedIsFirst(b, legal, responses);
    var p := FirstAccepted(b, legal, responses);
    assert p.Some?;
    var k' :| 0 <= k' < MaxRetries && Accept(b, legal, Response(responses, k')) == p
              && forall j :: 0 <= j < k' ==> Accept(b, legal, Response(responses, j)).None?;
    assert k' == k;
  }

  /** A forced replacement with a Pokémon to bring in always forgets the
      last move; the switch flag goes up exactly when the answer named a
      viable replacement, and that Pokémon comes in. */
  lemma ForcedReplacementResetsMemory(b: Battle, o: Oracle, lastMove: Option<string>, stillForced: bool,
                                      legal: seq<string>, responses: seq<Option<string>>)
    requires !b.active.mustRecharge && b.forceSwitch && b.availableSwitches != []
    ensures var r := DecideWith(b, o, lastMove, false, stillForced, legal, responses);
            r.lastMove == None && (r.justSwitched <==> r.order.SwitchTo?)
    ensures var r := DecideWith(b, o, lastMove, false, stillForced, legal, responses);
            var answer := Response(responses, 0);
            r.order.SwitchTo? <==> answer.Some? && answer.value != "" && SanitizeResponse(answer.value) in ReplacementNames(b, o)
    ensures var r := DecideWith(b, o, lastMove, false, stillForced, legal, responses);
            r.order.SwitchTo? ==> Normalize(r.order.pokemon.species) == SanitizeResponse(Response(responses, 0).value)
  {
  }

  // ---------------------------------------------------------------------
  // The player

  class LocalPlayer {
    var lastMove: Option<string>
    var justSwitched: bool

    /** A new player remembers no move and no switch. */
    constructor ()
      ensures lastMove == None && !justSwitched
    {
      lastMove := None;
      justSwitched := false;
    }

    /** `select_best_damage_move` */
    method SelectBestDamageMove(b: Battle, o: Oracle) returns (order: Order)
      modifies this
      ensures Turn(order, lastMove, justSwitched) == BestDamageFallback(b, o, old(lastMove), old(justSwitched))
    {
      var damageInfo := CalculateMoveDamages(b, o, lastMove);
      var bestMoveId, maxDamage := BestDamageMove(damageInfo);
      if bestMoveId.Some? && bestMoveId.value != "" {
        FallbackIdIsMove(b, o, lastMove);
        var bestMove := FindMove(b.availableMoves, bestMoveId.value).value;
        lastMove := Some(bestMove.id);
        return UseMove(bestMove);
      }
      return RandomMove;
    }

    /** Lines 1160-1183: the filtered moves and switches offered this turn;
        the switches are held back on the turn after a switch, and the flag
        is then cleared. */
    method OfferedActions(b: Battle, o: Oracle) returns (legalActions: seq<string>)
      modifies this
      ensures legalActions == Candidates(b, o, old(lastMove), old(justSwitched))
      ensures lastMove == old(lastMove) && !justSwitched
    {
      var isPostSwitchTurn := justSwitched;
      var damageMap := CalculateMoveDamages(b, o, lastMove);
      var legalMoves := MoveIds(b.availableMoves);
      var legalSwitches := AllSwitchIds(b);
      var filteredMoves := FilterSuboptimalMoves(b, o, lastMove, legalMoves, damageMap);
      var filteredSwitches := FilterSuboptimalSwitches(b, o, legalSwitches);
      if isPostSwitchTurn {
        legalActions := filteredMoves;
        justSwitched := false;
      } else {
        legalActions := filteredMoves + filteredSwitches;
      }
    }

    /** `choose_move`: `stillForced` is whether the forced-switch flag is
        still up after the wait, `responses` the decision-maker's answers
        (a forced replacement asks only the first). */
    method ChooseMove(b: Battle, o: Oracle, stillForced: bool, responses: seq<Option<string>>) returns (order: Order)
      modifies this
      ensures Turn(order, lastMove, justSwitched) == Decide(b, o, old(lastMove), old(justSwitched), stillForced, responses)
    {
      if b.active.mustRecharge {
        return Pass;
      }
      if b.forceSwitch {
        if !justSwitched {
          order := HandleSwitch(b, o, Response(responses, 0));
          return;
        }
        if stillForced {
          return RandomMove;
        }
      }
      var legalActions := OfferedActions(b, o);
      order := RespondTo(b, o, legalActions, responses);
    }

    /** `choose_random_switch` */
    method ChooseRandomSwitch(b: Battle, o: Oracle) returns (order: Order)
      modifies this
      ensures Turn(order, lastMove, justSwitched) == RandomSwitchTurn(b, o, old(lastMove), old(justSwitched))
    {
      if b.availableSwitches != [] {
        lastMove := None;
        return RandomSwitch;
      }
      order := SelectBestDamageMove(b, o);
    }

    /** `handle_switch`: `response` is the decision-maker's one answer. */
    method HandleSwitch(b: Battle, o: Oracle, response: Option<string>) returns (order: Order)
      modifies this
      ensures Turn(order, lastMove, justSwitched) == ForcedSwitch(b, o, old(lastMove), old(justSwitched), response)
    {
      var availableSwitchesNames := SpeciesNames(b.availableSwitches);
      availableSwitchesNames := FilterSuboptimalSwitches(b, o, availableSwitchesNames);
      ReplacementNamesShape(b, o);
      if availableSwitchesNames == [] {
        return RandomMove;
      }
      if response.Some? && response.value != "" {
        var cleanedResponse := SanitizeResponse(response.value);
        if cleanedResponse in availableSwitchesNames {
          var switchToUse := FindSpecies(b.availableSwitches, cleanedResponse).value;
          lastMove := None;
          justSwitched := true;
          return SwitchTo(switchToUse);
        }
      }
      order := ChooseRandomSwitch(b, o);
    }

    /** Lines 1185-1233: the fallback when nothing is offered, else the
        retry loop and the order for the first usable answer. */
    method RespondTo(b: Battle, o: Oracle, legalActions: seq<string>, responses: seq<Option<string>>) returns (order: Order)
      requires !justSwitched
      modifies this
      ensures Turn(order, lastMove, justSwitched) == Respond(b, o, old(lastMove), legalActions, responses)
    {
      if legalActions == [] {
        order := SelectBestDamageMove(b, o);
        return;
      }
      var pick := FirstValidAnswer(b, legalActions, responses);
      match pick {
        case Some(PickSwitch(p)) =>
          lastMove := None;
          justSwitched := true;
          order := SwitchTo(p);
        case Some(PickMove(m)) =>
          lastMove := Some(m.id);
          order := UseMove(m);
        case None =>
          order := SelectBestDamageMove(b, o);
      }
    }
  }
}
