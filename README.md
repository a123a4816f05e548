# Battle decision engine — a verified model

The engine is a single-battle Pokémon player whose moves are chosen by a
language model. On each turn it does the following:

- estimates an expected-damage figure for every available move;
- prunes the candidate actions (move ids and `switch-<species>` actions) with
  about forty tactical rules;
- drops switch-ins that are weak to the opponent;
- offers what is left to the language model and accepts the first answer that,
  once sanitized, is an offered action naming an available move or Pokémon;
- otherwise falls back to the move with the highest expected damage.

The player remembers the last move it used and whether it switched on the
previous turn.

The model is a Dafny project in ten modules, one per part of the engine:

| module | file | what it holds |
|---|---|---|
| `BattleState` | `battle.dfy` | the battle snapshot (`Battle`, `Pokemon`, `Move`, the weather, status and effect enums), species normalisation, the `switch-` action ids, and the insertion-ordered damage dictionary (`DamageMap`, `Put`, `Lookup`) |
| `ActionLists` | `actions.dfy` | `list.remove` (first occurrence), repeated removal and set-difference on action lists |
| `Sanitize` | `sanitize.dfy` | `sanitize_model_response` |
| `TurnOrder` | `speed.dfy` | `get_effective_speed` and `determine_who_moves_first` |
| `Damage` | `damage.dfy` | `calculate_move_damages` and its helpers |
| `SwitchFilter` | `switches.dfy` | `filter_suboptimal_switches` |
| `Overrides` | `overrides.dfy` | `mortal_peril_alert` and `step_on_throat` |
| `MoveFilter` | `move_filter.dfy` | `filter_suboptimal_moves` |
| `FilterProperties` | `filter_props.dfy` | properties of the whole move filter |
| `Player` | `player.dfy` | `select_best_damage_move`, `choose_random_switch`, `handle_switch`, the answer-acceptance loop and `choose_move`, with the class `LocalPlayer` holding `last_move` and `just_switched` |

Each imperative routine is a method with its loops and loop invariants. Each
method is proved equal to a specification function, and the properties are
lemmas about those functions. Examples:

- `Damage.CalculateMoveDamages` against `DamageMapOf`;
- `MoveFilter.FilterSuboptimalMoves` against `FilteredActions`;
- `SwitchFilter.FilterSuboptimalSwitches` against `ViableSwitches`;
- `Player.BestDamageMove` against `MaxDamage`/`BestDamageId`;
- `Player.FirstValidAnswer` against `FirstAccepted`;
- `Player.LocalPlayer.ChooseMove` against `Decide`.

The battle library's type chart and `damage_multiplier` are an `Oracle`
value: uninterpreted functions passed in. The language model's answers are
an input sequence of optional strings.

Three places where the model follows the code rather than what the code
appears to intend:

- Power is reset to the base power once a move is known to be damaging, so
  the variable-power table has no effect on the estimate (`Damage.ProvisionalPower`).
- The sun-healing block of rule 18 announces removals but removes nothing
  (`FilterProperties.SunHealingKept`).
- The overrides of rules 0 and 0.5 build their result from the damage map and
  the switch list, not from the working list. Later rules keep filtering that
  result.

## Model

| member | source | states |
|---|---|---|
| `BattleState.LowerChar` | main.py:939 | upper-case ASCII letters map to lower-case letters, and every other character is unchanged |
| `BattleState.Lower` | main.py:69-70 | lowering keeps the length and lowers each character in place |
| `BattleState.Normalize` | main.py:1173 | the normalised species name (`species.lower().replace(' ', '-')`) has the same length and holds no space and no upper-case letter |
| `BattleState.StripSwitchPrefix` | main.py:937 | removing every `switch-` occurrence never lengthens the action |
| `BattleState.SwitchId` | main.py:1173 | the action built for a Pokémon is a switch action |
| `BattleState.SwitchIds` | main.py:1173 | one switch action per available Pokémon, in order |
| `BattleState.AllSwitchIds` | main.py:1173 | the switch actions of the battle's available switches (the same comprehension recurs at lines 846, 884 and 1110) |
| `BattleState.AllSwitchIdsAreSwitches` | main.py:1173 | every action built from the available switches starts with `switch-` |
| `BattleState.MoveIds` | main.py:1172 | the legal move list is the available moves' ids, in order |
| `BattleState.Boost` | main.py:1021 | `boosts.get(stat, 0)`: the stored stage, 0 for a stat without one |
| `BattleState.Count` | main.py:414-417 | `side_conditions.get(c, 0)`: the stored layer count, 0 for an absent condition |
| `BattleState.FindMove` | main.py:1221 | `next(m for m in moves if m.id == id)`: the result is the first available move with that id, and there is none exactly when no move has it |
| `BattleState.FindSpecies` | main.py:1211 | the result is the first available Pokémon whose normalised species is the name, and there is none exactly when no Pokémon matches |
| `BattleState.Keys` | main.py:371-375 | the dictionary's keys, in insertion order |
| `BattleState.Lookup` | main.py:754 | `dict.get`: absent exactly when the key is not in the dictionary, otherwise the stored entry |
| `BattleState.MultiplierOr1` | main.py:820 | `damage_map.get(id, {}).get('multiplier', 1)`: the stored multiplier, 1 for a missing id |
| `BattleState.Put` | main.py:371-375 | storing under a new key adds one entry; storing under an existing key keeps the size |
| `BattleState.PutKeys` | main.py:371-375 | storing keeps the key order (a new key goes last), and the key then maps to the stored value |
| `BattleState.PutKeyOrder` | main.py:371-375 | `d[k] = v` appends a new key at the end and leaves the order of existing keys alone |
| `BattleState.PutLookup` | main.py:371-375 | after `d[k] = v`, `d.get(k)` is `v` |
| `BattleState.PutKeepsOthers` | main.py:371-375 | storing under one key does not change what any other key maps to |
| `BattleState.PutDistinct` | main.py:371-375 | a dictionary never holds a key twice |
| `ActionLists.Remove` | main.py:398-406 | `list.remove(x)`: removes one element when `x` is present, changes nothing otherwise, and touches no other value |
| `ActionLists.RemoveEach` | main.py:545-551 | removing each listed name keeps every other value's membership and adds nothing |
| `ActionLists.Without` | main.py:964 | `[a for a in s if a not in xs]` keeps exactly the members of `s` outside `xs` |
| `ActionLists.SwitchesOf` | main.py:583-595 | `[a for a in s if a.startswith("switch-")]` keeps exactly the switch actions |
| `ActionLists.RemoveCounts` | main.py:398-406 | `list.remove` takes away exactly one occurrence |
| `ActionLists.RemoveIsWithout` | main.py:398-406 | on a list without repeats, `remove(x)` is the same as filtering `x` out |
| `ActionLists.WithoutAbsent` | main.py:964 | filtering out values that do not occur changes nothing |
| `ActionLists.RemoveNoDup` | main.py:398-406 | removal from a repeat-free list leaves it repeat-free and without the removed value |
| `ActionLists.RemoveEachNoDup` | main.py:545-551 | after a removal loop on a repeat-free list, none of the listed names is left and the list stays repeat-free |
| `ActionLists.WithoutNoDup` | main.py:964 | filtering keeps a list repeat-free |
| `ActionLists.SwitchesOfNoDup` | main.py:583-595 | keeping the switch actions keeps a list repeat-free |
| `ActionLists.WithoutTwice` | main.py:759-788 | filtering out one list and then another equals filtering out both at once |
| `ActionLists.RemoveEachIsWithout` | main.py:545-551 | on a repeat-free list, the removal loop equals filtering the names out |
| `ActionLists.RemoveEachKeeps` | main.py:545-551 | the removal loop only lowers the counts of the listed names and leaves every other count alone |
| `ActionLists.RemoveListed` | main.py:545-551 | the `for move in moves: if move in s: s.remove(move)` loop computes `RemoveEach` |
| `Sanitize.KeepAllowed` | main.py:69-70 | `re.sub(r"[^a-z-]", "", s)` leaves only `a`-`z` and `-`, and never lengthens the text |
| `Sanitize.StripLeft` | main.py:69 | the leading-whitespace half of `str.strip()` |
| `Sanitize.StripRight` | main.py:69 | the trailing-whitespace half of `str.strip()` |
| `Sanitize.Strip` | main.py:69 | `str.strip()` over the whitespace characters listed in the model |
| `Sanitize.SanitizeResponse` | main.py:69-70 | `sanitize_model_response` (strip, lowercase, drop everything outside `[a-z-]`): every character of the result is a lower-case ASCII letter or `-` |
| `Sanitize.LowerAppend` | main.py:69-70 | lowering distributes over concatenation |
| `Sanitize.KeepAllowedAppend` | main.py:69-70 | the character filter distributes over concatenation |
| `Sanitize.CleanAppend` | main.py:69-70 | lowering then filtering distributes over concatenation |
| `Sanitize.CleanStripLeft` | main.py:69-70 | leading whitespace makes no difference to the cleaned answer |
| `Sanitize.CleanStripRight` | main.py:69-70 | trailing whitespace makes no difference to the cleaned answer |
| `Sanitize.StripIsIrrelevant` | main.py:69-70 | the `strip()` in `sanitize_model_response` never changes its result |
| `Sanitize.AllowedIsFixedPoint` | main.py:69-70 | an answer made only of `a`-`z` and `-` comes back unchanged |
| `Sanitize.KeepAllowedLowerFixed` | main.py:69-70 | lowering then filtering leaves text made of allowed characters unchanged |
| `Sanitize.SanitizeIdempotent` | main.py:69-70 | the sanitized answer holds only `a`-`z` and `-`, and sanitizing it again changes nothing |
| `Sanitize.LettersAreLowered` | main.py:69-70 | an answer made of letters and `-` in any case sanitizes to its lower-case spelling |
| `Sanitize.LettersAreLoweredClean` | main.py:69-70 | lowering then filtering keeps every letter and `-` of such an answer, in lower case |
| `TurnOrder.BoostFactorShape` | main.py:1020-1022 | the stage multiplier is positive, above 1 exactly for positive stages, below 1 exactly for negative ones, and opposite stages cancel |
| `TurnOrder.BoostFactor` | main.py:1020-1022 | the speed-stage multiplier is positive, and exactly 1 at stage 0 |
| `TurnOrder.BaseSpeed` | main.py:1019-1027 | the speed after the stage, the weather abilities and Slow Start is positive exactly when the speed stat is, and zero exactly when it is zero |
| `TurnOrder.CalculateSpeed` | main.py:1019-1032 | `calculate_speed`, adding paralysis and Tailwind: positive exactly when the speed stat is, zero exactly when it is zero |
| `TurnOrder.MySpeed` | main.py:1035 | `get_effective_speed`'s first value: our active Pokémon with our side conditions |
| `TurnOrder.OpponentSpeed` | main.py:1036 | `get_effective_speed`'s second value: the opponent's active Pokémon with its side conditions |
| `TurnOrder.MovesFirst` | main.py:1040-1053 | `determine_who_moves_first`: moving first needs different speeds, and then means being the slower side under Trick Room and the faster one otherwise |
| `TurnOrder.BoostFactorMonotone` | main.py:1020-1022 | a higher stage never gives a lower multiplier |
| `TurnOrder.ParalysisScales` | main.py:1028-1029 | paralysis multiplies the effective speed by 0.5 from generation 7 and by 0.25 before |
| `TurnOrder.BaseSpeedIgnoresStatus` | main.py:1019-1027 | the speed before paralysis and Tailwind does not depend on status |
| `TurnOrder.TailwindDoubles` | main.py:1030 | Tailwind on a side doubles that side's speed |
| `TurnOrder.TieIsNotFirst` | main.py:1040-1053 | with equal speeds we are never expected to move first, with or without Trick Room |
| `TurnOrder.TrickRoomInverts` | main.py:1040-1053 | with unequal speeds, Trick Room reverses who moves first |
| `TurnOrder.SpeedIgnoresFields` | main.py:1012-1038 | the field (Trick Room, terrains) does not affect either side's speed, only the comparison |
| `TurnOrder.SpeedReadsWeatherAndGen` | main.py:1019-1032 | `calculate_speed` reads only the weather and the generation from the battle |
| `Damage.CritDamageMultiplier` | main.py:194-205 | a critical hit always multiplies damage by more than 1 |
| `Damage.CritChance` | main.py:207-213 | every table entry and default is a probability in (0, 1] |
| `Damage.CritFactor` | main.py:364-367 | the crit term `1 + chance * (multiplier - 1)` always raises the expected damage |
| `Damage.CritStage` | main.py:208-210 | the crit stage is the move's ratio raised by at most 2 (Super Luck, Scope Lens), and exactly the ratio without ability and item |
| `Damage.ProvisionalPower` | main.py:218-246 | Return/Frustration assume 102 and Heavy Slam/Heat Crash take one of the five weight-ratio powers |
| `Damage.DefensiveModifier` | main.py:251-279 | the modifier is never negative, is 0 exactly for an immunity (checked before any other factor), and is at most 1 for every ability except Dry Skin and Fluffy |
| `Damage.IsImmune` | main.py:254-259 | the immunity abilities nullify only Water, Fire, Ground, Electric or Grass moves, and no ability means no immunity |
| `Damage.MoveType` | main.py:220-229 | only Weather Ball under some weather changes its type, and then to Fire, Water, Rock or Ice |
| `Damage.WorstCase` | main.py:280-286 | the unknown-ability factor lies in [0, 1] |
| `Damage.WorstFrom` | main.py:281-285 | the running minimum `worst_case_modifier` over the remaining possible abilities |
| `Damage.WorstFromBounds` | main.py:282-285 | the running minimum is at most its start and at most every visited modifier, and equals the start or one of them |
| `Damage.WorstCaseIsMinimum` | main.py:280-286 | the unknown-ability factor is min(1, modifier of each possible ability): a lower bound reached by 1 or an ability, and 0 when any possible ability is an immunity |
| `Damage.WorstCaseModifier` | main.py:280-286 | the loop computes `WorstCase` |
| `Damage.AbilityFactor` | main.py:276-286 | the defending-ability factor is never negative, and with an unknown ability it is at most 1 |
| `Damage.DefendedEffectiveness` | main.py:249-286 | a non-negative type multiplier gives a non-negative effectiveness |
| `Damage.Scale` | main.py:286 | a product of non-negative factors is non-negative, and a zero factor gives zero |
| `Damage.TintedLens` | main.py:288-289 | Tinted Lens changes the effectiveness only when it is below 1, and then doubles it; it never lowers it |
| `Damage.Effectiveness` | main.py:249-289 | the effectiveness after abilities and Tinted Lens is non-negative when the type multiplier is |
| `Damage.FreezeDryMultiplier` | main.py:352-361 | the loop over the opponent's types computes the Freeze-Dry product `FreezeDry` |
| `Damage.FreezeDry` | main.py:352-361 | Freeze-Dry's product over the opponent's types is 1 when no type is Water and the chart is neutral to Ice for every type |
| `Damage.StabBonus` | main.py:299-302 | STAB gives 1.5, or 2 with Adaptability, in place of and not on top of 1.5; no STAB gives 1 |
| `Damage.AttackerAbilityBoost` | main.py:305-329 | the attacker's ability never lowers power |
| `Damage.AtMostOneAttackerBoost` | main.py:305-329 | the `elif` chain applies exactly one multiplier from {1.2, 1.3, 1.33, 1.5, 2} or none, and none for an ability outside the chain |
| `Damage.WeatherTerrainBoost` | main.py:331-339 | the weather and terrain factor is positive |
| `Damage.FinalModifier` | main.py:341-349 | burn, screens and the sandstorm/snow defence only reduce: the factor is in (0, 1] |
| `Damage.MovePower` | main.py:298-339 | a non-negative base power gives a non-negative power |
| `Damage.ExpectedDamage` | main.py:363-369 | with non-negative accuracy, base power and effectiveness, the expected damage is non-negative |
| `Damage.DefendedMultiplier` | main.py:249-286 | the immunity-first ability adjustment computes `DefendedEffectiveness` |
| `Damage.EstimateMove` | main.py:215-375 | one pass of the loop body computes the entry `Estimate` |
| `Damage.Estimate` | main.py:215-375 | the entry for one move records the move's priority and STAB exactly when the (Weather Ball-adjusted) type is one of the attacker's types, and a status move gets expected damage 0 |
| `Damage.DamageMapOf` | main.py:184-377 | the damage dictionary's keys are distinct and are exactly the available moves' ids |
| `Damage.Tabulate` | main.py:215-375 | the dictionary the loop builds by storing each move's entry under its id, in move order |
| `Damage.CalculateMoveDamages` | main.py:184-377 | the damage map has exactly one key per available move id and no key twice, is empty exactly when no move is available, and equals `DamageMapOf` |
| `Damage.EstimateEach` | main.py:215-375 | the loop stores each move's estimate in order, overwriting a repeated id in place |
| `Damage.TabulateKeys` | main.py:215-375 | the keys are exactly the move ids, with none repeated, and the map is empty exactly when there are no moves |
| `Damage.TabulateValues` | main.py:215-375 | with distinct ids, each move's id maps to that move's estimate |
| `Damage.DamageMapShape` | main.py:184-377 | with distinct ids, the keys are the move ids in order and each maps to its own estimate |
| `Damage.TabulateKeysInOrder` | main.py:215-375 | with distinct ids, the keys are in the order of the moves |
| `Damage.NonDamagingEntry` | main.py:291-295 | a status move, or a move with effectiveness 0, gets expected damage 0 but still records STAB, multiplier and priority |
| `Damage.ImmunityZeroes` | main.py:253-259 | a known immunity ability makes the effectiveness 0, and so the expected damage 0 |
| `Damage.EstimateNonNegative` | main.py:363-375 | with a non-negative type chart, accuracy and base power, the expected damage and the multiplier are non-negative |
| `Damage.FreezeDryNonNegative` | main.py:352-361 | the Freeze-Dry product is non-negative under a non-negative type chart |
| `Damage.CritChanceMonotone` | main.py:207-213 | a higher critical stage never lowers the critical chance |
| `SwitchFilter.WeakOptions` | main.py:931-957 | `switches_to_remove` holds exactly the options whose Pokémon is weak to a revealed damaging move, or to an opponent type when no move is revealed |
| `SwitchFilter.IsWeakSwitch` | main.py:931-957 | an option is weak only when it names an available Pokémon (an unknown name is skipped by `continue`) |
| `SwitchFilter.ViableSwitches` | main.py:922-964 | `filter_suboptimal_switches`: only given options come back, and the result is empty exactly when the input is |
| `SwitchFilter.FilterSuboptimalSwitches` | main.py:922-964 | the loop and the final filter compute `ViableSwitches` |
| `SwitchFilter.AllWeakByCount` | main.py:959-961 | the length test `len(switches_to_remove) == len(available_switches)` holds exactly when every option is weak |
| `SwitchFilter.ViableSwitchesMembers` | main.py:922-964 | an empty input gives an empty result; all-weak returns the input unchanged; otherwise the result is the input minus the weak options, order kept |
| `SwitchFilter.ViableSwitchesNonEmpty` | main.py:922-964 | a non-empty input never gives an empty result |
| `SwitchFilter.ViableSwitchesWithin` | main.py:922-964 | the result only holds input options |
| `SwitchFilter.ViableSwitchesNoDup` | main.py:922-964 | a repeat-free input gives a repeat-free result |
| `SwitchFilter.UnknownSpeciesKept` | main.py:937-940 | an option naming no available Pokémon is always kept |
| `Overrides.KoMoves` | main.py:1067-1070 | the KO list holds exactly the damage-map ids whose expected damage reaches the threshold, and is empty exactly when none does |
| `Overrides.HasKoThreat` | main.py:1094-1104 | with revealed moves, a threat exactly when some revealed move hits our active Pokémon 4 times over; with none revealed, exactly when some opponent type is super effective against it |
| `Overrides.MortalPerilAlert` | main.py:1079-1130 | `mortal_peril_alert`: the input when there is no threat; under a threat only switch actions or damage-map ids reaching 2 |
| `Overrides.MortalPerilOutcomes` | main.py:1079-1130 | no threat returns the input; a threat when not moving first, or with no entry at 2, returns the viable switches; otherwise exactly the ids reaching 2 |
| `Overrides.MortalPerilWithin` | main.py:1079-1130 | the alert returns input actions, damage-map ids or switch actions only |
| `Overrides.KoMovesKeys` | main.py:1122 | the KO list is built from damage-map keys |
| `Overrides.KoMovesNoDup` | main.py:1122 | with distinct keys, the KO list has no repeats |
| `Overrides.StepOnThroatOutcomes` | main.py:1055-1077 | the input is returned unless we move first and some entry reaches 2.5, and then exactly those ids |
| `Overrides.StepOnThroat` | main.py:1055-1077 | `step_on_throat`: the input unless we move first; a changed result is non-empty and holds only damage-map ids reaching 2.5 |
| `Overrides.KoMovesNested` | main.py:1067-1122 | every id reaching 2.5 also reaches 2, so step-on-throat never picks a move the alert would not |
| `MoveFilter.RemoveWhen` | main.py:604-608 | a guarded single removal only removes that value, and nothing when the guard is false |
| `MoveFilter.RemoveEachWhen` | main.py:543-551 | a guarded removal loop only removes listed names, and nothing when the guard is false |
| `MoveFilter.HealingRule` | main.py:397-406 | rule 1 removes only healing moves, and nothing below two thirds of HP |
| `MoveFilter.ConditionRule` | main.py:408-437 | rule 2 removes only hazard, screen, Tailwind and Trick Room moves |
| `MoveFilter.OpponentHazardRule` | main.py:410-421 | the hazard half of rule 2 removes only Stealth Rock, Spikes, Toxic Spikes and Sticky Web |
| `MoveFilter.OwnConditionRule` | main.py:422-437 | the own-side half of rule 2 removes only screens, Tailwind and Trick Room |
| `MoveFilter.HazardClearRule` | main.py:439-450 | rule 3 removes only hazard clearers, and nothing when our side has hazards |
| `MoveFilter.MySideHazards` | main.py:441 | rule 3's guard: Stealth Rock, Spikes, Toxic Spikes or Sticky Web on our side |
| `MoveFilter.OpponentSideActive` | main.py:448 | `any(opponent_side_conditions.values())`: some opponent side condition with a non-zero value |
| `MoveFilter.SingleStatSetupRule` | main.py:455-472 | the single-stat part of rule 4 removes only its seven setup moves |
| `MoveFilter.MultiStatSetupRule` | main.py:474-489 | the multi-stat part of rule 4 removes only its five setup moves |
| `MoveFilter.SpecialSetupRule` | main.py:491-500 | the last part of rule 4 removes only Shell Smash and Curse |
| `MoveFilter.ViableSwitchActions` | main.py:510-512 | the viable switch list holds switch actions of available Pokémon only |
| `MoveFilter.LockedMoveRule` | main.py:502-520 | rule 5 either passes the list on unchanged or ends the filter with entries of the list or switch actions |
| `MoveFilter.DropAttacks` | main.py:521-542 | rules 6 and 7 only remove available damaging moves, and every other entry keeps its membership |
| `MoveFilter.SleepClauseRule` | main.py:543-551 | rule 8 removes only sleep moves |
| `MoveFilter.OpponentTeamAsleep` | main.py:544 | rule 8's guard: some opponent team member asleep |
| `MoveFilter.RepeatEffectRule` | main.py:552-571 | rule 9 removes only Taunt, Encore, Leech Seed and trapping moves |
| `MoveFilter.OpponentTrapped` | main.py:564 | rule 9's guard: the opponent carries a trapping effect |
| `MoveFilter.SleepRule` | main.py:572-596 | rule 10 removes Sleep Talk when not asleep and nothing else; when asleep only switch actions and Sleep Talk (taken from the original legal list) remain |
| `MoveFilter.ItemSwapRule` | main.py:597-603 | rule 11 removes only Trick and Switcheroo |
| `MoveFilter.AlreadyStatusedRule` | main.py:609-615 | rule 13 removes only status-inflicting moves, and nothing against an unstatused opponent |
| `MoveFilter.TypeImmunityRule` | main.py:616-625 | the type checks of rule 13 remove only Thunder Wave, Will-O-Wisp, Toxic, Poison Powder and Leech Seed |
| `MoveFilter.AbilityImmunityRule` | main.py:626-665 | rule 13.5 removes only powder, sleep, burn, paralysis and Taunt moves, and nothing when no ability is possible |
| `MoveFilter.CandidateAbilities` | main.py:627-629 | rule 13.5's abilities: the known ability alone, otherwise every possible one |
| `MoveFilter.PowderSleepImmunityRule` | main.py:631-645 | the powder and sleep checks of rule 13.5 remove only powder and sleep moves |
| `MoveFilter.OtherImmunityRule` | main.py:647-665 | the burn, paralysis and Taunt checks of rule 13.5 remove only those moves |
| `MoveFilter.CountCategory` | main.py:674-675 | the category count is at most the number of moves and is 0 exactly when no move has the category |
| `MoveFilter.LoweredStatRule` | main.py:671-702 | rule 15 continues exactly when the attacking stat is not too low, and then leaves the list unchanged; otherwise it ends with list entries or switch actions |
| `MoveFilter.AttackStatTooLow` | main.py:671-686 | rule 15's test holds only with Attack or Special Attack at -2 or lower, and always when both are |
| `MoveFilter.WeatherRule` | main.py:719-753 | rule 18 removes only weather moves (never the sun-healing moves) |
| `MoveFilter.StatusIds` | main.py:761-767 | the collected ids are exactly the non-switch entries naming an available status move |
| `MoveFilter.DropStatusMoves` | main.py:768-770 | after the drop, an entry is kept exactly when it is a switch action or not an available status move |
| `MoveFilter.SubstituteRule` | main.py:759-770 | rule 21 only removes available status moves |
| `MoveFilter.PranksterRule` | main.py:776-788 | rule 23 only removes available status moves |
| `MoveFilter.RechargeRule` | main.py:805-809 | rule 25 removes only recharge moves |
| `MoveFilter.LockedInRule` | main.py:811-870 | rule 26 either continues with the list unchanged or ends with switch actions |
| `MoveFilter.EncoreForcesSwitch` | main.py:816-843 | a status move with no boosts forces the switch only as Stealth Rock, Spikes or Sticky Web; an attack missing from the damage map counts as neutral and does not |
| `MoveFilter.EncoreRule` | main.py:813-850 | rule 26's Encore scenario continues with the list unchanged, or ends, locked by Encore into one move, on a non-empty list of switch actions |
| `MoveFilter.TauntRule` | main.py:852-869 | rule 26's Taunt scenario continues with the list unchanged or ends on switch actions only when taunted; non-empty when there are moves; always ends when taunted with no move |
| `MoveFilter.AllAttacksResisted` | main.py:857 | the Taunt scenario's guard: every available move below 1 by the damage map, a missing id counting as 1 |
| `MoveFilter.SpecialWallRule` | main.py:871-892 | rule 27 either continues with the list unchanged or ends with a non-empty list of switch actions |
| `MoveFilter.HasPhysicalMove` | main.py:878 | rule 27's guard: some available move is physical |
| `MoveFilter.LateRule` | main.py:893-920 | rules 29-36 remove only Yawn, self-KO moves, cleric moves and Trick Room |
| `MoveFilter.TeamStatused` | main.py:909 | rule 33's guard: some unfainted team member has a status |
| `MoveFilter.FromRule6` | main.py:521-920 | after rule 5, everything returned is from the working list, a switch action, or a legal Sleep Talk |
| `MoveFilter.Rules0To5` | main.py:390-520 | continuing after rule 5 hands on rules 1-4 applied to the override result; ending returns entries of that list or switch actions |
| `MoveFilter.OverrideRule` | main.py:390-395 | rules 0 and 0.5 return only legal actions, damage-map ids or switch actions, and the input without a threat and at half HP or more |
| `MoveFilter.FilteredActions` | main.py:380-920 | `filter_suboptimal_moves`: only legal actions, damage-map ids or switch actions |
| `MoveFilter.Rules1To4` | main.py:397-500 | rules 1-4 only remove |
| `MoveFilter.Rules6To10` | main.py:521-596 | rules 6-10 return only entries of the list or a legal Sleep Talk |
| `MoveFilter.Rules11To15` | main.py:597-702 | rules 11-15 return only entries of the list or switch actions |
| `MoveFilter.Rules11To14` | main.py:597-670 | rules 11-14 only remove |
| `MoveFilter.PainSplitRule` | main.py:666-670 | rule 14 removes only Pain Split, and nothing while our HP is below the opponent's |
| `MoveFilter.StatusMoveRule` | main.py:609-665 | rules 13 and 13.5 only remove |
| `MoveFilter.Rules16To20` | main.py:703-758 | rules 16-20 only remove |
| `MoveFilter.Rules21To24` | main.py:759-804 | rules 21-24 return only entries of the list |
| `MoveFilter.Rules25To26` | main.py:805-870 | rules 25-26 return only entries of the list or switch actions |
| `MoveFilter.Rules27To36` | main.py:871-920 | rules 27-36 return only entries of the list or switch actions |
| `MoveFilter.FilterSuboptimalMoves` | main.py:380-920 | the in-place removals and early returns compute `FilteredActions` |
| `MoveFilter.FilterRules0To5` | main.py:390-520 | the first stage computes `Rules0To5` |
| `MoveFilter.ApplyOverrideRule` | main.py:390-395 | the override step computes `OverrideRule` (the alert, then step-on-throat when opponent HP is below 0.5) |
| `MoveFilter.ApplyRules1To4` | main.py:397-500 | the removal loops of rules 1-4 compute `Rules1To4` |
| `MoveFilter.ApplyOpponentHazardRule` | main.py:410-421 | the hazard guards compute `OpponentHazardRule` |
| `MoveFilter.ApplyOwnConditionRule` | main.py:422-437 | the screen and field guards compute `OwnConditionRule` |
| `MoveFilter.ApplyHazardClearRule` | main.py:439-450 | rule 3 computes `HazardClearRule` |
| `MoveFilter.ApplySingleStatSetupRule` | main.py:455-472 | the boost loop computes `SingleStatSetupRule` |
| `MoveFilter.ApplyMultiStatSetupRule` | main.py:474-489 | the boost loop computes `MultiStatSetupRule` |
| `MoveFilter.ApplySpecialSetupRule` | main.py:491-500 | the Shell Smash and Curse guards compute `SpecialSetupRule` |
| `MoveFilter.RemoveLowDamageAttacks` | main.py:521-542 | the pass over the damage map computes `DropAttacks` |
| `MoveFilter.ApplyRepeatEffectRule` | main.py:552-571 | rule 9 computes `RepeatEffectRule` |
| `MoveFilter.FilterRules6To10` | main.py:521-596 | the second stage computes `Rules6To10` |
| `MoveFilter.ApplyItemSwapRule` | main.py:597-603 | rule 11 computes `ItemSwapRule` |
| `MoveFilter.ApplyTypeImmunityRule` | main.py:616-625 | the type checks compute `TypeImmunityRule` |
| `MoveFilter.ApplyAbilityImmunityRule` | main.py:626-665 | rule 13.5 computes `AbilityImmunityRule` |
| `MoveFilter.ApplyOtherImmunityRule` | main.py:647-665 | the burn, paralysis and Taunt checks compute `OtherImmunityRule` |
| `MoveFilter.FilterRules11To15` | main.py:597-702 | the third stage computes `Rules11To15` |
| `MoveFilter.ApplyRules11To14` | main.py:597-670 | rules 11-14 compute `Rules11To14` |
| `MoveFilter.ApplyPainSplitRule` | main.py:666-670 | rule 14 computes `PainSplitRule` |
| `MoveFilter.ApplyStatusMoveRule` | main.py:609-665 | rules 13 and 13.5 compute `StatusMoveRule` |
| `MoveFilter.LowStatForcesSwitch` | main.py:671-689 | the category counts and boosts compute rule 15's flag `AttackStatTooLow` |
| `MoveFilter.ApplyWeatherRule` | main.py:719-753 | rule 18 computes `WeatherRule` |
| `MoveFilter.FilterRules16To20` | main.py:703-758 | rules 16-20 compute `Rules16To20` |
| `MoveFilter.CollectStatusMoves` | main.py:761-767 | the appending loop collects exactly `StatusIds` |
| `MoveFilter.RemoveStatusMoves` | main.py:759-770 | collecting then filtering computes `DropStatusMoves` |
| `MoveFilter.FilterRules21To24` | main.py:759-804 | the fourth stage computes `Rules21To24` |
| `MoveFilter.SetupIsUseless` | main.py:827-835 | the loop over the setup move's boosts computes `SetupUseless` (every boosted stat at +6) |
| `MoveFilter.SetupUseless` | main.py:827-831 | every stat the setup move raises is already at +6 (the specification of the loop) |
| `MoveFilter.EncoreShouldForceSwitch` | main.py:816-843 | the Encore checks compute `EncoreForcesSwitch` |
| `MoveFilter.FilterRules25To26` | main.py:805-870 | the fifth stage computes `Rules25To26` |
| `MoveFilter.ApplyEncoreRule` | main.py:813-850 | the Encore scenario computes `EncoreRule` |
| `MoveFilter.ApplyTauntRule` | main.py:852-869 | the Taunt scenario computes `TauntRule` |
| `MoveFilter.FilterRules27To36` | main.py:871-920 | the last stage computes `Rules27To36` |
| `MoveFilter.ApplyLateRule` | main.py:893-920 | rules 29-36 compute `LateRule` |
| `FilterProperties.RemoveWhenNoDup` | main.py:604-608 | a guarded removal keeps a list repeat-free, and the value is gone when the guard holds |
| `FilterProperties.RemoveEachWhenNoDup` | main.py:543-551 | a guarded removal loop keeps a list repeat-free, and no listed name is left when the guard holds |
| `FilterProperties.DropAttacksNoDup` | main.py:521-542 | rules 6 and 7 keep a list repeat-free |
| `FilterProperties.RepeatEffectNoDup` | main.py:552-571 | rule 9 keeps a list repeat-free |
| `FilterProperties.OverrideRuleNoDup` | main.py:390-395 | with a repeat-free input, distinct damage-map keys and distinct switch actions, the override result is repeat-free |
| `FilterProperties.NotSwitch` | main.py:583-595 | a move id that does not begin with `swi` is not a switch action |
| `FilterProperties.HealingMovesNotSwitches` | main.py:397-406 | no healing move is a switch action or Sleep Talk |
| `FilterProperties.RechargeMovesNotSwitches` | main.py:805-809 | no recharge move is a switch action |
| `FilterProperties.HealingMovesDropped` | main.py:397-406 | at two thirds of HP or more, no healing move survives rules 1-4 |
| `FilterProperties.HazardStackLimits` | main.py:412-419 | Spikes survive rule 2 exactly when below 3 layers, Toxic Spikes exactly when below 2 |
| `FilterProperties.SleepOutcomes` | main.py:572-596 | not asleep: Sleep Talk is removed and the filter goes on; asleep with a counter of at most 1 and Sleep Talk legal: `['sleeptalk']` plus the switch actions of the list; otherwise the filter ends with those switch actions |
| `FilterProperties.RechargeMovesDropped` | main.py:805-809 | no recharge move survives rules 25-26 |
| `FilterProperties.SunHealingKept` | main.py:741-745 | Synthesis, Moonlight and Morning Sun survive rules 16-20 exactly when they were in the list: the weather block removes nothing |
| `FilterProperties.Rules16To20Keeps` | main.py:703-758 | a move none of rules 16-20 names survives them exactly when it was in the list |
| `FilterProperties.FilteredActionsWithin` | main.py:380-920 | the filter returns legal actions, damage-map ids or switch actions only |
| `FilterProperties.FilteredActionsSources` | main.py:380-920 | everything returned comes from rules 1-4 applied to the override result, is a switch action, or is Sleep Talk |
| `FilterProperties.HighHpNeverHeals` | main.py:397-406 | at two thirds of HP or more, the whole filter never returns a healing move |
| `FilterProperties.LockedIntoResistedMove` | main.py:502-520 | locked into one resisted move, the filter returns the viable switches, or the list after rules 1-4 when none is viable; with a Pokémon to switch to the result is non-empty and made of switch actions |
| `Player.MaxDamage` | main.py:970-976 | the running maximum starting at -1 bounds every expected damage and is -1 or reached by an entry |
| `Player.FirstReaching` | main.py:972-976 | finds the first entry with a given damage, or none exactly when no entry has it |
| `Player.BestDamageMove` | main.py:970-976 | the loop computes `MaxDamage` and `BestDamageId` |
| `Player.BestDamageId` | main.py:970-976 | the chosen id is a damage-map key, and there is none exactly when no entry exceeds -1 |
| `Player.BestDamageStep` | main.py:973-976 | one loop step replaces the maximum and the best id exactly when the new entry is strictly greater |
| `Player.BestDamageIsFirstMaximum` | main.py:970-976 | the best id is the first entry with the maximal damage, and is missing exactly when no entry exceeds -1 |
| `Player.BestDamageIdIsKey` | main.py:970-976 | the best id is a damage-map key |
| `Player.BestDamageFoundUnlessEmpty` | main.py:970-986 | with non-negative damages, the fallback finds a best id exactly when the map is non-empty |
| `Player.FindMoveById` | main.py:980 | a best id taken from the map names an available move, so the lookup never fails |
| `Player.FallbackIdIsMove` | main.py:978-981 | the best id of the damage map always names an available move |
| `Player.BestDamageFallback` | main.py:966-986 | the fallback keeps the switch flag, plays an available move and remembers it, or plays a random move and remembers nothing new |
| `Player.TabulateEntries` | main.py:215-375 | every stored value is the estimate of some move |
| `Player.PutEntries` | main.py:371-375 | a store adds only the stored entry |
| `Player.DamageMapNonNegative` | main.py:363-375 | under a non-negative type chart, with non-negative accuracies and base powers, every expected damage is non-negative |
| `Player.FallbackRandomOnlyWithoutMoves` | main.py:966-986 | the fallback plays a random move exactly when no move is available |
| `Player.Accept` | main.py:1203-1226 | an accepted answer is non-empty and offered; a switch pick is an available Pokémon whose species the action names, and a move pick is the available move with that id |
| `Player.Response` | main.py:1201-1202 | the answer to the `i`-th query; a query beyond the given answers gets no answer |
| `Player.Answers` | main.py:1201-1203 | three queries, each judged by `Accept` on its own answer |
| `Player.FirstSomeNone` | main.py:1202-1231 | no pick from a position on exactly when every later answer is rejected |
| `Player.FirstSomeIndex` | main.py:1202-1231 | a pick is the one at the first accepted position |
| `Player.FirstAcceptedIsFirst` | main.py:1201-1231 | the result is the first accepted answer among the three, and none exactly when all three are rejected |
| `Player.FirstAccepted` | main.py:1201-1231 | a pick is the verdict on one of the three answers, and there is none exactly when all three are rejected |
| `Player.FirstAcceptedAvailable` | main.py:1206-1226 | the chosen Pokémon is an available switch and the chosen move an available move |
| `Player.LaterAnswersIgnored` | main.py:1201-1202 | answers after the third are never consulted |
| `Player.FirstValidAnswer` | main.py:1201-1231 | the retry loop returns `FirstAccepted` |
| `Player.CandidatesWithin` | main.py:1171-1183 | only available move ids and switch actions are offered |
| `Player.Candidates` | main.py:1169-1183 | the offered actions are available move ids or switch actions of available Pokémon |
| `Player.Respond` | main.py:1185-1233 | the turn plays an available move (remembered), switches to an available Pokémon (last move forgotten, flag set) or plays a random move (memory kept); the flag is set exactly on a switch; a move played is an offered id or the best-damage fallback, and a switch comes from an offered switch action naming that Pokémon |
| `Player.DecideWith` | main.py:1132-1233 | pass exactly when recharging, memory kept; a forced replacement when forced without a switch last turn: a random move (memory kept) exactly when no Pokémon can come in, otherwise a switch or random switch with the last move forgotten; a move played is remembered and is offered or the best-damage fallback; a switch forgets the last move and raises the flag |
| `Player.Decide` | main.py:1132-1233 | `choose_move`: pass exactly when recharging; a move played is one of `Candidates` or the best-damage fallback; a switch forgets the last move and raises the flag |
| `Player.SwitchNeedsOfferedSwitch` | main.py:1178-1216 | outside the forced cases, the flag is up after the turn exactly when it switched, and a switch is played only when a switch action was offered |
| `Player.PostSwitchTurn` | main.py:1159-1183 | on the turn after a switch, a switch is played only when the move filter itself returned a switch action |
| `Player.AnswerFollowed` | main.py:1202-1226 | when answer `k` is the first accepted one, the turn plays exactly that pick |
| `Player.SpeciesNames` | main.py:1237 | one replacement name per available switch, its normalised species, in order |
| `Player.ReplacementNames` | main.py:1237-1240 | the forced-replacement names: the normalised species of the available switches, through `filter_suboptimal_switches` |
| `Player.ReplacementNamesShape` | main.py:1237-1244 | the viable replacement names are empty exactly when no Pokémon can come in, and each names an available switch (so the `next(...)` of line 1264 never fails) |
| `Player.RandomSwitchTurn` | main.py:988-997 | `choose_random_switch`: a random switch exactly when a Pokémon is available, forgetting the last move and keeping the flag; otherwise the best-damage fallback's move or random move |
| `Player.ForcedSwitch` | main.py:1235-1271 | `handle_switch`: a random move with the memory kept exactly when no Pokémon can come in; the named Pokémon, with no last move and the flag up, exactly when the sanitized answer is a viable name; otherwise a random switch with no last move and the flag kept |
| `Player.ForcedReplacementResetsMemory` | main.py:1142-1271 | a forced replacement with a Pokémon available always forgets the last move, raises the flag exactly on the named switch, and switches exactly when the first answer names a viable replacement |
| `Player.LocalPlayer.constructor` | main.py:18-24 | a new player remembers no move and no switch |
| `Player.LocalPlayer.SelectBestDamageMove` | main.py:966-986 | the order and the new memory are those of `BestDamageFallback` |
| `Player.LocalPlayer.OfferedActions` | main.py:1159-1183 | the offered actions are `Candidates`, the switch flag is cleared and the last move is kept |
| `Player.LocalPlayer.ChooseMove` | main.py:1132-1233 | the order and the new memory are those of `Decide`, including the forced replacement of `handle_switch` |
| `Player.LocalPlayer.RespondTo` | main.py:1185-1233 | the order and the new memory are those of `Respond` |
| `Player.LocalPlayer.ChooseRandomSwitch` | main.py:988-997 | the order and the new memory are those of `RandomSwitchTurn` |
| `Player.LocalPlayer.HandleSwitch` | main.py:1235-1271 | the order and the new memory are those of `ForcedSwitch` |

## Left out

- `query_ollama` and the model's conversation: the answers are the input `responses`. A query beyond the given answers gets no answer.
- The prompts are not modelled: `initialize_prompt`, `reset_and_initialize_prompt`, `message_history`, `build_turn_prompt` and the `get_*_string` renderers. They produce text for the language model and no decision depends on them.
- `wait_for_moves` and the force-switch wait loop (asyncio polling): the battle snapshot is taken after the wait, and `stillForced` says whether the forced-switch flag was still up.
- `random.choice` in `choose_random_switch` is the order `RandomSwitch`: which Pokémon comes in is not modelled, only that one does and the memory it leaves. The forced-replacement prompt is not modelled; its one answer is the first of `responses`.
- `choose_random_move` is the order `RandomMove`, and `create_order(None)` is `Pass`.
- The battle library (poke_env) is not modelled. `damage_multiplier` and the `GenData` type chart are the uninterpreted functions of `Oracle`, and the snapshot fields come from it as given.
- `main`, the ladder and account setup, and all `print` logging.
- IEEE-754 floating point: every multiplier and fraction is an exact rational, including `1/3` and `1/1.5`.
- Lowercasing is ASCII-only, and `strip()` removes the ASCII whitespace and the Unicode separators the model lists, not every Unicode space.
- Stat stages are not clamped to [-6, 6]; the formulas apply to any integer boost.
- The weather is one `Weather` value. Where the battle library gives `battle.weather` as a dictionary, every comparison in the code is false, which is the model's `NoWeather`.
- Move accuracy is divided by 100 as the code does; the scale of `accuracy` is whatever the battle library supplies.
- The `if x in filtered_actions` guards around `.remove(x)` are folded into `Remove`, which leaves the list unchanged when `x` is absent.
- Rule 13.5 checks the ability spelled `vitalsprit`, as written, so Vital Spirit never matches.
- The best-move lookup of `select_best_damage_move` cannot fail (proved by `Player.FallbackIdIsMove`), so its crash path is not modelled.
- `Damage.DefendedEffectiveness`, `Damage.Effectiveness`, `Damage.MovePower` and `Damage.ExpectedDamage` state sign facts only; their values are given by their definitions, which the methods `Damage.DefendedMultiplier` and `Damage.EstimateMove` are proved to compute.
