/** The read-only battle snapshot the decision engine works on, the type
    arithmetic it borrows from the battle library, and the small string and
    lookup helpers shared by every component. */
module BattleState {

  datatype Option<T> = None | Some(value: T)

  datatype PType = Normal | Fire | Water | Electric | Grass | Ice | Fighting | Poison | Ground
                 | Flying | Psychic | Bug | Rock | Ghost | Dragon | Dark | Steel | Fairy

  /** `NoWeather` also stands for every snapshot whose weather compares
      unequal to all the named weathers (the library may report weather as a
      mapping, which no `==`/`in [...]` test in the engine ever matches). */
  datatype Weather = NoWeather | SunnyDay | DesolateLand | RainDance | PrimordialSea | DeltaStream
                   | Hail | Sandstorm | Snow | Snowscape

  datatype Field = ElectricTerrain | GrassyTerrain | PsychicTerrain | MistyTerrain | TrickRoom
                 | Gravity | MagicRoom | WonderRoom | OtherField

  datatype SideCondition = StealthRock | Spikes | ToxicSpikes | StickyWeb | Reflect | LightScreen
                         | AuroraVeil | Tailwind | Safeguard | Mist | OtherSideCondition

  datatype Status = NoStatus | Brn | Frz | Par | Psn | Slp | Tox | Fnt

  datatype Effect = Taunt | Encore | LeechSeed | Bind | Clamp | FireSpin | Infestation | SandTomb
                  | SnapTrap | ThunderCage | Whirlpool | Wrap | Substitute | OtherEffect

  datatype Stat = Atk | Def | Spa | Spd | Spe | Accuracy | Evasion

  datatype Category = Physical | Special | StatusMove

  datatype Move = Move(
    id: string,
    basePower: int,
    ty: PType,
    category: Category,
    accuracy: real,            // as the battle library supplies it; the estimate divides it by 100
    priority: int,
    critRatio: int,
    flags: set<string>,
    boosts: map<Stat, int>,    // an absent boost table is the empty map
    recoil: real)

  /** One Pokémon as the snapshot shows it. `ability` is "" when unknown;
      `types` lists the Pokémon's types without the empty second slot. */
  datatype Pokemon = Pokemon(
    species: string,
    hp: real,                  // current HP fraction
    speStat: real,             // the speed stat before any modifier
    boosts: map<Stat, int>,
    status: Status,
    statusCounter: int,
    ability: string,
    possibleAbilities: seq<string>,
    item: Option<string>,
    types: seq<PType>,
    effects: set<Effect>,
    mustRecharge: bool,
    fainted: bool,
    moves: seq<Move>,          // moves revealed so far (opponent)
    weight: real,              // 0.0 when unknown
    turnCount: int)

  datatype Battle = Battle(
    gen: int,
    turn: int,
    weather: Weather,
    fields: set<Field>,
    sideConditions: map<SideCondition, int>,
    opponentSideConditions: map<SideCondition, int>,
    active: Pokemon,
    opponent: Pokemon,
    team: seq<Pokemon>,
    opponentTeam: seq<Pokemon>,
    availableMoves: seq<Move>,
    availableSwitches: seq<Pokemon>,
    forceSwitch: bool)

  /** The battle library's type arithmetic, whose code is not part of this
      model: `moveMultiplier(p, m)` is `p.damage_multiplier(m)`,
      `typeMultiplier(p, t)` is `p.damage_multiplier(t)`, and
      `chartMultiplier(r, a)` is `r.damage_multiplier(a, type_chart=...)`. */
  datatype Oracle = Oracle(
    moveMultiplier: (Pokemon, Move) -> real,
    typeMultiplier: (Pokemon, PType) -> real,
    chartMultiplier: (PType, PType) -> real)

  /** Type multipliers are never negative. */
  ghost predicate NonNegative(o: Oracle) {
    && (forall p, m :: o.moveMultiplier(p, m) >= 0.0)
    && (forall p, t :: o.typeMultiplier(p, t) >= 0.0)
    && (forall r, a :: o.chartMultiplier(r, a) >= 0.0)
  }

  /** `boosts.get(stat, 0)` */
  function Boost(p: Pokemon, s: Stat): int {
    if s in p.boosts then p.boosts[s] else 0
  }

  /** `side.get(c, 0)` */
  function Count(side: map<SideCondition, int>, c: SideCondition): int {
    if c in side then side[c] else 0
  }

  // ---------------------------------------------------------------------
  // Strings

  function LowerChar(c: char): (r: char)
    ensures 'A' <= c <= 'Z' ==> 'a' <= r <= 'z'
    ensures !('A' <= c <= 'Z') ==> r == c
  {
    if 'A' <= c <= 'Z' then (c as int + 32) as char else c
  }

  /** `str.lower()` on the ASCII letters. */
  function Lower(s: string): (r: string)
    ensures |r| == |s|
    ensures forall i :: 0 <= i < |s| ==> r[i] == LowerChar(s[i])
  {
    if s == [] then [] else [LowerChar(s[0])] + Lower(s[1..])
  }

  /** `species.lower().replace(' ', '-')` */
  function Normalize(species: string): (r: string)
    ensures |r| == |species|
    ensures forall i :: 0 <= i < |r| ==> r[i] != ' ' && !('A' <= r[i] <= 'Z')
  {
    if species == [] then []
    else [if species[0] == ' ' then '-' else LowerChar(species[0])] + Normalize(species[1..])
  }

  const SwitchPrefix: string := "switch-"

  predicate StartsWith(s: string, prefix: string) {
    |prefix| <= |s| && s[..|prefix|] == prefix
  }

  /** `a.startswith("switch-")` */
  predicate IsSwitch(a: string) {
    StartsWith(a, SwitchPrefix)
  }

  /** `s.replace("switch-", "")`: every occurrence, scanned left to right. */
  function StripSwitchPrefix(s: string): (r: string)
    ensures |r| <= |s|
    decreases |s|
  {
    if |s| == 0 then []
    else if StartsWith(s, SwitchPrefix) then StripSwitchPrefix(s[|SwitchPrefix|..])
    else [s[0]] + StripSwitchPrefix(s[1..])
  }

  /** `sub in s` for strings. */
  predicate Contains(s: string, sub: string)
    decreases |s|
  {
    StartsWith(s, sub) || (|s| > 0 && Contains(s[1..], sub))
  }

  /** The action name of a switch to `p`: `f"switch-{p.species.lower().replace(' ', '-')}"`. */
  function SwitchId(p: Pokemon): (r: string)
    ensures IsSwitch(r)
  {
    SwitchPrefix + Normalize(p.species)
  }

  /** One switch action per available switch, in the snapshot's order. */
  function SwitchIds(ps: seq<Pokemon>): (r: seq<string>)
    ensures |r| == |ps|
    ensures forall i :: 0 <= i < |ps| ==> r[i] == SwitchId(ps[i])
  {
    if ps == [] then [] else [SwitchId(ps[0])] + SwitchIds(ps[1..])
  }

  function AllSwitchIds(b: Battle): seq<string> {
    SwitchIds(b.availableSwitches)
  }

  /** Every switch action carries the `switch-` prefix. */
  lemma AllSwitchIdsAreSwitches(b: Battle)
    ensures forall y :: y in AllSwitchIds(b) ==> IsSwitch(y)
  {
    forall y | y in AllSwitchIds(b) ensures IsSwitch(y) {
      var k :| 0 <= k < |AllSwitchIds(b)| && AllSwitchIds(b)[k] == y;
    }
  }

  function MoveIds(ms: seq<Move>): (r: seq<string>)
    ensures |r| == |ms|
    ensures forall i :: 0 <= i < |ms| ==> r[i] == ms[i].id
  {
    if ms == [] then [] else [ms[0].id] + MoveIds(ms[1..])
  }

  /** `next((m for m in moves if m.id == id), None)` */
  function FindMove(ms: seq<Move>, id: string): (r: Option<Move>)
    ensures r.Some? ==> r.value in ms && r.value.id == id
    ensures r.Some? ==> exists k :: 0 <= k < |ms| && ms[k] == r.value && forall j :: 0 <= j < k ==> ms[j].id != id
    ensures r.None? <==> forall m :: m in ms ==> m.id != id
  {
    if ms == [] then None
    else if ms[0].id == id then Some(ms[0])
    else FindMove(ms[1..], id)
  }

  /** `next((p for p in switches if p.species.lower().replace(' ', '-') == name), None)` */
  function FindSpecies(ps: seq<Pokemon>, name: string): (r: Option<Pokemon>)
    ensures r.Some? ==> r.value in ps && Normalize(r.value.species) == name
    ensures r.Some? ==> exists k :: 0 <= k < |ps| && ps[k] == r.value && forall j :: 0 <= j < k ==> Normalize(ps[j].species) != name
    ensures r.None? <==> forall p :: p in ps ==> Normalize(p.species) != name
  {
    if ps == [] then None
    else if Normalize(ps[0].species) == name then Some(ps[0])
    else FindSpecies(ps[1..], name)
  }

  // ---------------------------------------------------------------------
  // The per-turn damage map: an insertion-ordered dictionary from move id to
  // its estimate.

  datatype DamageInfo = DamageInfo(expectedDamage: real, stab: bool, multiplier: real, priority: int)

  datatype Entry = Entry(id: string, info: DamageInfo)

  type DamageMap = seq<Entry>

  function Keys(dm: DamageMap): (r: seq<string>)
    ensures |r| == |dm|
    ensures forall i :: 0 <= i < |dm| ==> r[i] == dm[i].id
  {
    seq(|dm|, i requires 0 <= i < |dm| => dm[i].id)
  }

  /** No element occurs twice. */
  predicate NoDup<T(==)>(s: seq<T>) {
    forall i, j :: 0 <= i < j < |s| ==> s[i] != s[j]
  }

  /** A list with a head is free of repeats exactly when its tail is and
      does not hold the head. */
  lemma NoDupCons<T>(a: T, t: seq<T>)
    ensures NoDup([a] + t) <==> a !in t && NoDup(t)
  {
    var s := [a] + t;
    assert s[1..] == t;
    if a in t {
      var k :| 0 <= k < |t| && t[k] == a;
      assert s[0] == s[k + 1];
    }
  }

  lemma AppendAssoc<T>(a: seq<T>, b: seq<T>, c: seq<T>)
    ensures a + (b + c) == (a + b) + c
  {
  }

  lemma NoDupSnoc<T>(t: seq<T>, a: T)
    ensures NoDup(t + [a]) <==> a !in t && NoDup(t)
  {
    var s := t + [a];
    assert s[..|t|] == t;
    if a in t {
      var k :| 0 <= k < |t| && t[k] == a;
      assert s[k] == s[|t|];
    }
  }

  /** No key occurs twice. */
  predicate DistinctKeys(dm: DamageMap) {
    NoDup(Keys(dm))
  }

  /** `damage_map.get(id)` */
  function Lookup(dm: DamageMap, id: string): (r: Option<DamageInfo>)
    ensures r.None? <==> id !in Keys(dm)
    ensures r.Some? ==> Entry(id, r.value) in dm
  {
    if dm == [] then None
    else if dm[0].id == id then Some(dm[0].info)
    else Lookup(dm[1..], id)
  }

  /** `damage_map.get(id, {}).get('multiplier', 1)` */
  function MultiplierOr1(dm: DamageMap, id: string): real {
    match Lookup(dm, id)
    case Some(info) => info.multiplier
    case None => 1.0
  }

  /** `damage_map[id] = info`: an existing key keeps its position and gets the
      new value, a new key goes to the end. */
  function Put(dm: DamageMap, id: string, info: DamageInfo): (r: DamageMap)
    ensures |r| == if id in Keys(dm) then |dm| else |dm| + 1
  {
    if dm == [] then [Entry(id, info)]
    else if dm[0].id == id then [Entry(id, info)] + dm[1..]
    else [dm[0]] + Put(dm[1..], id, info)
  }

  /** The keys after a store: unchanged when the key was present, the key
      appended otherwise; the stored key then maps to the new value. */
  lemma PutKeys(dm: DamageMap, id: string, info: DamageInfo)
    ensures id in Keys(dm) ==> Keys(Put(dm, id, info)) == Keys(dm)
    ensures id !in Keys(dm) ==> Keys(Put(dm, id, info)) == Keys(dm) + [id]
    ensures Lookup(Put(dm, id, info), id) == Some(info)
  {
    PutKeyOrder(dm, id, info);
    PutLookup(dm, id, info);
  }

  lemma {:induction false} PutKeyOrder(dm: DamageMap, id: string, info: DamageInfo)
    ensures Keys(Put(dm, id, info)) == if id in Keys(dm) then Keys(dm) else Keys(dm) + [id]
  {
    if dm != [] {
      var rest := dm[1..];
      assert dm == [dm[0]] + rest;
      KeysCons(dm[0], rest);
      if dm[0].id != id {
        PutKeyOrder(rest, id, info);
        assert Put(dm, id, info) == [dm[0]] + Put(rest, id, info);
        KeysCons(dm[0], Put(rest, id, info));
        assert id in Keys(dm) <==> id in Keys(rest);
        if id !in Keys(rest) {
          AppendAssoc([dm[0].id], Keys(rest), [id]);
        }
      } else {
        assert Put(dm, id, info) == [Entry(id, info)] + rest;
        KeysCons(Entry(id, info), rest);
      }
    }
  }

  /** The keys of an entry followed by a map. */
  lemma KeysCons(e: Entry, dm: DamageMap)
    ensures Keys([e] + dm) == [e.id] + Keys(dm)
  {
  }

  lemma {:induction false} PutLookup(dm: DamageMap, id: string, info: DamageInfo)
    ensures Lookup(Put(dm, id, info), id) == Some(info)
  {
    if dm != [] && dm[0].id != id {
      PutLookup(dm[1..], id, info);
    }
  }

  /** Storing under one key leaves every other key's value alone. */
  lemma {:induction false} PutKeepsOthers(dm: DamageMap, id: string, info: DamageInfo, k: string)
    requires k != id
    ensures Lookup(Put(dm, id, info), k) == Lookup(dm, k)
  {
    if dm != [] && dm[0].id != id {
      PutKeepsOthers(dm[1..], id, info, k);
    }
  }

  /** A map without repeated keys keeps that property under a store. */
  lemma PutDistinct(dm: DamageMap, id: string, info: DamageInfo)
    requires DistinctKeys(dm)
    ensures DistinctKeys(Put(dm, id, info))
  {
    PutKeys(dm, id, info);
  }
}
