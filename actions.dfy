/** Action lists as the filter pipeline edits them: Python's `list.remove`,
    the removal loops built from it, and the list comprehensions that keep or
    drop entries. */
module ActionLists {
  import opened BattleState

  /** `actions.remove(x)`: drops the first occurrence of `x`. The engine only
      calls it after checking `x in actions`; an absent `x` changes nothing. */
  function Remove(s: seq<string>, x: string): (r: seq<string>)
    ensures x in s ==> |r| == |s| - 1
    ensures x !in s ==> r == s
    ensures forall y :: y != x ==> (y in r <==> y in s)
    ensures forall y :: y in r ==> y in s
  {
    if s == [] then []
    else if s[0] == x then s[1..]
    else [s[0]] + Remove(s[1..], x)
  }

  /** `for x in names: if x in actions: actions.remove(x)` */
  function RemoveEach(s: seq<string>, names: seq<string>): (r: seq<string>)
    ensures forall y :: y !in names ==> (y in r <==> y in s)
    ensures forall y :: y in r ==> y in s
    decreases |names|
  {
    if names == [] then s else RemoveEach(Remove(s, names[0]), names[1..])
  }

  /** `[a for a in s if a not in xs]` */
  function Without(s: seq<string>, xs: seq<string>): (r: seq<string>)
    ensures forall y :: y in r <==> y in s && y !in xs
  {
    if s == [] then []
    else (if s[0] in xs then [] else [s[0]]) + Without(s[1..], xs)
  }

  /** `[a for a in s if a.startswith("switch-")]` */
  function SwitchesOf(s: seq<string>): (r: seq<string>)
    ensures forall y :: y in r <==> y in s && IsSwitch(y)
  {
    if s == [] then []
    else (if IsSwitch(s[0]) then [s[0]] else []) + SwitchesOf(s[1..])
  }

  /** `r` comes from `s` by removals that touch only `names`: nothing is
      added, and every entry of `s` missing from `r` is one of `names`. */
  ghost predicate Prunes(r: seq<string>, s: seq<string>, names: seq<string>) {
    && (forall y :: y in r ==> y in s)
    && (forall y :: y in s && y !in r ==> y in names)
  }

  /** Every element of `r` is an element of `s` or of `extra`. */
  ghost predicate Within(r: seq<string>, s: seq<string>, extra: seq<string>) {
    forall y :: y in r ==> y in s || y in extra
  }

  // ---------------------------------------------------------------------
  // What a removal keeps

  /** `list.remove` takes away exactly one copy of `x` and keeps every other
      element with its multiplicity. */
  lemma {:induction false} RemoveCounts(s: seq<string>, x: string)
    ensures multiset(Remove(s, x)) == multiset(s) - multiset{x}
  {
    if s != [] {
      var tail := s[1..];
      assert s == [s[0]] + tail;
      assert multiset(s) == multiset{s[0]} + multiset(tail);
      if s[0] != x {
        RemoveCounts(tail, x);
        assert Remove(s, x) == [s[0]] + Remove(tail, x);
        assert multiset(Remove(s, x)) == multiset{s[0]} + (multiset(tail) - multiset{x});
      }
    }
  }

  /** On a list without repeats, `list.remove(x)` is the comprehension that
      drops `x`. */
  lemma {:induction false} RemoveIsWithout(s: seq<string>, x: string)
    requires NoDup(s)
    ensures Remove(s, x) == Without(s, [x])
  {
    if s != [] {
      assert NoDup(s[1..]);
      RemoveIsWithout(s[1..], x);
      if s[0] == x {
        assert x !in s[1..];
        WithoutAbsent(s[1..], [x]);
      }
    }
  }

  /** Dropping names that do not occur changes nothing. */
  lemma {:induction false} WithoutAbsent(s: seq<string>, xs: seq<string>)
    requires forall y :: y in s ==> y !in xs
    ensures Without(s, xs) == s
  {
    if s != [] {
      WithoutAbsent(s[1..], xs);
    }
  }

  /** `list.remove` keeps a list free of repeats, and then no copy of the
      removed name is left. */
  lemma {:induction false} RemoveNoDup(s: seq<string>, x: string)
    requires NoDup(s)
    ensures NoDup(Remove(s, x)) && x !in Remove(s, x)
  {
    if s != [] {
      NoDupCons(s[0], s[1..]);
      assert s == [s[0]] + s[1..];
      if s[0] != x {
        RemoveNoDup(s[1..], x);
        NoDupCons(s[0], Remove(s[1..], x));
      }
    }
  }

  /** The removal loop keeps a list free of repeats and leaves none of the
      listed names behind. */
  lemma {:induction false} RemoveEachNoDup(s: seq<string>, names: seq<string>)
    requires NoDup(s)
    ensures NoDup(RemoveEach(s, names))
    ensures forall y :: y in names ==> y !in RemoveEach(s, names)
    decreases |names|
  {
    if names != [] {
      RemoveNoDup(s, names[0]);
      RemoveEachNoDup(Remove(s, names[0]), names[1..]);
      assert names == [names[0]] + names[1..];
    }
  }

  /** A comprehension keeps a list free of repeats. */
  lemma {:induction false} WithoutNoDup(s: seq<string>, xs: seq<string>)
    requires NoDup(s)
    ensures NoDup(Without(s, xs))
  {
    if s != [] {
      NoDupCons(s[0], s[1..]);
      assert s == [s[0]] + s[1..];
      WithoutNoDup(s[1..], xs);
      NoDupCons(s[0], Without(s[1..], xs));
    }
  }

  /** So does keeping only the switch actions. */
  lemma {:induction false} SwitchesOfNoDup(s: seq<string>)
    requires NoDup(s)
    ensures NoDup(SwitchesOf(s))
  {
    if s != [] {
      NoDupCons(s[0], s[1..]);
      assert s == [s[0]] + s[1..];
      SwitchesOfNoDup(s[1..]);
      NoDupCons(s[0], SwitchesOf(s[1..]));
    }
  }

  /** Two comprehensions in a row drop the union of their names. */
  lemma {:induction false} WithoutTwice(s: seq<string>, xs: seq<string>, ys: seq<string>)
    ensures Without(Without(s, xs), ys) == Without(s, xs + ys)
  {
    if s != [] {
      WithoutTwice(s[1..], xs, ys);
      if s[0] !in xs {
        assert Without(s, xs) == [s[0]] + Without(s[1..], xs);
        assert Without(Without(s, xs), ys)
            == (if s[0] in ys then [] else [s[0]]) + Without(Without(s[1..], xs), ys);
      } else {
        assert Without(s, xs) == Without(s[1..], xs);
      }
    }
  }

  /** On a list without repeats, the removal loop over `names` keeps exactly
      the entries not named, in their original order. */
  lemma {:induction false} RemoveEachIsWithout(s: seq<string>, names: seq<string>)
    requires NoDup(s)
    ensures RemoveEach(s, names) == Without(s, names)
    decreases |names|
  {
    if names == [] {
      WithoutAbsent(s, names);
    } else {
      RemoveIsWithout(s, names[0]);
      RemoveNoDup(s, names[0]);
      RemoveEachIsWithout(Remove(s, names[0]), names[1..]);
      WithoutTwice(s, [names[0]], names[1..]);
      assert [names[0]] + names[1..] == names;
    }
  }

  /** The removal loop never adds anything; an entry that is not named keeps
      its multiplicity. */
  lemma {:induction false} RemoveEachKeeps(s: seq<string>, names: seq<string>)
    ensures forall y :: y !in names ==> multiset(RemoveEach(s, names))[y] == multiset(s)[y]
    ensures multiset(RemoveEach(s, names)) <= multiset(s)
    decreases |names|
  {
    if names != [] {
      RemoveCounts(s, names[0]);
      RemoveEachKeeps(Remove(s, names[0]), names[1..]);
    }
  }

  // ---------------------------------------------------------------------
  // The removal loop as the engine runs it

  /** `for x in names: if x in actions: actions.remove(x)` on a copy. */
  method RemoveListed(a: seq<string>, names: seq<string>) returns (r: seq<string>)
    ensures r == RemoveEach(a, names)
  {
    r := a;
    var i := 0;
    while i < |names|
      invariant 0 <= i <= |names|
      invariant RemoveEach(r, names[i..]) == RemoveEach(a, names)
    {
      assert names[i..][1..] == names[i + 1..];
      if names[i] in r {
        r := Remove(r, names[i]);
      }
      i := i + 1;
    }
  }
}
