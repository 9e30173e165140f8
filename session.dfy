/**
 * The session controller's power-up inventory (App.tsx): adding a power-up,
 * revoking the first occurrences of a kind, and the level-complete pruning
 * with its boss reward and offensive count.
 *
 * The inventory is an ordered list in which VITALITY may repeat; every
 * other kind is kept unique by the pruning at each level transition.
 */
module Session {
  import opened GameTypes

  // ---------------------------------------------------------------------
  // Reference definitions on sequences
  // ---------------------------------------------------------------------

  /** The inventory with every entry of kind `t` taken out, order kept. */
  function Without(s: seq<PowerUpType>, t: PowerUpType): seq<PowerUpType>
  {
    if s == [] then []
    else (if s[0] == t then [] else [s[0]]) + Without(s[1..], t)
  }

  /** `a` occurs in `b` in order, possibly with gaps. */
  predicate IsSubsequence<T(==)>(a: seq<T>, b: seq<T>)
  {
    if a == [] then true
    else if b == [] then false
    else if a[0] == b[0] then IsSubsequence(a[1..], b[1..])
    else IsSubsequence(a, b[1..])
  }

  lemma {:induction false} SubsequenceOfPrefix<T>(a: seq<T>, b: seq<T>, c: seq<T>)
    requires IsSubsequence(a, b)
    ensures IsSubsequence(a, b + c)
  {
    if a != [] && b != [] {
      assert (b + c)[1..] == b[1..] + c;
      if a[0] == b[0] {
        SubsequenceOfPrefix(a[1..], b[1..], c);
      } else {
        SubsequenceOfPrefix(a, b[1..], c);
      }
    }
  }

  lemma {:induction false} SubsequenceAppend<T>(a: seq<T>, b: seq<T>, x: T)
    requires IsSubsequence(a, b)
    ensures IsSubsequence(a + [x], b + [x])
  {
    if a == [] {
      if b == [] {
      } else {
        assert (b + [x])[1..] == b[1..] + [x];
        if b[0] != x {
          SubsequenceAppend(a, b[1..], x);
        }
      }
    } else {
      assert (a + [x])[1..] == a[1..] + [x];
      assert (b + [x])[1..] == b[1..] + [x];
      if a[0] == b[0] {
        SubsequenceAppend(a[1..], b[1..], x);
      } else {
        SubsequenceAppend(a, b[1..], x);
      }
    }
  }

  lemma {:induction false} SubsequenceReflexive<T>(a: seq<T>)
    ensures IsSubsequence(a, a)
  {
    if a != [] {
      SubsequenceReflexive(a[1..]);
    }
  }

  // ---------------------------------------------------------------------
  // addPowerup (App.tsx:176-181)
  // ---------------------------------------------------------------------

  /** The inventory together with the player's maximum hp, which VITALITY raises. */
  datatype Stock = Stock(powerups: seq<PowerUpType>, maxHp: int)

  /** Appends `t` at the end; a VITALITY also raises `maxHp` by one. */
  function AddPowerup(s: Stock, t: PowerUpType): (r: Stock)
    ensures |r.powerups| == |s.powerups| + 1 && r.powerups[..|s.powerups|] == s.powerups
    ensures r.powerups[|s.powerups|] == t
    ensures Count(r.powerups, t) == Count(s.powerups, t) + 1
    ensures forall u :: u != t ==> Count(r.powerups, u) == Count(s.powerups, u)
    ensures r.maxHp == s.maxHp + (if t == Vitality then 1 else 0)
  {
    assert (s.powerups + [t])[..|s.powerups|] == s.powerups;
    Stock(s.powerups + [t], if t == Vitality then s.maxHp + 1 else s.maxHp)
  }

  /** The bookkeeping invariant: max hp is the base plus one per VITALITY held. */
  predicate MaxHpTracksVitality(s: Stock)
  {
    s.maxHp == BASE_MAX_HP + Count(s.powerups, Vitality)
  }

  lemma AddPowerupKeepsMaxHp(s: Stock, t: PowerUpType)
    requires MaxHpTracksVitality(s)
    ensures MaxHpTracksVitality(AddPowerup(s, t))
  {
  }

  // ---------------------------------------------------------------------
  // removePowerup (App.tsx:183-198)
  // ---------------------------------------------------------------------

  /** `indexOf`: the first position of `t`, or -1. */
  function IndexOf(s: seq<PowerUpType>, t: PowerUpType): (i: int)
    ensures -1 <= i < |s|
    ensures i >= 0 ==> s[i] == t && t !in s[..i]
    ensures i == -1 <==> t !in s
  {
    if s == [] then -1
    else if s[0] == t then 0
    else
      var j := IndexOf(s[1..], t);
      assert j >= 0 ==> s[1..][..j] == s[1..j + 1];
      if j == -1 then -1 else j + 1
  }

  /** One `splice(indexOf(t), 1)`: drops the first `t`, if any. */
  function RemoveFirst(s: seq<PowerUpType>, t: PowerUpType): seq<PowerUpType>
  {
    var i := IndexOf(s, t);
    if i > -1 then s[..i] + s[i + 1..] else s
  }

  /** The typed branch of the removal loop run `n` times, stopping on an empty list. */
  function RemoveTimes(s: seq<PowerUpType>, t: PowerUpType, n: int): seq<PowerUpType>
    decreases if n < 0 then 0 else n
  {
    if n <= 0 || |s| == 0 then s else RemoveTimes(RemoveFirst(s, t), t, n - 1)
  }

  lemma {:induction false} WithoutConcat(a: seq<PowerUpType>, b: seq<PowerUpType>, t: PowerUpType)
    ensures Without(a + b, t) == Without(a, t) + Without(b, t)
  {
    if a != [] {
      assert (a + b)[0] == a[0];
      assert (a + b)[1..] == a[1..] + b;
      WithoutConcat(a[1..], b, t);
      var h := if a[0] == t then [] else [a[0]];
      assert Without(a + b, t) == h + (Without(a[1..], t) + Without(b, t));
      assert h + (Without(a[1..], t) + Without(b, t)) == (h + Without(a[1..], t)) + Without(b, t);
    } else {
      assert a + b == b;
    }
  }

  /** Dropping the first `t` takes exactly one `t` out of the holding, if there is one. */
  lemma RemoveFirstMultiset(s: seq<PowerUpType>, t: PowerUpType)
    ensures multiset(RemoveFirst(s, t)) == multiset(s) - multiset{t}
  {
    var i := IndexOf(s, t);
    if i > -1 {
      var pre, post := s[..i], s[i + 1..];
      assert s == pre + [t] + post;
      DropMiddleMultiset(pre, t, post);
    }
  }

  /** Dropping the first `t` lowers the count of `t` by one when it is held, and no other count. */
  lemma RemoveFirstCounts(s: seq<PowerUpType>, t: PowerUpType, u: PowerUpType)
    ensures Count(RemoveFirst(s, t), u) == if u == t && t in s then Count(s, u) - 1 else Count(s, u)
  {
    RemoveFirstMultiset(s, t);
    assert t in s <==> multiset(s)[t] > 0;
  }

  lemma RemoveFirstAbsent(s: seq<PowerUpType>, t: PowerUpType)
    requires t !in s
    ensures RemoveFirst(s, t) == s
  {
    assert IndexOf(s, t) == -1;
  }

  lemma DropMiddleMultiset(pre: seq<PowerUpType>, t: PowerUpType, post: seq<PowerUpType>)
    ensures multiset(pre + post) == multiset(pre + [t] + post) - multiset{t}
  {
    assert multiset(pre + [t] + post) == multiset(pre) + multiset{t} + multiset(post);
  }

  /** Dropping the first `t` leaves every other entry in place and in order. */
  lemma RemoveFirstWithout(s: seq<PowerUpType>, t: PowerUpType)
    ensures Without(RemoveFirst(s, t), t) == Without(s, t)
  {
    var i := IndexOf(s, t);
    if i > -1 {
      var pre, post := s[..i], s[i + 1..];
      assert s == (pre + [t]) + post;
      WithoutConcat(pre + [t], post, t);
      WithoutConcat(pre, [t], t);
      WithoutConcat(pre, post, t);
      assert Without([t], t) == [];
    }
  }

  /**
   * Revoking `n` copies of `t` removes its first occurrences, at most `n`
   * of them, and does nothing when `t` is not held.
   */
  lemma {:induction false} RemoveTimesCount(s: seq<PowerUpType>, t: PowerUpType, n: int)
    ensures Count(RemoveTimes(s, t, n), t) == if n <= 0 then Count(s, t) else if Count(s, t) <= n then 0 else Count(s, t) - n
    decreases if n < 0 then 0 else n
  {
    if n > 0 && |s| > 0 {
      var s' := RemoveFirst(s, t);
      assert RemoveTimes(s, t, n) == RemoveTimes(s', t, n - 1);
      RemoveFirstCounts(s, t, t);
      RemoveTimesCount(s', t, n - 1);
      if t !in s {
        assert Count(s, t) == 0;
      }
    }
  }

  /** Revoking copies of `t` leaves the count of every other kind alone. */
  lemma {:induction false} RemoveTimesOtherCounts(s: seq<PowerUpType>, t: PowerUpType, n: int, u: PowerUpType)
    requires u != t
    ensures Count(RemoveTimes(s, t, n), u) == Count(s, u)
    decreases if n < 0 then 0 else n
  {
    if n > 0 && |s| > 0 {
      var s' := RemoveFirst(s, t);
      assert RemoveTimes(s, t, n) == RemoveTimes(s', t, n - 1);
      RemoveFirstCounts(s, t, u);
      RemoveTimesOtherCounts(s', t, n - 1, u);
    }
  }

  /** Revoking a kind that is not held is a no-op. */
  lemma {:induction false} RemoveTimesAbsent(s: seq<PowerUpType>, t: PowerUpType, n: int)
    requires t !in s
    ensures RemoveTimes(s, t, n) == s
    decreases if n < 0 then 0 else n
  {
    if n > 0 && |s| > 0 {
      RemoveFirstAbsent(s, t);
      assert RemoveTimes(s, t, n) == RemoveTimes(s, t, n - 1);
      RemoveTimesAbsent(s, t, n - 1);
    }
  }

  /** Revoking copies of `t` leaves every other entry in its relative order. */
  lemma {:induction false} RemoveTimesKeepsOthers(s: seq<PowerUpType>, t: PowerUpType, n: int)
    ensures Without(RemoveTimes(s, t, n), t) == Without(s, t)
    ensures IsSubsequence(RemoveTimes(s, t, n), s)
    decreases if n < 0 then 0 else n
  {
    if n <= 0 || |s| == 0 {
      SubsequenceReflexive(s);
    } else {
      var s' := RemoveFirst(s, t);
      var r := RemoveTimes(s', t, n - 1);
      assert RemoveTimes(s, t, n) == r;
      RemoveFirstWithout(s, t);
      RemoveTimesKeepsOthers(s', t, n - 1);
      RemoveFirstIsSubsequence(s, t);
      SubsequenceTransitive(r, s', s);
    }
  }

  lemma RemoveFirstIsSubsequence(s: seq<PowerUpType>, t: PowerUpType)
    ensures IsSubsequence(RemoveFirst(s, t), s)
  {
    var i := IndexOf(s, t);
    if i > -1 {
      DropOneIsSubsequence(s, i);
    } else {
      SubsequenceReflexive(s);
    }
  }

  lemma {:induction false} DropOneIsSubsequence<T>(s: seq<T>, i: nat)
    requires i < |s|
    ensures IsSubsequence(s[..i] + s[i + 1..], s)
  {
    if i == 0 {
      assert s[..0] + s[1..] == s[1..];
      SubsequenceReflexive(s[1..]);
      SubsequenceOfTail(s[1..], s);
    } else {
      DropOneIsSubsequence(s[1..], i - 1);
      assert s[1..][..i - 1] + s[1..][i..] == (s[..i] + s[i + 1..])[1..];
    }
  }

  lemma {:induction false} SubsequenceOfTail<T>(a: seq<T>, s: seq<T>)
    requires s != [] && IsSubsequence(a, s[1..])
    ensures IsSubsequence(a, s)
    decreases |s|, 1
  {
    if a != [] && a[0] == s[0] {
      SubsequenceDropHead(a, s[1..]);
    }
  }

  lemma {:induction false} SubsequenceDropHead<T>(a: seq<T>, b: seq<T>)
    requires a != [] && IsSubsequence(a, b)
    ensures IsSubsequence(a[1..], b)
    decreases |b|, 2
  {
    if b != [] {
      if a[0] == b[0] {
        SubsequenceOfTail(a[1..], b);
      } else {
        SubsequenceDropHead(a, b[1..]);
        SubsequenceOfTail(a[1..], b);
      }
    }
  }

  lemma {:induction false} SubsequenceTransitive<T>(a: seq<T>, b: seq<T>, c: seq<T>)
    requires IsSubsequence(a, b) && IsSubsequence(b, c)
    ensures IsSubsequence(a, c)
    decreases |c|
  {
    if a != [] {
      assert b != [] && c != [];
      if b[0] == c[0] {
        if a[0] == b[0] {
          SubsequenceTransitive(a[1..], b[1..], c[1..]);
        } else {
          SubsequenceTransitive(a, b[1..], c[1..]);
          SubsequenceOfTail(a, c);
        }
      } else {
        SubsequenceTransitive(a, b, c[1..]);
        SubsequenceOfTail(a, c);
      }
    }
  }

  lemma RemoveTimesStep(s: seq<PowerUpType>, t: PowerUpType, n: int)
    requires n > 0 && |s| > 0
    ensures RemoveTimes(s, t, n) == RemoveTimes(RemoveFirst(s, t), t, n - 1)
  {
  }

  lemma RemoveTimesDone(s: seq<PowerUpType>, t: PowerUpType, n: int)
    requires n <= 0 || |s| == 0
    ensures RemoveTimes(s, t, n) == s
  {
  }

  /** A subsequence never holds more of any kind than the list it came from. */
  lemma {:induction false} SubsequenceMultiset<T>(a: seq<T>, b: seq<T>)
    requires IsSubsequence(a, b)
    ensures multiset(a) <= multiset(b)
  {
    if a != [] {
      assert b == [b[0]] + b[1..] && a == [a[0]] + a[1..];
      if a[0] == b[0] {
        SubsequenceMultiset(a[1..], b[1..]);
      } else {
        SubsequenceMultiset(a, b[1..]);
      }
    }
  }

  /**
   * `removePowerup(type, count)`: a counted loop over a copy of the
   * inventory. With a kind, each round splices out the first occurrence;
   * without one, each round splices out the entry at a random index, drawn
   * here from `rolls[i]`. The loop stops early once the list is empty.
   */
  method RemovePowerup(inventory: seq<PowerUpType>, kind: Option<PowerUpType>, count: int, rolls: seq<real>)
    returns (updated: seq<PowerUpType>)
    requires kind.None? ==> |rolls| >= count
    requires forall j :: 0 <= j < |rolls| ==> 0.0 <= rolls[j] < 1.0
    ensures kind.Some? ==> updated == RemoveTimes(inventory, kind.value, count)
    ensures kind.None? ==> |updated| == if count <= 0 then |inventory| else if |inventory| <= count then 0 else |inventory| - count
    ensures IsSubsequence(updated, inventory)
  {
    updated := inventory;
    SubsequenceReflexive(inventory);
    var i := 0;
    while i < count
      invariant 0 <= i && (i <= count || i == 0)
      invariant RemovalInvariant(inventory, updated, kind, count, i)
    {
      if |updated| == 0 {
        break;
      }
      var roll := 0.0;
      if kind.None? {
        roll := rolls[i];
      }
      updated := RemovalRound(inventory, updated, kind, roll, count, i);
      i := i + 1;
    }
    if kind.Some? {
      RemoveTimesDone(updated, kind.value, count - i);
    }
  }

  /** What holds after `i` rounds of the removal loop. */
  ghost predicate RemovalInvariant(inventory: seq<PowerUpType>, updated: seq<PowerUpType>, kind: Option<PowerUpType>, count: int, i: int)
  {
    && (kind.Some? ==> RemoveTimes(inventory, kind.value, count) == RemoveTimes(updated, kind.value, count - i))
    && (kind.None? ==> |updated| == if |inventory| <= i then 0 else |inventory| - i)
    && IsSubsequence(updated, inventory)
  }

  /** Round `i` of the loop, on a list that is not yet empty. */
  method RemovalRound(ghost inventory: seq<PowerUpType>, list: seq<PowerUpType>, kind: Option<PowerUpType>, roll: real, ghost count: int, ghost i: int)
    returns (r: seq<PowerUpType>)
    requires list != [] && 0.0 <= roll < 1.0 && 0 <= i < count
    requires RemovalInvariant(inventory, list, kind, count, i)
    ensures kind.Some? ==> r == RemoveFirst(list, kind.value)
    ensures kind.None? ==> r == list[..RollIndex(roll, |list|)] + list[RollIndex(roll, |list|) + 1..]
    ensures RemovalInvariant(inventory, r, kind, count, i + 1)
  {
    if kind.Some? {
      r := SpliceFirst(list, kind.value);
      RemoveTimesStep(list, kind.value, count - i);
    } else {
      r := SpliceAt(list, RollIndex(roll, |list|));
    }
    SubsequenceTransitive(r, list, inventory);
  }

  /** One typed round: `indexOf`, then `splice` when the kind is found. */
  method SpliceFirst(list: seq<PowerUpType>, t: PowerUpType) returns (r: seq<PowerUpType>)
    ensures r == RemoveFirst(list, t)
    ensures IsSubsequence(r, list)
  {
    var idx := IndexOf(list, t);
    if idx > -1 {
      DropOneIsSubsequence(list, idx);
      r := list[..idx] + list[idx + 1..];
    } else {
      SubsequenceReflexive(list);
      r := list;
    }
  }

  /** One untyped round: `splice` at the drawn index. */
  method SpliceAt(list: seq<PowerUpType>, idx: nat) returns (r: seq<PowerUpType>)
    requires idx < |list|
    ensures r == list[..idx] + list[idx + 1..] && |r| == |list| - 1
    ensures IsSubsequence(r, list)
  {
    DropOneIsSubsequence(list, idx);
    r := list[..idx] + list[idx + 1..];
  }

  // ---------------------------------------------------------------------
  // handleLevelComplete (App.tsx:134-174)
  // ---------------------------------------------------------------------

  /**
   * Reference definition of the pruning: an entry is kept when it is a
   * VITALITY or when its kind does not occur earlier in the list.
   */
  function Prune(s: seq<PowerUpType>): (r: seq<PowerUpType>)
    ensures |r| <= |s|
  {
    if s == [] then []
    else
      var init, last := s[..|s| - 1], s[|s| - 1];
      Prune(init) + (if last == Vitality || last !in init then [last] else [])
  }

  /**
   * The `forEach` over the inventory with a `seen` set, pushing into
   * `nextPowerups`: it computes exactly `Prune`.
   */
  method PruneInventory(powerups: seq<PowerUpType>) returns (next: seq<PowerUpType>)
    ensures next == Prune(powerups)
  {
    next := [];
    var seen: set<PowerUpType> := {};
    for i := 0 to |powerups|
      invariant next == Prune(powerups[..i])
      invariant forall t :: t in seen <==> t != Vitality && t in powerups[..i]
    {
      var p := powerups[i];
      assert powerups[..i + 1][..i] == powerups[..i];
      if p == Vitality {
        next := next + [p];
      } else if p !in seen {
        next := next + [p];
        seen := seen + {p};
      }
    }
    assert powerups[..|powerups|] == powerups;
  }

  /** The pruning of a non-empty list, from the pruning of all but its last entry. */
  lemma PruneLast(s: seq<PowerUpType>)
    requires s != []
    ensures var init, last := s[..|s| - 1], s[|s| - 1];
      Prune(s) == Prune(init) + (if last == Vitality || last !in init then [last] else [])
  {
  }

  /** Pruning neither invents nor loses a kind. */
  lemma {:induction false} PruneSameKinds(s: seq<PowerUpType>, t: PowerUpType)
    ensures t in Prune(s) <==> t in s
  {
    if s != [] {
      var init := s[..|s| - 1];
      assert s == init + [s[|s| - 1]];
      PruneSameKinds(init, t);
    }
  }

  /** Every VITALITY stack survives the pruning. */
  lemma {:induction false} PruneKeepsVitality(s: seq<PowerUpType>)
    ensures Count(Prune(s), Vitality) == Count(s, Vitality)
  {
    if s != [] {
      var init := s[..|s| - 1];
      assert s == init + [s[|s| - 1]];
      PruneKeepsVitality(init);
    }
  }

  /** Any other kind that was held is held exactly once afterwards. */
  lemma {:induction false} PruneKeepsOneOfEach(s: seq<PowerUpType>, t: PowerUpType)
    requires t != Vitality
    ensures Count(Prune(s), t) == if t in s then 1 else 0
  {
    if s != [] {
      var init := s[..|s| - 1];
      assert s == init + [s[|s| - 1]];
      PruneKeepsOneOfEach(init, t);
      PruneSameKinds(init, t);
    }
  }

  /** Pruning keeps the relative order of the entries it keeps. */
  lemma {:induction false} PruneIsSubsequence(s: seq<PowerUpType>)
    ensures IsSubsequence(Prune(s), s)
  {
    if s != [] {
      var init, last := s[..|s| - 1], s[|s| - 1];
      assert s == init + [last];
      PruneIsSubsequence(init);
      PruneLast(s);
      if last == Vitality || last !in init {
        assert Prune(s) == Prune(init) + [last];
        SubsequenceAppend(Prune(init), init, last);
      } else {
        assert Prune(s) == Prune(init);
        SubsequenceOfPrefix(Prune(init), init, [last]);
      }
    }
  }

  /** The kept occurrence of a non-VITALITY kind is its first one. */
  lemma PruneKeepsFirstOccurrence(s: seq<PowerUpType>, t: PowerUpType, k: nat)
    requires t != Vitality && k <= |s|
    ensures Count(Prune(s[..k]), t) == if t in s[..k] then 1 else 0
    ensures Prune(s[..k]) <= Prune(s)
  {
    PruneKeepsOneOfEach(s[..k], t);
    PrunePrefix(s, k);
  }

  lemma {:induction false} PrunePrefix(s: seq<PowerUpType>, k: nat)
    requires k <= |s|
    ensures Prune(s[..k]) <= Prune(s)
    decreases |s| - k
  {
    if k < |s| {
      PrunePrefix(s, k + 1);
      assert s[..k + 1][..k] == s[..k];
    } else {
      assert s[..k] == s;
    }
  }

  /** Pruning an already pruned inventory changes nothing. */
  lemma {:induction false} PruneIdempotent(s: seq<PowerUpType>)
    ensures Prune(Prune(s)) == Prune(s)
  {
    if s != [] {
      var init, last := s[..|s| - 1], s[|s| - 1];
      PruneIdempotent(init);
      var p := Prune(init);
      PruneSameKinds(init, last);
      assert s[..|s| - 1] == init;
      if last == Vitality || last !in init {
        var q := p + [last];
        assert Prune(s) == q;
        assert q[..|q| - 1] == p && q[|q| - 1] == last;
        assert Prune(q) == Prune(p) + [last];
      } else {
        assert Prune(s) == p;
      }
    }
  }

  /** The offensive power-ups: the entries that are not VITALITY. */
  function OffensiveCount(s: seq<PowerUpType>): (n: nat)
    ensures n == |s| - Count(s, Vitality)
  {
    OffensiveCountIsRest(s);
    |Without(s, Vitality)|
  }

  lemma {:induction false} OffensiveCountIsRest(s: seq<PowerUpType>)
    ensures |Without(s, Vitality)| == |s| - Count(s, Vitality)
  {
    if s != [] {
      assert s == [s[0]] + s[1..];
      OffensiveCountIsRest(s[1..]);
    }
  }

  /** The boss reward pool, in the order the draw indexes it. */
  const REWARD_POOL: seq<PowerUpType> := [RapidFire, TripleShot, Vitality]

  datatype LevelTransition = LevelTransition(powerups: seq<PowerUpType>, maxHp: int, nextLevel: int, offensiveCount: nat)

  /**
   * `handleLevelComplete`: prunes the inventory, adds a boss reward drawn by
   * `roll` after every seventh level (raising max hp when it is VITALITY),
   * advances the level and counts the offensive power-ups the generator
   * uses for its difficulty.
   */
  method HandleLevelComplete(powerups: seq<PowerUpType>, maxHp: int, currentLevel: int, roll: real)
    returns (r: LevelTransition)
    requires 0.0 <= roll < 1.0
    ensures currentLevel % 7 != 0 ==> r.powerups == Prune(powerups) && r.maxHp == maxHp
    ensures currentLevel % 7 == 0 ==>
      |r.powerups| == |Prune(powerups)| + 1 && r.powerups[..|Prune(powerups)|] == Prune(powerups)
      && r.powerups[|Prune(powerups)|] == REWARD_POOL[RollIndex(roll, |REWARD_POOL|)]
      && r.maxHp == maxHp + (if r.powerups[|Prune(powerups)|] == Vitality then 1 else 0)
    ensures r.offensiveCount == |r.powerups| - Count(r.powerups, Vitality)
    ensures r.nextLevel == currentLevel + 1
  {
    var next := PruneInventory(powerups);
    var newMaxHp := maxHp;
    if currentLevel % 7 == 0 {
      var newPower := REWARD_POOL[RollIndex(roll, |REWARD_POOL|)];
      next := next + [newPower];
      if newPower == Vitality {
        newMaxHp := newMaxHp + 1;
      }
    }
    r := LevelTransition(next, newMaxHp, currentLevel + 1, OffensiveCount(next));
  }

  /** The boss reward the draw picks: RAPID_FIRE below 1/3, TRIPLE_SHOT below 2/3, VITALITY from 2/3 up. */
  lemma RewardOfRoll(roll: real)
    requires 0.0 <= roll < 1.0
    ensures var w := REWARD_POOL[RollIndex(roll, |REWARD_POOL|)];
      (w == RapidFire <==> roll < 1.0 / 3.0)
      && (w == TripleShot <==> 1.0 / 3.0 <= roll < 2.0 / 3.0)
      && (w == Vitality <==> 2.0 / 3.0 <= roll)
  {
    var i := RollIndex(roll, |REWARD_POOL|);
    assert (i as real) <= roll * 3.0 < (i as real) + 1.0;
  }

  /** A level transition keeps max hp equal to the base plus the VITALITY stacks. */
  lemma LevelCompleteKeepsMaxHp(powerups: seq<PowerUpType>, maxHp: int, r: LevelTransition)
    requires MaxHpTracksVitality(Stock(powerups, maxHp))
    requires (r.powerups == Prune(powerups) && r.maxHp == maxHp)
      || (|r.powerups| == |Prune(powerups)| + 1 && r.powerups[..|Prune(powerups)|] == Prune(powerups)
          && r.maxHp == maxHp + (if r.powerups[|Prune(powerups)|] == Vitality then 1 else 0))
    ensures MaxHpTracksVitality(Stock(r.powerups, r.maxHp))
  {
    PruneKeepsVitality(powerups);
    if r.powerups != Prune(powerups) || r.maxHp != maxHp {
      var p := Prune(powerups);
      assert r.powerups == p + [r.powerups[|p|]];
    }
  }

  /** Granting one power-up and then revoking that kind once gives back the same holding. */
  lemma AddThenRemoveSameHolding(s: seq<PowerUpType>, t: PowerUpType)
    ensures multiset(RemoveTimes(AddPowerup(Stock(s, 0), t).powerups, t, 1)) == multiset(s)
  {
    var a := s + [t];
    assert AddPowerup(Stock(s, 0), t).powerups == a;
    assert RemoveTimes(a, t, 1) == RemoveFirst(a, t) by {
      assert RemoveTimes(RemoveFirst(a, t), t, 0) == RemoveFirst(a, t);
    }
    RemoveFirstMultiset(a, t);
    assert multiset(a) == multiset(s) + multiset{t};
  }
}
