/**
 * `NetworkPlayersStorage`: a list of players that tells each of its
 * delegates about every `Add` and `Remove`, and answers order-preserving
 * queries over the list.
 */
module Storage {
  import opened Wrappers

  /** The first element of `s` that `accepts` takes, if any (`List.Find`). */
  function FirstMatch<P>(s: seq<P>, accepts: P -> bool): (r: Option<P>)
    ensures r.None? <==> forall i :: 0 <= i < |s| ==> !accepts(s[i])
    ensures r.Some? ==>
              exists i :: 0 <= i < |s| && s[i] == r.value && accepts(s[i])
                          && forall j :: 0 <= j < i ==> !accepts(s[j])
    decreases |s|
  {
    if s == [] then None
    else if accepts(s[0]) then Some(s[0])
    else
      var r := FirstMatch(s[1..], accepts);
      assert forall i :: 0 <= i < |s[1..]| ==> s[1..][i] == s[i + 1];
      r
  }

  /** The elements of `s` that `accepts` takes, in order (`List.FindAll`). */
  function Filter<P>(s: seq<P>, accepts: P -> bool): (r: seq<P>)
    ensures |r| <= |s|
    decreases |s|
  {
    if s == [] then []
    else Filter(s[..|s| - 1], accepts) + (if accepts(s[|s| - 1]) then [s[|s| - 1]] else [])
  }

  /** `f` applied to each element of `s`, in order (`List.ConvertAll`). */
  function Map<P, T>(s: seq<P>, f: P -> T): (r: seq<T>)
    ensures |r| == |s|
    ensures forall i :: 0 <= i < |s| ==> r[i] == f(s[i])
    decreases |s|
  {
    if s == [] then []
    else
      var init := s[..|s| - 1];
      assert forall i :: 0 <= i < |init| ==> init[i] == s[i];
      Map(init, f) + [f(s[|s| - 1])]
  }

  /** Filtering splits over concatenation, so it keeps the relative order. */
  lemma {:induction false} FilterAppend<P>(a: seq<P>, b: seq<P>, accepts: P -> bool)
    ensures Filter(a + b, accepts) == Filter(a, accepts) + Filter(b, accepts)
    decreases |b|
  {
    if b == [] {
      assert a + b == a;
    } else {
      var ab := a + b;
      assert ab[..|ab| - 1] == a + b[..|b| - 1];
      assert ab[|ab| - 1] == b[|b| - 1];
      FilterAppend(a, b[..|b| - 1], accepts);
    }
  }

  /** Each element is kept as often as it occurs when `accepts` takes it, and dropped otherwise. */
  lemma {:induction false} FilterKeepsExactlyTheMatching<P>(s: seq<P>, accepts: P -> bool, x: P)
    ensures multiset(Filter(s, accepts))[x] == if accepts(x) then multiset(s)[x] else 0
    decreases |s|
  {
    if s != [] {
      var init := s[..|s| - 1];
      assert s == init + [s[|s| - 1]];
      FilterKeepsExactlyTheMatching(init, accepts, x);
    }
  }

  /** The filtered elements are elements that `accepts` takes, and every such element is kept. */
  lemma FilterKeepsTheMatching<P>(s: seq<P>, accepts: P -> bool)
    ensures forall i :: 0 <= i < |Filter(s, accepts)| ==> Filter(s, accepts)[i] in s && accepts(Filter(s, accepts)[i])
    ensures forall i :: 0 <= i < |s| && accepts(s[i]) ==> s[i] in Filter(s, accepts)
  {
    var r := Filter(s, accepts);
    forall i | 0 <= i < |r| ensures r[i] in s && accepts(r[i]) {
      FilterKeepsExactlyTheMatching(s, accepts, r[i]);
      assert r[i] in multiset(r);
    }
    forall i | 0 <= i < |s| && accepts(s[i]) ensures s[i] in r {
      FilterKeepsExactlyTheMatching(s, accepts, s[i]);
      assert s[i] in multiset(s);
    }
  }

  /** Mapping splits over concatenation. */
  lemma {:induction false} MapAppend<P, T>(a: seq<P>, b: seq<P>, f: P -> T)
    ensures Map(a + b, f) == Map(a, f) + Map(b, f)
  {
  }

  /** Converting and then acting is acting with the composition. */
  lemma MapMap<P, T, A>(s: seq<P>, f: P -> T, g: T -> A)
    ensures Map(Map(s, f), g) == Map(s, x => g(f(x)))
  {
  }

  /** `s` without its first occurrence of `x` (`List.Remove`); unchanged when `x` is absent. */
  function RemoveFirst<P(==)>(s: seq<P>, x: P): (r: seq<P>)
    decreases |s|
  {
    if s == [] then []
    else if s[0] == x then s[1..]
    else [s[0]] + RemoveFirst(s[1..], x)
  }

  /** The index of the first occurrence of `x` in `s`. */
  function FirstIndex<P(==)>(s: seq<P>, x: P): (i: nat)
    requires x in s
    ensures i < |s| && s[i] == x && x !in s[..i]
    decreases |s|
  {
    if s[0] == x then 0
    else
      var i := FirstIndex(s[1..], x);
      assert s[..i + 1] == [s[0]] + s[1..][..i];
      1 + i
  }

  /**
   * Removing an element that occurs cuts out exactly its first occurrence
   * and keeps the rest in order; removing an absent one changes nothing.
   */
  lemma {:induction false} RemoveFirstCutsTheFirstOccurrence<P>(s: seq<P>, x: P)
    ensures x !in s ==> RemoveFirst(s, x) == s
    ensures x in s ==> RemoveFirst(s, x) == s[..FirstIndex(s, x)] + s[FirstIndex(s, x) + 1..]
    decreases |s|
  {
    if s != [] && s[0] != x {
      var t := s[1..];
      assert s == [s[0]] + t;
      RemoveFirstCutsTheFirstOccurrence(t, x);
      if x in t {
        var k := FirstIndex(t, x);
        assert s[..k + 1] == [s[0]] + t[..k];
        assert s[k + 2..] == t[k + 1..];
      }
    }
  }

  /** Removal takes away one copy of the element, when there is one, and nothing else. */
  lemma {:induction false} RemoveFirstTakesOneCopy<P>(s: seq<P>, x: P)
    ensures multiset(RemoveFirst(s, x)) == multiset(s) - multiset{x}
    decreases |s|
  {
    if s != [] {
      var t := s[1..];
      assert s == [s[0]] + t;
      RemoveFirstTakesOneCopy(t, x);
    }
  }

  /** A call into a storage delegate (`INetworkPlayerStorageChangeDelegate`). */
  datatype StorageNotice<P, D> =
    | PlayerStorageDidAdd(addedTo: D, added: P)
    | PlayerStorageDidRemove(removedFrom: D, removed: P)

  /** One notice per delegate, in delegate order. */
  function Notices<P, D>(delegates: seq<D>, player: P, added: bool): (r: seq<StorageNotice<P, D>>)
    ensures |r| == |delegates|
    ensures forall i :: 0 <= i < |delegates| ==>
              r[i] == if added then PlayerStorageDidAdd(delegates[i], player)
                      else PlayerStorageDidRemove(delegates[i], player)
    decreases |delegates|
  {
    if delegates == [] then []
    else
      var init := delegates[..|delegates| - 1];
      var last := delegates[|delegates| - 1];
      assert forall i :: 0 <= i < |init| ==> init[i] == delegates[i];
      Notices(init, player, added)
        + [if added then PlayerStorageDidAdd(last, player) else PlayerStorageDidRemove(last, player)]
  }

  class NetworkPlayersStorage<P(==), D> {
    var players: seq<P>
    var delegates: seq<D>
    var notices: seq<StorageNotice<P, D>>

    constructor (delegates: seq<D>)
      ensures players == [] && this.delegates == delegates && notices == []
    {
      players := [];
      this.delegates := delegates;
      notices := [];
    }

    /** `Add`: the player goes at the end, and every delegate hears of it once. */
    method Add(player: P)
      modifies this`players, this`notices
      ensures players == old(players) + [player]
      ensures notices == old(notices) + Notices(delegates, player, true)
    {
      players := players + [player];
      notices := notices + Notices(delegates, player, true);
    }

    /**
     * `Remove`: the first occurrence of the player leaves the list, and
     * every delegate hears of it, even when the player was not there.
     */
    method Remove(player: P)
      modifies this`players, this`notices
      ensures players == RemoveFirst(old(players), player)
      ensures notices == old(notices) + Notices(delegates, player, false)
    {
      players := RemoveFirst(players, player);
      notices := notices + Notices(delegates, player, false);
    }

    /** `Find`: the first matching player, or none (null). */
    function Find(accepts: P -> bool): (r: Option<P>)
      reads this
      ensures r.None? <==> forall i :: 0 <= i < |players| ==> !accepts(players[i])
      ensures r.Some? ==> r.value in players && accepts(r.value)
      ensures r.Some? ==>
                exists i :: 0 <= i < |players| && players[i] == r.value && accepts(players[i])
                            && forall j :: 0 <= j < i ==> !accepts(players[j])
    {
      FirstMatch(players, accepts)
    }

    /** `FindAll`: the matching players and only those, in list order. */
    function FindAll(accepts: P -> bool): (r: seq<P>)
      reads this
      ensures forall i :: 0 <= i < |r| ==> r[i] in players && accepts(r[i])
      ensures forall i :: 0 <= i < |players| && accepts(players[i]) ==> players[i] in r
      ensures forall x :: x in players ==>
                multiset(r)[x] == if accepts(x) then multiset(players)[x] else 0
    {
      FilterKeepsTheMatching(players, accepts);
      assert forall x :: x in players ==>
               multiset(Filter(players, accepts))[x] == if accepts(x) then multiset(players)[x] else 0 by {
        forall x | x in players ensures multiset(Filter(players, accepts))[x]
                         == if accepts(x) then multiset(players)[x] else 0 {
          FilterKeepsExactlyTheMatching(players, accepts, x);
        }
      }
      Filter(players, accepts)
    }

    /** `ConvertAll`: one converted value per player, in list order. */
    function ConvertAll<T>(converter: P -> T): (r: seq<T>)
      reads this
      ensures |r| == |players|
      ensures forall i :: 0 <= i < |players| ==> r[i] == converter(players[i])
    {
      Map(players, converter)
    }

    /**
     * `ForEach(action)`: the action runs on each player in list order; what
     * each run yields is returned in that order. The list is not changed.
     */
    method ForEach<A>(action: P -> A) returns (results: seq<A>)
      ensures results == Map(players, action)
    {
      results := [];
      for i := 0 to |players|
        invariant results == Map(players[..i], action)
      {
        assert players[..i + 1] == players[..i] + [players[i]];
        MapAppend(players[..i], [players[i]], action);
        results := results + [action(players[i])];
      }
      assert players[..|players|] == players;
    }

    /** `ForEachConverted(converter, action)`: the action runs on each converted player, in list order. */
    method ForEachConverted<T, A>(converter: P -> T, action: T -> A) returns (results: seq<A>)
      ensures results == Map(Map(players, converter), action)
    {
      results := [];
      for i := 0 to |players|
        invariant results == Map(Map(players[..i], converter), action)
      {
        assert players[..i + 1] == players[..i] + [players[i]];
        MapAppend(players[..i], [players[i]], converter);
        MapAppend(Map(players[..i], converter), [converter(players[i])], action);
        results := results + [action(converter(players[i]))];
      }
      assert players[..|players|] == players;
    }

    /** `ConvertFindingAll(predicate, converter)`: `ConvertAll` over `FindAll`, built in one pass. */
    method ConvertFindingAll<T>(accepts: P -> bool, converter: P -> T) returns (output: seq<T>)
      ensures output == Map(Filter(players, accepts), converter)
    {
      output := [];
      for i := 0 to |players|
        invariant output == Map(Filter(players[..i], accepts), converter)
      {
        var player := players[i];
        assert players[..i + 1] == players[..i] + [player];
        FilterAppend(players[..i], [player], accepts);
        assert Filter([player], accepts) == if accepts(player) then [player] else [] by {
          assert [player][..0] == [];
        }
        MapAppend(Filter(players[..i], accepts), Filter([player], accepts), converter);
        if accepts(player) {
          output := output + [converter(player)];
        }
      }
      assert players[..|players|] == players;
    }
  }
}
