/**
 * `GET /fiatlist` (`get_fiatlist`): the fiat currencies every configured coin
 * can quote, as the handler's loop computes them, then filtered and sorted.
 */
module Fiat {
  import opened Wrappers
  import Ordering

  function SetOf(xs: seq<string>): set<string> { set x | x in xs }

  /**
   * One turn of the loop. An accumulator that is unset or empty (both falsy
   * in Python) is replaced by the coin's list; otherwise it is intersected with it.
   */
  function Step(acc: Option<set<string>>, fiats: seq<string>): (r: Option<set<string>>)
    ensures r.Some? && r.value <= SetOf(fiats)
    ensures acc.Some? && acc.value != {} ==> r.value <= acc.value
  {
    if acc.None? || acc.value == {} then Some(SetOf(fiats)) else Some(acc.value * SetOf(fiats))
  }

  /**
   * The accumulator after the loop has seen every list in `lists`, in order.
   * It stays unset only when there is no list, and whatever happens along the
   * way, every currency in it is quoted by the last coin seen.
   */
  function Fold(lists: seq<seq<string>>): (r: Option<set<string>>)
    ensures r.Some? <==> lists != []
    ensures r.Some? ==> r.value <= SetOf(lists[|lists| - 1])
  {
    if lists == [] then None else Step(Fold(lists[..|lists| - 1]), lists[|lists| - 1])
  }

  /** The currencies common to all the lists (of a non-empty sequence). */
  function Intersection(lists: seq<seq<string>>): set<string>
    requires lists != []
  {
    if |lists| == 1 then SetOf(lists[0])
    else Intersection(lists[..|lists| - 1]) * SetOf(lists[|lists| - 1])
  }

  /**
   * The handler. `fiatLists` holds each coin's `list_fiat()` answer in the
   * order the coins are configured; `pattern`, when a query was given, is
   * the case-insensitive regular-expression match. None: with no coin
   * configured the accumulator stays unset and the handler raises.
   */
  method GetFiatList(fiatLists: seq<seq<string>>, pattern: Option<string -> bool>)
    returns (r: Option<seq<string>>)
    ensures r.None? <==> fiatLists == []
    ensures r.Some? ==> Ordering.StrictlySorted(r.value)
    ensures r.Some? ==> forall x :: x in r.value <==>
      x in Fold(fiatLists).value && (pattern.None? || pattern.value(x))
  {
    var s: Option<set<string>> := None;
    for i := 0 to |fiatLists|
      invariant s == Fold(fiatLists[..i])
    {
      assert fiatLists[..i + 1][..i] == fiatLists[..i];
      var fiatList := fiatLists[i];
      if s.None? || s.value == {} {
        s := Some(SetOf(fiatList));
      } else {
        s := Some(s.value * SetOf(fiatList));
      }
    }
    assert fiatLists[..|fiatLists|] == fiatLists;
    if s.None? {
      return None;
    }
    var found := s.value;
    if pattern.Some? {
      found := set x | x in found && pattern.value(x);
    }
    var sorted := Ordering.Sorted(found);
    return Some(sorted);
  }

  /**
   * When no intermediate accumulator becomes empty, the answer is exactly the
   * set of currencies every coin supports.
   */
  lemma {:induction false} FoldWithoutResetIsIntersection(lists: seq<seq<string>>)
    requires lists != []
    requires forall k :: 0 < k < |lists| ==> Fold(lists[..k]) != Some({})
    ensures Fold(lists) == Some(Intersection(lists))
  {
    var n := |lists|;
    if n == 1 {
      assert lists[..0] == [];
    } else {
      var init := lists[..n - 1];
      forall k | 0 < k < |init| ensures Fold(init[..k]) != Some({}) {
        assert init[..k] == lists[..k];
      }
      FoldWithoutResetIsIntersection(init);
      assert Fold(init) != Some({});
    }
  }

  /**
   * `j` is the last reset point of `lists`: the first coin, or a coin before
   * which the accumulator was empty, with no empty accumulator after it.
   */
  predicate LastReset(lists: seq<seq<string>>, j: int)
  {
    0 <= j < |lists| && (j == 0 || Fold(lists[..j]) == Some({})) &&
    forall k :: j < k < |lists| ==> Fold(lists[..k]) != Some({})
  }

  lemma SuffixOfInit(lists: seq<seq<string>>, j: int)
    requires 0 <= j < |lists| - 1
    ensures lists[j..][..|lists[j..]| - 1] == lists[..|lists| - 1][j..]
  {
  }

  lemma LastSuffix(lists: seq<seq<string>>)
    requires lists != []
    ensures lists[|lists| - 1..] == [lists[|lists| - 1]]
  {
  }

  /** An accumulator that is empty before the last coin makes that coin the last reset point. */
  lemma ResetAtLast(lists: seq<seq<string>>)
    requires |lists| >= 2 && Fold(lists[..|lists| - 1]) == Some({})
    ensures LastReset(lists, |lists| - 1)
    ensures Fold(lists) == Some(Intersection(lists[|lists| - 1..]))
  {
    LastSuffix(lists);
  }

  /** A non-empty accumulator before the last coin keeps the earlier reset point. */
  lemma ResetCarriesOver(lists: seq<seq<string>>, j: int)
    requires |lists| >= 2
    requires LastReset(lists[..|lists| - 1], j)
    requires Fold(lists[..|lists| - 1]) != Some({})
    ensures LastReset(lists, j)
  {
    var n := |lists|;
    var init := lists[..n - 1];
    forall k | j < k < n ensures Fold(lists[..k]) != Some({}) {
      if k < n - 1 { assert lists[..k] == init[..k]; }
    }
    if j > 0 { assert lists[..j] == init[..j]; }
  }

  /** Intersecting one more list extends the suffix intersection by that list. */
  lemma SuffixExtends(lists: seq<seq<string>>, j: int)
    requires |lists| >= 2 && 0 <= j < |lists| - 1
    requires Fold(lists[..|lists| - 1]) == Some(Intersection(lists[..|lists| - 1][j..]))
    requires Fold(lists[..|lists| - 1]) != Some({})
    ensures Fold(lists) == Some(Intersection(lists[j..]))
  {
    SuffixOfInit(lists, j);
  }

  /**
   * In general the answer is the intersection of the lists from the last
   * point where the accumulator was empty (or from the first coin) onwards.
   */
  lemma {:induction false} FoldIsSuffixIntersection(lists: seq<seq<string>>)
    requires lists != []
    ensures exists j :: LastReset(lists, j) && Fold(lists) == Some(Intersection(lists[j..]))
  {
    var n := |lists|;
    if n == 1 {
      assert lists[..0] == [] && lists[0..] == lists;
      assert LastReset(lists, 0) && Fold(lists) == Some(Intersection(lists[0..]));
    } else {
      var init := lists[..n - 1];
      FoldIsSuffixIntersection(init);
      var j :| LastReset(init, j) && Fold(init) == Some(Intersection(init[j..]));
      if Fold(init) == Some({}) {
        ResetAtLast(lists);
      } else {
        ResetCarriesOver(lists, j);
        SuffixExtends(lists, j);
      }
    }
  }

  /**
   * The reset at work: the first two coins have no currency in common, so the
   * third coin's list becomes the answer, GBP included, which neither of the
   * first two coins quotes.
   */
  lemma EmptyIntersectionIsReset()
    ensures Fold([["USD"], ["EUR"], ["EUR", "GBP"]]) == Some({"EUR", "GBP"})
    ensures Intersection([["USD"], ["EUR"], ["EUR", "GBP"]]) == {}
  {
    var lists := [["USD"], ["EUR"], ["EUR", "GBP"]];
    assert lists[..2] == [["USD"], ["EUR"]];
    assert lists[..2][..1] == [["USD"]];
    assert lists[..2][..1][..0] == [];
    assert SetOf(["USD"]) == {"USD"};
    assert SetOf(["EUR"]) == {"EUR"};
    assert SetOf(["EUR", "GBP"]) == {"EUR", "GBP"};
    assert "USD" != "EUR";
    assert {"USD"} * {"EUR"} == {};
    assert Fold(lists[..2][..1]) == Some({"USD"});
    assert Fold(lists[..2]) == Some({});
    assert Fold(lists) == Step(Some({}), ["EUR", "GBP"]);
  }
}
