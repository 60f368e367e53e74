/**
 * The on-chain dashboard's list logic: the ids the account takes part in (its client
 * ids, then its freelancer ids, each id once), the stats row, the empty state, and the
 * per-item description and role label.
 */
module Dashboard {
  import opened Wrappers
  import opened Text

  /** `a.findIndex((x) => x === v)`: the first position holding `v`, or -1. */
  function IndexOf(a: seq<int>, v: int): (r: int)
    ensures -1 <= r < |a|
    ensures r >= 0 ==> a[r] == v && forall j :: 0 <= j < r ==> a[j] != v
    ensures r == -1 <==> v !in a
  {
    if a == [] then -1
    else if a[0] == v then 0
    else
      var r := IndexOf(a[1..], v);
      if r == -1 then -1 else r + 1
  }

  /** `a.filter((v, i, a) => a.findIndex((x) => x === v) === i)` from position `i` on. */
  function KeepFirst(a: seq<int>, i: nat): (r: seq<int>)
    requires i <= |a|
    ensures |r| <= |a| - i
    ensures forall k :: 0 <= k < |r| ==> r[k] in a[i..]
    decreases |a| - i
  {
    if i == |a| then []
    else (if IndexOf(a, a[i]) == i then [a[i]] else []) + KeepFirst(a, i + 1)
  }

  /**
   * The filter from `i` on keeps exactly the values whose first occurrence is at `i` or
   * later, and is no longer than what is left of the input.
   */
  lemma {:induction false} KeepFirstMembers(a: seq<int>, i: nat)
    requires i <= |a|
    ensures |KeepFirst(a, i)| <= |a| - i
    ensures forall x :: x in KeepFirst(a, i) <==> x in a && IndexOf(a, x) >= i
    decreases |a| - i
  {
    if i < |a| {
      KeepFirstMembers(a, i + 1);
      var head := if IndexOf(a, a[i]) == i then [a[i]] else [];
      assert KeepFirst(a, i) == head + KeepFirst(a, i + 1);
      forall x
        ensures x in KeepFirst(a, i) <==> x in a && IndexOf(a, x) >= i
      {
        if x in a && IndexOf(a, x) == i {
          assert x == a[i];
        }
      }
    }
  }

  /** Every value kept from `i` on first occurs at `i` or later. */
  lemma KeepFirstFromOn(a: seq<int>, i: nat)
    requires i <= |a|
    ensures forall y :: y in KeepFirst(a, i) ==> IndexOf(a, y) >= i
  {
    KeepFirstMembers(a, i);
  }

  /** Putting in front a value that first occurs before everything else keeps the order. */
  lemma ConsOrdered(a: seq<int>, h: int, rest: seq<int>)
    requires forall p, q :: 0 <= p < q < |rest| ==> IndexOf(a, rest[p]) < IndexOf(a, rest[q])
    requires forall y :: y in rest ==> IndexOf(a, h) < IndexOf(a, y)
    ensures forall p, q :: 0 <= p < q < |[h] + rest| ==>
      IndexOf(a, ([h] + rest)[p]) < IndexOf(a, ([h] + rest)[q])
  {
    var r := [h] + rest;
    forall p, q | 0 <= p < q < |r| ensures IndexOf(a, r[p]) < IndexOf(a, r[q]) {
      assert r[q] == rest[q - 1];
      if p > 0 {
        assert r[p] == rest[p - 1];
      } else {
        assert rest[q - 1] in rest;
      }
    }
  }

  /** The values the filter keeps appear in the order of their first occurrences. */
  lemma {:induction false} KeepFirstOrdered(a: seq<int>, i: nat)
    requires i <= |a|
    ensures forall p, q :: 0 <= p < q < |KeepFirst(a, i)| ==>
      IndexOf(a, KeepFirst(a, i)[p]) < IndexOf(a, KeepFirst(a, i)[q])
    decreases |a| - i
  {
    if i < |a| {
      var rest := KeepFirst(a, i + 1);
      KeepFirstOrdered(a, i + 1);
      if IndexOf(a, a[i]) == i {
        KeepFirstFromOn(a, i + 1);
        ConsOrdered(a, a[i], rest);
        assert KeepFirst(a, i) == [a[i]] + rest;
      } else {
        assert KeepFirst(a, i) == rest;
      }
    }
  }

  /**
   * `allIds`: the client ids followed by the freelancer ids (a missing list counting as
   * empty), keeping the first occurrence of each id. The result has no duplicates, holds
   * every id of either list and nothing else, keeps the order of first occurrences, and
   * is no longer than both lists together.
   */
  function AllIds(clientIds: Option<seq<int>>, freelancerIds: Option<seq<int>>): (r: seq<int>)
    ensures forall p, q :: 0 <= p < q < |r| ==> r[p] != r[q]
    ensures forall x :: x in r <==> x in clientIds.GetOr([]) || x in freelancerIds.GetOr([])
    ensures forall p, q :: 0 <= p < q < |r| ==>
      IndexOf(clientIds.GetOr([]) + freelancerIds.GetOr([]), r[p]) < IndexOf(clientIds.GetOr([]) + freelancerIds.GetOr([]), r[q])
    ensures |r| <= |clientIds.GetOr([])| + |freelancerIds.GetOr([])|
  {
    var a := clientIds.GetOr([]) + freelancerIds.GetOr([]);
    KeepFirstMembers(a, 0);
    KeepFirstOrdered(a, 0);
    KeepFirst(a, 0)
  }

  /** The three stat cards: a list not yet read shows a dash (None). */
  datatype Stats = Stats(asClient: Option<nat>, asFreelancer: Option<nat>, total: nat)

  function DashboardStats(clientIds: Option<seq<int>>, freelancerIds: Option<seq<int>>): (r: Stats)
    ensures clientIds.Some? <==> r.asClient.Some?
    ensures clientIds.Some? ==> r.asClient == Some(|clientIds.value|)
    ensures freelancerIds.Some? <==> r.asFreelancer.Some?
    ensures freelancerIds.Some? ==> r.asFreelancer == Some(|freelancerIds.value|)
    ensures r.total == |AllIds(clientIds, freelancerIds)|
    ensures r.total <= r.asClient.GetOr(0) + r.asFreelancer.GetOr(0)
    ensures r.total == 0 <==> clientIds.GetOr([]) == [] && freelancerIds.GetOr([]) == []
  {
    var total := AllIds(clientIds, freelancerIds);
    assert clientIds.GetOr([]) != [] ==> clientIds.GetOr([])[0] in total;
    assert freelancerIds.GetOr([]) != [] ==> freelancerIds.GetOr([])[0] in total;
    Stats(
      match clientIds case Some(ids) => Some(|ids|) case None => None,
      match freelancerIds case Some(ids) => Some(|ids|) case None => None,
      |total|)
  }

  /** What the list area shows. */
  datatype ListView = Loading | Empty | Items(ids: seq<int>)

  /** The list area: a spinner while either read is loading, else the empty state or the items. */
  function DashboardList(clientLoading: bool, freelancerLoading: bool,
                         clientIds: Option<seq<int>>, freelancerIds: Option<seq<int>>): (r: ListView)
    ensures r == Loading <==> clientLoading || freelancerLoading
    ensures r == Empty <==>
      !clientLoading && !freelancerLoading && clientIds.GetOr([]) == [] && freelancerIds.GetOr([]) == []
    ensures r.Items? ==> r.ids == AllIds(clientIds, freelancerIds) && r.ids != []
  {
    var ids := AllIds(clientIds, freelancerIds);
    assert clientIds.GetOr([]) != [] ==> clientIds.GetOr([])[0] in ids;
    assert freelancerIds.GetOr([]) != [] ==> freelancerIds.GetOr([])[0] in ids;
    if clientLoading || freelancerLoading then Loading
    else if |ids| == 0 then Empty
    else Items(ids)
  }

  const ELLIPSIS := '\U{2026}'

  /**
   * `shortDesc`: at most 61 characters; a description of 60 or fewer is shown whole,
   * a longer one as its first 60 characters and an ellipsis.
   */
  function ShortDesc(description: string): (r: string)
    ensures |r| <= 61
    ensures |description| <= 60 ==> r == description
    ensures |r| <= 60 ==> r == description
    ensures |r| == 61 ==> |description| > 60 && r[..60] == description[..60] && r[60] == ELLIPSIS
  {
    if |description| > 60 then description[..60] + [ELLIPSIS] else description
  }

  /** The role badge of a list item: "Client" exactly when the account is the record's client, ignoring case. */
  function RoleLabel(currentAddress: Option<string>, client: string): (r: string)
    ensures r == "Client" <==> MatchesAccount(currentAddress, client)
    ensures r == "Client" || r == "Freelancer"
  {
    if MatchesAccount(currentAddress, client) then "Client" else "Freelancer"
  }
}
