/** The order in which a batch is chained: `LAG(id) OVER (PARTITION BY channel ORDER BY id)`. */
module Batches {
  import opened Schema

  predicate DistinctIds(batch: seq<NewMsg>) {
    forall i, j | 0 <= i < j < |batch| :: batch[i].id != batch[j].id
  }

  function Ids(batch: seq<NewMsg>): set<Id> {
    set m | m in batch :: m.id
  }

  function OrderedIds(batch: seq<NewMsg>, c: Channel): set<Id> {
    set m | m in batch && m.ordered && m.channel == c :: m.id
  }

  function OrderedChannels(batch: seq<NewMsg>): set<Channel> {
    set m | m in batch && m.ordered :: m.channel
  }

  lemma {:induction false} MaxExists(s: set<Id>) returns (top: Id)
    requires |s| > 0
    ensures top in s && forall x | x in s :: x <= top
    decreases |s|
  {
    var e :| e in s;
    var rest := s - {e};
    top := e;
    if |rest| > 0 {
      var m := MaxExists(rest);
      top := if m < e then e else m;
    }
    forall x | x in s ensures x <= top {
      assert x == e || x in rest;
    }
  }

  function Max(s: set<Id>): (m: Id)
    requires s != {}
    ensures m in s && forall x | x in s :: x <= m
  {
    assert exists m | m in s :: forall x | x in s :: x <= m by {
      var top := MaxExists(s);
    }
    var m :| m in s && forall x | x in s :: x <= m;
    m
  }

  function Below(ids: set<Id>, id: Id): set<Id> {
    set x | x in ids && x < id
  }

  function Lag(ids: set<Id>, id: Id, default: Id): Id {
    if Below(ids, id) == {} then default else Max(Below(ids, id))
  }

  function Sorted(ids: set<Id>): (s: seq<Id>)
    ensures |s| == |ids|
  {
    if ids == {} then [] else
      var top := Max(ids);
      Sorted(ids - {top}) + [top]
  }

  ghost predicate Ascending(s: seq<Id>) {
    forall i, j | 0 <= i < j < |s| :: s[i] < s[j]
  }

  lemma {:induction false} SortedOrder(ids: set<Id>)
    ensures forall x :: x in Sorted(ids) <==> x in ids
    ensures Ascending(Sorted(ids))
    decreases |ids|
  {
    if ids != {} {
      var top := Max(ids);
      var low := Sorted(ids - {top});
      SortedOrder(ids - {top});
      forall k | 0 <= k < |low| ensures low[k] < top {
        assert low[k] in ids - {top};
      }
      AppendAscending(low, top);
    }
  }

  lemma AppendAscending(low: seq<Id>, top: Id)
    requires Ascending(low) && forall k | 0 <= k < |low| :: low[k] < top
    ensures Ascending(low + [top])
  {
  }

  /** Each message of a batch waits for the one before it in id order, the first for the default. */
  lemma LagInSorted(ids: set<Id>, i: nat, default: Id)
    requires i < |Sorted(ids)|
    ensures Lag(ids, Sorted(ids)[i], default) == if i == 0 then default else Sorted(ids)[i - 1]
  {
    var s := Sorted(ids);
    SortedOrder(ids);
    var below := Below(ids, s[i]);
    forall x | x in below ensures i > 0 && x <= s[i - 1] {
      var k :| 0 <= k < |s| && s[k] == x;
      AscendingIndex(s, k, i);
    }
    if i > 0 {
      assert s[i - 1] in s && s[i - 1] in below;
      assert below != {};
    }
  }

  lemma AscendingIndex(s: seq<Id>, k: nat, i: nat)
    requires Ascending(s) && k < |s| && i < |s| && s[k] < s[i]
    ensures k < i && s[k] <= s[i - 1]
  {
  }
}
