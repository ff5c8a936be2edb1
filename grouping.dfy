/**
  `queryset.values(key).annotate(count=Count('id')).order_by(key)`: one group per distinct
  key value, with the number of rows carrying it, in ascending key order.
 */
module Grouping {
  import opened Text

  datatype Group = Group(key: string, count: nat)

  /** Adds one row with key `k` to groups kept in ascending key order. */
  function AddKey(k: string, gs: seq<Group>): seq<Group>
  {
    if gs == [] then [Group(k, 1)]
    else if gs[0].key == k then [Group(k, gs[0].count + 1)] + gs[1..]
    else if Less(k, gs[0].key) then [Group(k, 1)] + gs
    else [gs[0]] + AddKey(k, gs[1..])
  }

  /** The groups of a column's values. */
  function GroupCounts(keys: seq<string>): seq<Group>
  {
    if keys == [] then [] else AddKey(keys[0], GroupCounts(keys[1..]))
  }

  /** Keys strictly ascend, so no key has two groups. */
  ghost predicate Ascending(gs: seq<Group>)
  {
    forall i, j :: 0 <= i < j < |gs| ==> Less(gs[i].key, gs[j].key)
  }

  ghost predicate Above(b: string, gs: seq<Group>)
  {
    forall i :: 0 <= i < |gs| ==> Less(b, gs[i].key)
  }

  ghost predicate AllPositive(gs: seq<Group>)
  {
    forall i :: 0 <= i < |gs| ==> gs[i].count > 0
  }

  /** The count of the group for `k`, 0 when there is none. */
  function CountOf(gs: seq<Group>, k: string): nat
  {
    if gs == [] then 0 else if gs[0].key == k then gs[0].count else CountOf(gs[1..], k)
  }

  /** The sum of the counts. */
  function Total(gs: seq<Group>): nat
  {
    if gs == [] then 0 else gs[0].count + Total(gs[1..])
  }

  lemma {:induction false} AddKeyAbove(b: string, k: string, gs: seq<Group>)
    requires Above(b, gs) && Less(b, k)
    ensures Above(b, AddKey(k, gs))
  {
    if gs != [] && gs[0].key != k && !Less(k, gs[0].key) {
      AddKeyAbove(b, k, gs[1..]);
    }
  }

  lemma {:induction false} AddKeyAscending(k: string, gs: seq<Group>)
    requires Ascending(gs)
    ensures Ascending(AddKey(k, gs))
  {
    if gs == [] || gs[0].key == k {
    } else if Less(k, gs[0].key) {
      var r := AddKey(k, gs);
      forall j | 1 <= j < |r| ensures Less(k, r[j].key) {
        if j > 1 {
          LessTransitive(k, gs[0].key, gs[j - 1].key);
        }
      }
    } else {
      LessTrichotomy(k, gs[0].key);
      AddKeyAscending(k, gs[1..]);
      AddKeyAbove(gs[0].key, k, gs[1..]);
    }
  }

  lemma {:induction false} CountOfAbove(b: string, gs: seq<Group>)
    requires Above(b, gs)
    ensures CountOf(gs, b) == 0
  {
    if gs != [] {
      LessIrreflexive(b);
      CountOfAbove(b, gs[1..]);
    }
  }

  lemma {:induction false} AddKeyCount(k: string, gs: seq<Group>, j: string)
    requires Ascending(gs)
    ensures CountOf(AddKey(k, gs), j) == CountOf(gs, j) + (if j == k then 1 else 0)
  {
    if gs == [] || gs[0].key == k {
    } else if Less(k, gs[0].key) {
      if j == k {
        forall i | 0 <= i < |gs| ensures Less(k, gs[i].key) {
          if i > 0 {
            LessTransitive(k, gs[0].key, gs[i].key);
          }
        }
        CountOfAbove(k, gs);
      }
    } else {
      AddKeyCount(k, gs[1..], j);
    }
  }

  lemma {:induction false} AddKeyTotal(k: string, gs: seq<Group>)
    ensures Total(AddKey(k, gs)) == Total(gs) + 1
    ensures AllPositive(gs) ==> AllPositive(AddKey(k, gs))
  {
    if gs != [] && gs[0].key != k && !Less(k, gs[0].key) {
      AddKeyTotal(k, gs[1..]);
    }
  }

  /** With positive counts, a key has a group exactly when its count is not 0. */
  lemma {:induction false} CountOfPositive(gs: seq<Group>, k: string)
    requires AllPositive(gs)
    ensures (exists i :: 0 <= i < |gs| && gs[i].key == k) <==> CountOf(gs, k) > 0
  {
    if gs != [] {
      CountOfPositive(gs[1..], k);
      if gs[0].key != k {
        if exists i :: 0 <= i < |gs| && gs[i].key == k {
          var i :| 0 <= i < |gs| && gs[i].key == k;
          assert gs[1..][i - 1].key == k;
        }
      }
    }
  }

  /**
    The groups ascend strictly by key, each holds a positive count equal to the number
    of rows carrying its key, a key has a group exactly when some row carries it, and the
    counts add up to the number of rows.
   */
  lemma {:induction false} GroupCountsSpec(keys: seq<string>)
    ensures Ascending(GroupCounts(keys)) && AllPositive(GroupCounts(keys))
    ensures forall k :: CountOf(GroupCounts(keys), k) == multiset(keys)[k]
    ensures forall k :: (exists i :: 0 <= i < |GroupCounts(keys)| && GroupCounts(keys)[i].key == k) <==> k in keys
    ensures Total(GroupCounts(keys)) == |keys|
  {
    var g := GroupCounts(keys);
    if keys != [] {
      var rest := GroupCounts(keys[1..]);
      GroupCountsSpec(keys[1..]);
      AddKeyAscending(keys[0], rest);
      AddKeyTotal(keys[0], rest);
      assert keys == [keys[0]] + keys[1..];
      forall k ensures CountOf(g, k) == multiset(keys)[k] {
        AddKeyCount(keys[0], rest, k);
      }
    }
    forall k ensures (exists i :: 0 <= i < |g| && g[i].key == k) <==> k in keys {
      CountOfPositive(g, k);
    }
  }

  /** The shape half of `GroupCountsSpec`: ascending keys, positive counts, all rows counted. */
  lemma GroupsWellFormed(keys: seq<string>)
    ensures Ascending(GroupCounts(keys)) && AllPositive(GroupCounts(keys))
    ensures Total(GroupCounts(keys)) == |keys|
  {
    GroupCountsSpec(keys);
  }

  /**
    Ascending groups whose keys are drawn from three ordered values, each of which has a
    group, are exactly those three groups in order.
   */
  lemma ThreeGroups(gs: seq<Group>, a: string, b: string, c: string)
    requires Ascending(gs) && Less(a, b) && Less(b, c)
    requires forall i :: 0 <= i < |gs| ==> gs[i].key == a || gs[i].key == b || gs[i].key == c
    requires (exists i :: 0 <= i < |gs| && gs[i].key == a) && (exists i :: 0 <= i < |gs| && gs[i].key == b)
    requires exists i :: 0 <= i < |gs| && gs[i].key == c
    ensures |gs| == 3 && gs[0].key == a && gs[1].key == b && gs[2].key == c
  {
    LessTransitive(a, b, c);
    LessTrichotomy(a, b);
    LessTrichotomy(b, c);
    LessTrichotomy(a, c);
    LessIrreflexive(a);
    LessIrreflexive(b);
    LessIrreflexive(c);
    var ia :| 0 <= ia < |gs| && gs[ia].key == a;
    var ib :| 0 <= ib < |gs| && gs[ib].key == b;
    var ic :| 0 <= ic < |gs| && gs[ic].key == c;
    assert ia != ib && ib != ic && ia != ic;
    assert |gs| >= 3;
    assert Less(gs[0].key, gs[1].key) && Less(gs[1].key, gs[2].key);
  }

  /** Status codes group in the order active, cleared, surveillance. */
  lemma StatusKeyOrder()
    ensures Less("active", "cleared") && Less("cleared", "surveillance")
  {
  }
}
