/**
  `UpdateViewSet.get_queryset`: only published updates, optionally narrowed by type and
  to featured updates, newest first.
 */
module UpdateViews {
  import opened Seqs
  import opened Text
  import opened OutbreakViews
  import opened UpdateModels
  import opened UpdateSerializers

  predicate IsPublished(u: Update)
  {
    u.isPublished
  }

  function UpdateTypeIs(v: string): Update -> bool
  {
    (u: Update) => u.updateType == v
  }

  predicate IsFeatured(u: Update)
  {
    u.isFeatured
  }

  /** `if featured and featured.lower() == 'true'`: only a "true" narrows. */
  predicate FeaturedRequested(params: QueryParams)
  {
    Given(params, "featured") && FlagTrue(params, "featured")
  }

  function UpdateQuerySet(table: seq<Update>, params: QueryParams): seq<Update>
  {
    var base := Filter(IsPublished, table);
    var byType := Narrow(Given(params, "type"), UpdateTypeIs(Value(params, "type")), base);
    var byFeatured := Narrow(FeaturedRequested(params), IsFeatured, byType);
    Sort(UpdateBefore, byFeatured)
  }

  predicate UpdateNarrowed(params: QueryParams, u: Update)
  {
    && (Given(params, "type") ==> u.updateType == params["type"])
    && (FeaturedRequested(params) ==> u.isFeatured)
  }

  predicate UpdateSelected(params: QueryParams, u: Update)
  {
    u.isPublished && UpdateNarrowed(params, u)
  }

  function UpdateNarrowing(params: QueryParams): Update -> bool
  {
    (u: Update) => UpdateNarrowed(params, u)
  }

  function UpdateSelection(params: QueryParams): Update -> bool
  {
    (u: Update) => UpdateSelected(params, u)
  }

  lemma UpdateQuerySetCanonical(table: seq<Update>, params: QueryParams)
    ensures UpdateQuerySet(table, params) == Sort(UpdateBefore, Filter(UpdateSelection(params), table))
  {
    var byType := (u: Update) => u.isPublished && (Given(params, "type") ==> u.updateType == params["type"]);
    NarrowFilter(Given(params, "type"), UpdateTypeIs(Value(params, "type")), IsPublished, byType, table);
    NarrowFilter(FeaturedRequested(params), IsFeatured, byType, UpdateSelection(params), table);
  }

  /**
    The listing is ordered newest first and holds exactly the published updates that
    match the type (when one is given) and are featured (when featured=true is asked),
    each as often as it is stored.
   */
  lemma UpdateQuerySetSpec(table: seq<Update>, params: QueryParams)
    ensures Sorted(UpdateBefore, UpdateQuerySet(table, params))
    ensures forall u :: u in UpdateQuerySet(table, params) <==> u in table && UpdateSelected(params, u)
    ensures forall u :: multiset(UpdateQuerySet(table, params))[u] ==
              if UpdateSelected(params, u) then multiset(table)[u] else 0
  {
    UpdateQuerySetCanonical(table, params);
    UpdateOrderTotal();
    SortSorted(UpdateBefore, Filter(UpdateSelection(params), table));
    forall u ensures multiset(UpdateQuerySet(table, params))[u] ==
                     if UpdateSelected(params, u) then multiset(table)[u] else 0 {
      FilterMultiset(UpdateSelection(params), table, u);
    }
  }

  /** Filters only remove updates from the unfiltered listing; they never reorder it. */
  lemma UpdateFiltersKeepOrder(table: seq<Update>, params: QueryParams)
    ensures UpdateQuerySet(table, params) == Filter(UpdateNarrowing(params), UpdateQuerySet(table, map[]))
  {
    UpdateQuerySetCanonical(table, params);
    UpdateQuerySetCanonical(table, map[]);
    UpdateOrderTotal();
    FilterSort(UpdateBefore, UpdateNarrowing(params), Filter(UpdateSelection(map[]), table));
    FilterFilter(UpdateSelection(map[]), UpdateNarrowing(params), UpdateSelection(params), table);
  }

  /**
    Unlike the dip-tank and station flags, a `featured` value other than "true" (in any
    case) is ignored: featured=false gives the same listing as no parameter at all.
   */
  lemma FeaturedOtherValuesIgnored(table: seq<Update>, params: QueryParams)
    requires !FlagTrue(params, "featured")
    ensures UpdateQuerySet(table, params) == UpdateQuerySet(table, params - {"featured"})
  {
    var rest := params - {"featured"};
    assert Value(rest, "type") == Value(params, "type") && Given(rest, "type") == Given(params, "type");
    assert !FeaturedRequested(rest);
  }

  /** The list action: one list-form entry per listed update, in listing order. */
  function UpdateList(table: seq<Update>, params: QueryParams): (r: seq<UpdateListItem>)
    ensures |r| == |UpdateQuerySet(table, params)|
    ensures forall i :: 0 <= i < |r| ==> r[i] == ListItem(UpdateQuerySet(table, params)[i])
  {
    Map(ListItem, UpdateQuerySet(table, params))
  }

  /** Every entry of the list action is the list form of a published update. */
  lemma UpdateListPublished(table: seq<Update>, params: QueryParams, i: nat)
    requires i < |UpdateList(table, params)|
    ensures exists u :: u in table && u.isPublished && UpdateList(table, params)[i] == ListItem(u)
  {
    UpdateQuerySetSpec(table, params);
    assert UpdateQuerySet(table, params)[i] in UpdateQuerySet(table, params);
  }
}
