/**
  The template views of the public site: the home page's counters and featured updates,
  and the updates page's head of the newest published updates.
 */
module PagesViews {
  import opened Seqs
  import opened Text
  import opened Choices
  import opened Grouping
  import opened OutbreakModels
  import opened OutbreakViews
  import opened UpdateModels
  import opened UpdateViews

  /** A value in a template context. */
  datatype ContextValue = Number(n: nat) | Updates(items: seq<Update>)

  /** The template context, filled key by key. */
  type Context = map<string, ContextValue>

  const FeaturedLimit := 3
  const UpdatesPageLimit := 20

  function PublicWithStatus(status: string): Outbreak -> bool
  {
    (o: Outbreak) => o.isActive && o.isVerified && o.status == status
  }

  /** `Outbreak.objects.filter(is_active=True, is_verified=True, status=status).count()`. */
  function StatusCount(outbreaks: seq<Outbreak>, status: string): nat
  {
    |Filter(PublicWithStatus(status), outbreaks)|
  }

  /** The sum of `animals_affected` over every active, verified outbreak. */
  function AnimalsAffectedTotal(outbreaks: seq<Outbreak>): nat
  {
    Sum(AnimalsAffected, Filter(IsPublicOutbreak, outbreaks))
  }

  predicate IsPublishedFeatured(u: Update)
  {
    u.isPublished && u.isFeatured
  }

  /** `Update.objects.filter(is_published=True, is_featured=True)[:3]` in the default order. */
  function FeaturedUpdates(updates: seq<Update>): seq<Update>
  {
    Take(Sort(UpdateBefore, Filter(IsPublishedFeatured, updates)), FeaturedLimit)
  }

  /** `Update.objects.filter(is_published=True)[:20]` in the default order. */
  function LatestUpdates(updates: seq<Update>): seq<Update>
  {
    Take(Sort(UpdateBefore, Filter(IsPublished, updates)), UpdatesPageLimit)
  }

  /** `HomeView.get_context_data`. */
  method HomeContextData(outbreaks: seq<Outbreak>, updates: seq<Update>) returns (context: Context)
    ensures context.Keys == {"active_outbreaks", "surveillance_zones", "cleared_outbreaks",
                             "total_animals_affected", "featured_updates"}
    ensures context["active_outbreaks"] == Number(StatusCount(outbreaks, "active"))
    ensures context["surveillance_zones"] == Number(StatusCount(outbreaks, "surveillance"))
    ensures context["cleared_outbreaks"] == Number(StatusCount(outbreaks, "cleared"))
    ensures context["total_animals_affected"] == Number(AnimalsAffectedTotal(outbreaks))
    ensures context["featured_updates"] == Updates(FeaturedUpdates(updates))
  {
    context := map[];
    context := context["active_outbreaks" := Number(StatusCount(outbreaks, "active"))];
    context := context["surveillance_zones" := Number(StatusCount(outbreaks, "surveillance"))];
    context := context["cleared_outbreaks" := Number(StatusCount(outbreaks, "cleared"))];
    context := context["total_animals_affected" := Number(AnimalsAffectedTotal(outbreaks))];
    context := context["featured_updates" := Updates(FeaturedUpdates(updates))];
  }

  /** `UpdatesView.get_context_data`. */
  method UpdatesContextData(updates: seq<Update>) returns (context: Context)
    ensures context.Keys == {"updates"}
    ensures context["updates"] == Updates(LatestUpdates(updates))
  {
    context := map[];
    context := context["updates" := Updates(LatestUpdates(updates))];
  }

  /** The unfiltered listing is the active, verified outbreaks in report order. */
  lemma UnfilteredListing(outbreaks: seq<Outbreak>)
    ensures OutbreakQuerySet(outbreaks, map[]) == Sort(OutbreakBefore, Filter(IsPublicOutbreak, outbreaks))
  {
    OutbreakQuerySetCanonical(outbreaks, map[]);
    FilterAgree(OutbreakSelection(map[]), IsPublicOutbreak, outbreaks);
  }

  /** A home counter counts the outbreaks of its status in the unfiltered listing. */
  lemma StatusCountOfListing(outbreaks: seq<Outbreak>, status: string)
    ensures StatusCount(outbreaks, status) == |Filter(OutbreakStatusIs(status), OutbreakQuerySet(outbreaks, map[]))|
  {
    UnfilteredListing(outbreaks);
    OutbreakOrderTotal();
    FilterSort(OutbreakBefore, OutbreakStatusIs(status), Filter(IsPublicOutbreak, outbreaks));
    FilterFilter(IsPublicOutbreak, OutbreakStatusIs(status), PublicWithStatus(status), outbreaks);
  }

  /**
    The home counters agree with the statistics endpoint asked without parameters: the
    three status counts and the animals total are the ones it reports, and its total is
    the number of active, verified outbreaks.
   */
  lemma HomeCountersMatchStatistics(outbreaks: seq<Outbreak>)
    ensures var st := OutbreakStatistics(outbreaks, map[]);
      && StatusCount(outbreaks, "active") == st.activeOutbreaks
      && StatusCount(outbreaks, "surveillance") == st.surveillanceZones
      && StatusCount(outbreaks, "cleared") == st.clearedOutbreaks
      && AnimalsAffectedTotal(outbreaks) == st.totalAnimalsAffected
      && st.totalOutbreaks == |Filter(IsPublicOutbreak, outbreaks)|
  {
    UnfilteredListing(outbreaks);
    SumSort(OutbreakBefore, AnimalsAffected, Filter(IsPublicOutbreak, outbreaks));
    StatusCountOfListing(outbreaks, "active");
    StatusCountOfListing(outbreaks, "surveillance");
    StatusCountOfListing(outbreaks, "cleared");
  }

  /**
    The three status counters sum to at most the number of active, verified outbreaks,
    and to exactly that number when every such outbreak's status is in the table.
   */
  lemma HomeCountersBound(outbreaks: seq<Outbreak>)
    ensures StatusCount(outbreaks, "active") + StatusCount(outbreaks, "surveillance") + StatusCount(outbreaks, "cleared")
            <= |Filter(IsPublicOutbreak, outbreaks)|
    ensures (forall o :: o in outbreaks && IsPublicOutbreak(o) ==> Listed(OutbreakStatusChoices, o.status)) ==>
              StatusCount(outbreaks, "active") + StatusCount(outbreaks, "surveillance") + StatusCount(outbreaks, "cleared")
              == |Filter(IsPublicOutbreak, outbreaks)|
  {
    HomeCountersMatchStatistics(outbreaks);
    var qs := OutbreakQuerySet(outbreaks, map[]);
    OutbreakQuerySetSpec(outbreaks, map[]);
    StatusCountersBound(qs);
  }

  /** The featured=true listing of the API is the published, featured updates, newest first. */
  lemma FeaturedListing(updates: seq<Update>)
    ensures UpdateQuerySet(updates, map["featured" := "true"]) == Sort(UpdateBefore, Filter(IsPublishedFeatured, updates))
  {
    var params := map["featured" := "true"];
    assert Lower("true") == "true";
    assert FeaturedRequested(params) && !Given(params, "type");
    UpdateQuerySetCanonical(updates, params);
    FilterAgree(UpdateSelection(params), IsPublishedFeatured, updates);
  }

  /**
    At most three featured updates are shown; each is a stored update that is published
    and featured; they are the head of the API's featured=true listing, so newest first,
    and all of them when there are no more than three.
   */
  lemma FeaturedUpdatesSpec(updates: seq<Update>)
    ensures |FeaturedUpdates(updates)| <= FeaturedLimit
    ensures forall u :: u in FeaturedUpdates(updates) ==> u in updates && u.isPublished && u.isFeatured
    ensures FeaturedUpdates(updates) == Take(UpdateQuerySet(updates, map["featured" := "true"]), FeaturedLimit)
    ensures Sorted(UpdateBefore, FeaturedUpdates(updates))
    ensures |FeaturedUpdates(updates)| == if |Filter(IsPublishedFeatured, updates)| < FeaturedLimit
                                          then |Filter(IsPublishedFeatured, updates)| else FeaturedLimit
  {
    FeaturedListing(updates);
    var listing := Sort(UpdateBefore, Filter(IsPublishedFeatured, updates));
    UpdateOrderTotal();
    SortSorted(UpdateBefore, Filter(IsPublishedFeatured, updates));
    var f := FeaturedUpdates(updates);
    forall u | u in f ensures u in updates && u.isPublished && u.isFeatured {
      var i :| 0 <= i < |f| && f[i] == u;
      assert u in multiset(listing);
      FilterMembers(IsPublishedFeatured, updates, u);
    }
  }

  /**
    The updates page shows at most twenty updates, all published, newest first: the head
    of the API's unfiltered listing.
   */
  lemma LatestUpdatesSpec(updates: seq<Update>)
    ensures |LatestUpdates(updates)| <= UpdatesPageLimit
    ensures forall u :: u in LatestUpdates(updates) ==> u in updates && u.isPublished
    ensures LatestUpdates(updates) == Take(UpdateQuerySet(updates, map[]), UpdatesPageLimit)
    ensures Sorted(UpdateBefore, LatestUpdates(updates))
  {
    UpdateQuerySetCanonical(updates, map[]);
    FilterAgree(UpdateSelection(map[]), IsPublished, updates);
    UpdateQuerySetSpec(updates, map[]);
    var l := LatestUpdates(updates);
    forall u | u in l ensures u in updates && u.isPublished {
      var i :| 0 <= i < |l| && l[i] == u;
      assert u in UpdateQuerySet(updates, map[]);
    }
  }
}
