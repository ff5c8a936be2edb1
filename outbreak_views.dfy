/**
  The read API over the geo entities: each viewset's `get_queryset` (the public base set,
  the optional narrowing by query parameters, the fixed order), the custom `list`
  responses, the `geojson` actions and the outbreak `statistics` action.
 */
module OutbreakViews {
  import opened Wrappers
  import opened Seqs
  import opened Text
  import opened Choices
  import opened Grouping
  import opened OutbreakModels

  /** The request's query string, one value per parameter name. */
  type QueryParams = map<string, string>

  /** The value of a parameter, or the empty string when it is absent. */
  function Value(params: QueryParams, key: string): string
  {
    if key in params then params[key] else ""
  }

  /** `value = query_params.get(key, None)` followed by `if value:`: present and not empty. */
  predicate Given(params: QueryParams, key: string)
  {
    key in params && params[key] != ""
  }

  /** `value.lower() == 'true'`, the reading of the affected and operational flags. */
  predicate FlagTrue(params: QueryParams, key: string)
  {
    Lower(Value(params, key)) == "true"
  }

  // ---------------------------------------------------------------------------
  // Outbreaks
  // ---------------------------------------------------------------------------

  /** The viewset's base set: active and verified. */
  predicate IsPublicOutbreak(o: Outbreak)
  {
    o.isActive && o.isVerified
  }

  function OutbreakStatusIs(v: string): Outbreak -> bool
  {
    (o: Outbreak) => o.status == v
  }

  function OutbreakRegionIs(v: string): Outbreak -> bool
  {
    (o: Outbreak) => o.region == v
  }

  /** `order_by('-date_reported')`: most recently reported first. */
  predicate OutbreakBefore(a: Outbreak, b: Outbreak)
  {
    a.dateReported >= b.dateReported
  }

  /** `OutbreakViewSet.get_queryset`, shared by the list, geojson and statistics actions. */
  function OutbreakQuerySet(table: seq<Outbreak>, params: QueryParams): seq<Outbreak>
  {
    var base := Filter(IsPublicOutbreak, table);
    var byStatus := Narrow(Given(params, "status"), OutbreakStatusIs(Value(params, "status")), base);
    var byRegion := Narrow(Given(params, "region"), OutbreakRegionIs(Value(params, "region")), byStatus);
    Sort(OutbreakBefore, byRegion)
  }

  /** What the query parameters ask of an outbreak. */
  predicate OutbreakNarrowed(params: QueryParams, o: Outbreak)
  {
    && (Given(params, "status") ==> o.status == params["status"])
    && (Given(params, "region") ==> o.region == params["region"])
  }

  /** Whether an outbreak belongs in the response. */
  predicate OutbreakSelected(params: QueryParams, o: Outbreak)
  {
    IsPublicOutbreak(o) && OutbreakNarrowed(params, o)
  }

  function OutbreakNarrowing(params: QueryParams): Outbreak -> bool
  {
    (o: Outbreak) => OutbreakNarrowed(params, o)
  }

  function OutbreakSelection(params: QueryParams): Outbreak -> bool
  {
    (o: Outbreak) => OutbreakSelected(params, o)
  }

  lemma OutbreakQuerySetCanonical(table: seq<Outbreak>, params: QueryParams)
    ensures OutbreakQuerySet(table, params) == Sort(OutbreakBefore, Filter(OutbreakSelection(params), table))
  {
    var byStatus := (o: Outbreak) => IsPublicOutbreak(o) && (Given(params, "status") ==> o.status == params["status"]);
    NarrowFilter(Given(params, "status"), OutbreakStatusIs(Value(params, "status")), IsPublicOutbreak, byStatus, table);
    NarrowFilter(Given(params, "region"), OutbreakRegionIs(Value(params, "region")), byStatus, OutbreakSelection(params), table);
  }

  // ---------------------------------------------------------------------------
  // Dip tanks
  // ---------------------------------------------------------------------------

  predicate IsActiveDipTank(d: DipTank)
  {
    d.isActive
  }

  function DipTankRegionIs(v: string): DipTank -> bool
  {
    (d: DipTank) => d.region == v
  }

  function DipTankAffectedIs(b: bool): DipTank -> bool
  {
    (d: DipTank) => d.isAffected == b
  }

  /** `order_by('region', 'name')`. */
  predicate DipTankBefore(a: DipTank, b: DipTank)
  {
    KeysLessEq([a.region, a.name], [b.region, b.name])
  }

  /** `DipTankViewSet.get_queryset`: a present `affected` flag always filters. */
  function DipTankQuerySet(table: seq<DipTank>, params: QueryParams): seq<DipTank>
  {
    var base := Filter(IsActiveDipTank, table);
    var byRegion := Narrow(Given(params, "region"), DipTankRegionIs(Value(params, "region")), base);
    var byAffected := Narrow("affected" in params, DipTankAffectedIs(FlagTrue(params, "affected")), byRegion);
    Sort(DipTankBefore, byAffected)
  }

  predicate DipTankNarrowed(params: QueryParams, d: DipTank)
  {
    && (Given(params, "region") ==> d.region == params["region"])
    && ("affected" in params ==> d.isAffected == (Lower(params["affected"]) == "true"))
  }

  predicate DipTankSelected(params: QueryParams, d: DipTank)
  {
    d.isActive && DipTankNarrowed(params, d)
  }

  function DipTankNarrowing(params: QueryParams): DipTank -> bool
  {
    (d: DipTank) => DipTankNarrowed(params, d)
  }

  function DipTankSelection(params: QueryParams): DipTank -> bool
  {
    (d: DipTank) => DipTankSelected(params, d)
  }

  lemma DipTankQuerySetCanonical(table: seq<DipTank>, params: QueryParams)
    ensures DipTankQuerySet(table, params) == Sort(DipTankBefore, Filter(DipTankSelection(params), table))
  {
    var byRegion := (d: DipTank) => d.isActive && (Given(params, "region") ==> d.region == params["region"]);
    NarrowFilter(Given(params, "region"), DipTankRegionIs(Value(params, "region")), IsActiveDipTank, byRegion, table);
    NarrowFilter("affected" in params, DipTankAffectedIs(FlagTrue(params, "affected")), byRegion, DipTankSelection(params), table);
  }

  // ---------------------------------------------------------------------------
  // Cordon lines
  // ---------------------------------------------------------------------------

  predicate IsActiveCordonLine(c: CordonLine)
  {
    c.isActive
  }

  function CordonLineRegionIs(v: string): CordonLine -> bool
  {
    (c: CordonLine) => c.region == v
  }

  function CordonLineStatusIs(v: string): CordonLine -> bool
  {
    (c: CordonLine) => c.status == v
  }

  /** `order_by('-date_established')`: most recently established first. */
  predicate CordonLineBefore(a: CordonLine, b: CordonLine)
  {
    a.dateEstablished >= b.dateEstablished
  }

  /** `CordonLineViewSet.get_queryset`. */
  function CordonLineQuerySet(table: seq<CordonLine>, params: QueryParams): seq<CordonLine>
  {
    var base := Filter(IsActiveCordonLine, table);
    var byRegion := Narrow(Given(params, "region"), CordonLineRegionIs(Value(params, "region")), base);
    var byStatus := Narrow(Given(params, "status"), CordonLineStatusIs(Value(params, "status")), byRegion);
    Sort(CordonLineBefore, byStatus)
  }

  predicate CordonLineNarrowed(params: QueryParams, c: CordonLine)
  {
    && (Given(params, "region") ==> c.region == params["region"])
    && (Given(params, "status") ==> c.status == params["status"])
  }

  predicate CordonLineSelected(params: QueryParams, c: CordonLine)
  {
    c.isActive && CordonLineNarrowed(params, c)
  }

  function CordonLineNarrowing(params: QueryParams): CordonLine -> bool
  {
    (c: CordonLine) => CordonLineNarrowed(params, c)
  }

  function CordonLineSelection(params: QueryParams): CordonLine -> bool
  {
    (c: CordonLine) => CordonLineSelected(params, c)
  }

  lemma CordonLineQuerySetCanonical(table: seq<CordonLine>, params: QueryParams)
    ensures CordonLineQuerySet(table, params) == Sort(CordonLineBefore, Filter(CordonLineSelection(params), table))
  {
    var byRegion := (c: CordonLine) => c.isActive && (Given(params, "region") ==> c.region == params["region"]);
    NarrowFilter(Given(params, "region"), CordonLineRegionIs(Value(params, "region")), IsActiveCordonLine, byRegion, table);
    NarrowFilter(Given(params, "status"), CordonLineStatusIs(Value(params, "status")), byRegion, CordonLineSelection(params), table);
  }

  // ---------------------------------------------------------------------------
  // Foot-wash stations
  // ---------------------------------------------------------------------------

  predicate IsActiveStation(s: FootWashStation)
  {
    s.isActive
  }

  function StationRegionIs(v: string): FootWashStation -> bool
  {
    (s: FootWashStation) => s.region == v
  }

  function StationRoadTypeIs(v: string): FootWashStation -> bool
  {
    (s: FootWashStation) => s.roadType == v
  }

  function StationOperationalIs(b: bool): FootWashStation -> bool
  {
    (s: FootWashStation) => s.isOperational == b
  }

  /** `order_by('region', 'road_name', 'name')`. */
  predicate StationBefore(a: FootWashStation, b: FootWashStation)
  {
    KeysLessEq([a.region, a.roadName, a.name], [b.region, b.roadName, b.name])
  }

  /** `FootWashStationViewSet.get_queryset`: a present `operational` flag always filters. */
  function StationQuerySet(table: seq<FootWashStation>, params: QueryParams): seq<FootWashStation>
  {
    var base := Filter(IsActiveStation, table);
    var byRegion := Narrow(Given(params, "region"), StationRegionIs(Value(params, "region")), base);
    var byRoadType := Narrow(Given(params, "road_type"), StationRoadTypeIs(Value(params, "road_type")), byRegion);
    var byOperational := Narrow("operational" in params, StationOperationalIs(FlagTrue(params, "operational")), byRoadType);
    Sort(StationBefore, byOperational)
  }

  predicate StationNarrowed(params: QueryParams, s: FootWashStation)
  {
    && (Given(params, "region") ==> s.region == params["region"])
    && (Given(params, "road_type") ==> s.roadType == params["road_type"])
    && ("operational" in params ==> s.isOperational == (Lower(params["operational"]) == "true"))
  }

  predicate StationSelected(params: QueryParams, s: FootWashStation)
  {
    s.isActive && StationNarrowed(params, s)
  }

  function StationNarrowing(params: QueryParams): FootWashStation -> bool
  {
    (s: FootWashStation) => StationNarrowed(params, s)
  }

  function StationSelection(params: QueryParams): FootWashStation -> bool
  {
    (s: FootWashStation) => StationSelected(params, s)
  }

  lemma StationQuerySetCanonical(table: seq<FootWashStation>, params: QueryParams)
    ensures StationQuerySet(table, params) == Sort(StationBefore, Filter(StationSelection(params), table))
  {
    var byRegion := (s: FootWashStation) => s.isActive && (Given(params, "region") ==> s.region == params["region"]);
    var byRoadType := (s: FootWashStation) => byRegion(s) && (Given(params, "road_type") ==> s.roadType == params["road_type"]);
    NarrowFilter(Given(params, "region"), StationRegionIs(Value(params, "region")), IsActiveStation, byRegion, table);
    NarrowFilter(Given(params, "road_type"), StationRoadTypeIs(Value(params, "road_type")), byRegion, byRoadType, table);
    NarrowFilter("operational" in params, StationOperationalIs(FlagTrue(params, "operational")), byRoadType, StationSelection(params), table);
  }

  // ---------------------------------------------------------------------------
  // What every get_queryset promises
  // ---------------------------------------------------------------------------

  lemma OutbreakOrderTotal()
    ensures TotalPreorder(OutbreakBefore)
  {
  }

  lemma CordonLineOrderTotal()
    ensures TotalPreorder(CordonLineBefore)
  {
  }

  lemma DipTankOrderTotal()
    ensures TotalPreorder(DipTankBefore)
  {
    forall a: DipTank, b: DipTank ensures DipTankBefore(a, b) || DipTankBefore(b, a) {
      KeysTotal([a.region, a.name], [b.region, b.name]);
    }
    forall a: DipTank, b: DipTank, c: DipTank | DipTankBefore(a, b) && DipTankBefore(b, c)
      ensures DipTankBefore(a, c)
    {
      KeysTransitive([a.region, a.name], [b.region, b.name], [c.region, c.name]);
    }
  }

  lemma StationOrderTotal()
    ensures TotalPreorder(StationBefore)
  {
    forall a: FootWashStation, b: FootWashStation ensures StationBefore(a, b) || StationBefore(b, a) {
      KeysTotal([a.region, a.roadName, a.name], [b.region, b.roadName, b.name]);
    }
    forall a: FootWashStation, b: FootWashStation, c: FootWashStation | StationBefore(a, b) && StationBefore(b, c)
      ensures StationBefore(a, c)
    {
      KeysTransitive([a.region, a.roadName, a.name], [b.region, b.roadName, b.name], [c.region, c.roadName, c.name]);
    }
  }

  /**
    The outbreak listing is ordered by report date, newest first, and holds exactly the
    stored outbreaks that are active, verified and match every given filter, each as
    often as it is stored.
   */
  lemma OutbreakQuerySetSpec(table: seq<Outbreak>, params: QueryParams)
    ensures Sorted(OutbreakBefore, OutbreakQuerySet(table, params))
    ensures forall o :: o in OutbreakQuerySet(table, params) <==> o in table && OutbreakSelected(params, o)
    ensures forall o :: multiset(OutbreakQuerySet(table, params))[o] ==
              if OutbreakSelected(params, o) then multiset(table)[o] else 0
  {
    OutbreakQuerySetCanonical(table, params);
    OutbreakOrderTotal();
    SortSorted(OutbreakBefore, Filter(OutbreakSelection(params), table));
    forall o ensures multiset(OutbreakQuerySet(table, params))[o] ==
                     if OutbreakSelected(params, o) then multiset(table)[o] else 0 {
      FilterMultiset(OutbreakSelection(params), table, o);
    }
  }

  /**
    Filters never reorder: the narrowed listing is the unfiltered listing with the
    non-matching outbreaks taken out.
   */
  lemma OutbreakFiltersKeepOrder(table: seq<Outbreak>, params: QueryParams)
    ensures OutbreakQuerySet(table, params) == Filter(OutbreakNarrowing(params), OutbreakQuerySet(table, map[]))
  {
    OutbreakQuerySetCanonical(table, params);
    OutbreakQuerySetCanonical(table, map[]);
    OutbreakOrderTotal();
    FilterSort(OutbreakBefore, OutbreakNarrowing(params), Filter(OutbreakSelection(map[]), table));
    FilterFilter(OutbreakSelection(map[]), OutbreakNarrowing(params), OutbreakSelection(params), table);
  }

  /**
    The dip-tank listing is ordered by (region, name) and holds exactly the active
    dip tanks matching the filters; a present `affected` flag selects affected tanks when
    it reads "true" in any case and unaffected ones for every other value, the empty
    string included.
   */
  lemma DipTankQuerySetSpec(table: seq<DipTank>, params: QueryParams)
    ensures Sorted(DipTankBefore, DipTankQuerySet(table, params))
    ensures forall d :: d in DipTankQuerySet(table, params) <==> d in table && DipTankSelected(params, d)
    ensures forall d :: multiset(DipTankQuerySet(table, params))[d] ==
              if DipTankSelected(params, d) then multiset(table)[d] else 0
  {
    DipTankQuerySetCanonical(table, params);
    DipTankOrderTotal();
    SortSorted(DipTankBefore, Filter(DipTankSelection(params), table));
    forall d ensures multiset(DipTankQuerySet(table, params))[d] ==
                     if DipTankSelected(params, d) then multiset(table)[d] else 0 {
      FilterMultiset(DipTankSelection(params), table, d);
    }
  }

  lemma DipTankFiltersKeepOrder(table: seq<DipTank>, params: QueryParams)
    ensures DipTankQuerySet(table, params) == Filter(DipTankNarrowing(params), DipTankQuerySet(table, map[]))
  {
    DipTankQuerySetCanonical(table, params);
    DipTankQuerySetCanonical(table, map[]);
    DipTankOrderTotal();
    FilterSort(DipTankBefore, DipTankNarrowing(params), Filter(DipTankSelection(map[]), table));
    FilterFilter(DipTankSelection(map[]), DipTankNarrowing(params), DipTankSelection(params), table);
  }

  /** An `affected` flag that is present but empty selects the unaffected tanks. */
  lemma DipTankEmptyFlagSelectsUnaffected(table: seq<DipTank>, params: QueryParams)
    requires "affected" in params && params["affected"] == ""
    ensures forall d :: d in DipTankQuerySet(table, params) ==> !d.isAffected
  {
    DipTankQuerySetSpec(table, params);
    assert Lower(params["affected"]) == "";
  }

  lemma CordonLineQuerySetSpec(table: seq<CordonLine>, params: QueryParams)
    ensures Sorted(CordonLineBefore, CordonLineQuerySet(table, params))
    ensures forall c :: c in CordonLineQuerySet(table, params) <==> c in table && CordonLineSelected(params, c)
    ensures forall c :: multiset(CordonLineQuerySet(table, params))[c] ==
              if CordonLineSelected(params, c) then multiset(table)[c] else 0
  {
    CordonLineQuerySetCanonical(table, params);
    CordonLineOrderTotal();
    SortSorted(CordonLineBefore, Filter(CordonLineSelection(params), table));
    forall c ensures multiset(CordonLineQuerySet(table, params))[c] ==
                     if CordonLineSelected(params, c) then multiset(table)[c] else 0 {
      FilterMultiset(CordonLineSelection(params), table, c);
    }
  }

  lemma CordonLineFiltersKeepOrder(table: seq<CordonLine>, params: QueryParams)
    ensures CordonLineQuerySet(table, params) == Filter(CordonLineNarrowing(params), CordonLineQuerySet(table, map[]))
  {
    CordonLineQuerySetCanonical(table, params);
    CordonLineQuerySetCanonical(table, map[]);
    CordonLineOrderTotal();
    FilterSort(CordonLineBefore, CordonLineNarrowing(params), Filter(CordonLineSelection(map[]), table));
    FilterFilter(CordonLineSelection(map[]), CordonLineNarrowing(params), CordonLineSelection(params), table);
  }

  lemma StationQuerySetSpec(table: seq<FootWashStation>, params: QueryParams)
    ensures Sorted(StationBefore, StationQuerySet(table, params))
    ensures forall s :: s in StationQuerySet(table, params) <==> s in table && StationSelected(params, s)
    ensures forall s :: multiset(StationQuerySet(table, params))[s] ==
              if StationSelected(params, s) then multiset(table)[s] else 0
  {
    StationQuerySetCanonical(table, params);
    StationOrderTotal();
    SortSorted(StationBefore, Filter(StationSelection(params), table));
    forall s ensures multiset(StationQuerySet(table, params))[s] ==
                     if StationSelected(params, s) then multiset(table)[s] else 0 {
      FilterMultiset(StationSelection(params), table, s);
    }
  }

  lemma StationFiltersKeepOrder(table: seq<FootWashStation>, params: QueryParams)
    ensures StationQuerySet(table, params) == Filter(StationNarrowing(params), StationQuerySet(table, map[]))
  {
    StationQuerySetCanonical(table, params);
    StationQuerySetCanonical(table, map[]);
    StationOrderTotal();
    FilterSort(StationBefore, StationNarrowing(params), Filter(StationSelection(map[]), table));
    FilterFilter(StationSelection(map[]), StationNarrowing(params), StationSelection(params), table);
  }

  // ---------------------------------------------------------------------------
  // list responses
  // ---------------------------------------------------------------------------

  /** `{'count': len(data), 'results': data}`. */
  datatype ListResponse<T> = ListResponse(count: nat, results: seq<T>)

  datatype DipTankListItem = DipTankListItem(
    id: int, name: string, region: string, regionDisplay: string, isAffected: bool,
    latitude: MicroDegrees, longitude: MicroDegrees, capacity: Option<nat>)

  datatype CordonLineListItem = CordonLineListItem(
    id: int, name: string, region: string, regionDisplay: string,
    status: string, statusDisplay: string, dateEstablished: Timestamp,
    dateExpires: Option<Timestamp>, description: string)

  datatype StationListItem = StationListItem(
    id: int, name: string, region: string, regionDisplay: string,
    roadName: string, roadType: string, roadTypeDisplay: string,
    latitude: MicroDegrees, longitude: MicroDegrees, isOperational: bool,
    operatingHours: string, contactPhone: string)

  /** The list form of a dip tank: its own fields, with the region shown by its label. */
  function DipTankItem(d: DipTank): (item: DipTankListItem)
    ensures item.id == d.id && item.region == d.region && item.isAffected == d.isAffected
    ensures item.regionDisplay == Label(RegionChoices, d.region)
    ensures item.latitude == d.latitude && item.longitude == d.longitude
    ensures item.name == d.name && item.capacity == d.capacity
  {
    DipTankListItem(d.id, d.name, d.region, Label(RegionChoices, d.region), d.isAffected,
                    d.latitude, d.longitude, d.capacity)
  }

  /** The list form of a cordon line: its own fields, with region and status shown by their labels. */
  function CordonLineItem(c: CordonLine): (item: CordonLineListItem)
    ensures item.id == c.id && item.region == c.region && item.status == c.status
    ensures item.regionDisplay == Label(RegionChoices, c.region)
    ensures item.statusDisplay == Label(CordonStatusChoices, c.status)
    ensures item.dateExpires == c.dateExpires
    ensures item.name == c.name && item.dateEstablished == c.dateEstablished && item.description == c.description
  {
    CordonLineListItem(c.id, c.name, c.region, Label(RegionChoices, c.region),
                       c.status, Label(CordonStatusChoices, c.status), c.dateEstablished,
                       c.dateExpires, c.description)
  }

  /** The list form of a station: its own fields, with region and road type shown by their labels. */
  function StationItem(s: FootWashStation): (item: StationListItem)
    ensures item.id == s.id && item.region == s.region && item.roadType == s.roadType
    ensures item.regionDisplay == Label(RegionChoices, s.region)
    ensures item.roadTypeDisplay == Label(RoadTypeChoices, s.roadType)
    ensures item.latitude == s.latitude && item.longitude == s.longitude
    ensures item.isOperational == s.isOperational
    ensures item.name == s.name && item.roadName == s.roadName
    ensures item.operatingHours == s.operatingHours && item.contactPhone == s.contactPhone
  {
    StationListItem(s.id, s.name, s.region, Label(RegionChoices, s.region),
                    s.roadName, s.roadType, Label(RoadTypeChoices, s.roadType),
                    s.latitude, s.longitude, s.isOperational, s.operatingHours, s.contactPhone)
  }

  /** `DipTankViewSet.list`: one entry per listed dip tank, in listing order. */
  method DipTankList(table: seq<DipTank>, params: QueryParams) returns (response: ListResponse<DipTankListItem>)
    ensures response.count == |response.results| == |DipTankQuerySet(table, params)|
    ensures forall i :: 0 <= i < |response.results| ==>
              response.results[i] == DipTankItem(DipTankQuerySet(table, params)[i])
  {
    var queryset := DipTankQuerySet(table, params);
    var data: seq<DipTankListItem> := [];
    for i := 0 to |queryset|
      invariant |data| == i
      invariant forall k :: 0 <= k < i ==> data[k] == DipTankItem(queryset[k])
    {
      data := data + [DipTankItem(queryset[i])];
    }
    response := ListResponse(|data|, data);
  }

  /** `CordonLineViewSet.list`: one entry per listed cordon line, in listing order. */
  method CordonLineList(table: seq<CordonLine>, params: QueryParams) returns (response: ListResponse<CordonLineListItem>)
    ensures response.count == |response.results| == |CordonLineQuerySet(table, params)|
    ensures forall i :: 0 <= i < |response.results| ==>
              response.results[i] == CordonLineItem(CordonLineQuerySet(table, params)[i])
  {
    var queryset := CordonLineQuerySet(table, params);
    var data: seq<CordonLineListItem> := [];
    for i := 0 to |queryset|
      invariant |data| == i
      invariant forall k :: 0 <= k < i ==> data[k] == CordonLineItem(queryset[k])
    {
      data := data + [CordonLineItem(queryset[i])];
    }
    response := ListResponse(|data|, data);
  }

  /** `FootWashStationViewSet.list`: one entry per listed station, in listing order. */
  method StationList(table: seq<FootWashStation>, params: QueryParams) returns (response: ListResponse<StationListItem>)
    ensures response.count == |response.results| == |StationQuerySet(table, params)|
    ensures forall i :: 0 <= i < |response.results| ==>
              response.results[i] == StationItem(StationQuerySet(table, params)[i])
  {
    var queryset := StationQuerySet(table, params);
    var data: seq<StationListItem> := [];
    for i := 0 to |queryset|
      invariant |data| == i
      invariant forall k :: 0 <= k < i ==> data[k] == StationItem(queryset[k])
    {
      data := data + [StationItem(queryset[i])];
    }
    response := ListResponse(|data|, data);
  }

  // ---------------------------------------------------------------------------
  // geojson actions
  // ---------------------------------------------------------------------------

  function OutbreakGeoJson(table: seq<Outbreak>, params: QueryParams): (fc: FeatureCollection<OutbreakProperties>)
    ensures |fc.features| == |OutbreakQuerySet(table, params)|
    ensures forall i :: 0 <= i < |fc.features| ==> fc.features[i] == OutbreakFeature(OutbreakQuerySet(table, params)[i])
  {
    FeatureCollection(Map(OutbreakFeature, OutbreakQuerySet(table, params)))
  }

  function DipTankGeoJson(table: seq<DipTank>, params: QueryParams): (fc: FeatureCollection<DipTankProperties>)
    ensures |fc.features| == |DipTankQuerySet(table, params)|
    ensures forall i :: 0 <= i < |fc.features| ==> fc.features[i] == DipTankFeature(DipTankQuerySet(table, params)[i])
  {
    FeatureCollection(Map(DipTankFeature, DipTankQuerySet(table, params)))
  }

  function CordonLineGeoJson(table: seq<CordonLine>, params: QueryParams): (fc: FeatureCollection<CordonLineProperties>)
    ensures |fc.features| == |CordonLineQuerySet(table, params)|
    ensures forall i :: 0 <= i < |fc.features| ==> fc.features[i] == CordonLineFeature(CordonLineQuerySet(table, params)[i])
  {
    FeatureCollection(Map(CordonLineFeature, CordonLineQuerySet(table, params)))
  }

  function StationGeoJson(table: seq<FootWashStation>, params: QueryParams): (fc: FeatureCollection<FootWashStationProperties>)
    ensures |fc.features| == |StationQuerySet(table, params)|
    ensures forall i :: 0 <= i < |fc.features| ==> fc.features[i] == FootWashStationFeature(StationQuerySet(table, params)[i])
  {
    FeatureCollection(Map(FootWashStationFeature, StationQuerySet(table, params)))
  }

  /**
    Every outbreak feature is the Point of a stored outbreak that is active and verified
    and matches the filters: unverified or inactive records never reach the map.
   */
  lemma OutbreakGeoJsonPublic(table: seq<Outbreak>, params: QueryParams, i: nat)
    requires i < |OutbreakGeoJson(table, params).features|
    ensures exists o :: o in table && OutbreakSelected(params, o) &&
              OutbreakGeoJson(table, params).features[i] == OutbreakFeature(o)
  {
    OutbreakQuerySetSpec(table, params);
    var o := OutbreakQuerySet(table, params)[i];
    assert o in OutbreakQuerySet(table, params);
  }

  /** Every dip-tank feature is a Point carrying the 5000 m radius, whatever the tank. */
  lemma DipTankGeoJsonRadius(table: seq<DipTank>, params: QueryParams)
    ensures forall f :: f in DipTankGeoJson(table, params).features ==>
              f.geometry.TypeName() == "Point" && f.properties.radius == 5000
  {
    var fc := DipTankGeoJson(table, params);
    forall f | f in fc.features ensures f.geometry.TypeName() == "Point" && f.properties.radius == 5000 {
      var i :| 0 <= i < |fc.features| && fc.features[i] == f;
    }
  }

  // ---------------------------------------------------------------------------
  // statistics action
  // ---------------------------------------------------------------------------

  datatype Statistics = Statistics(
    totalOutbreaks: nat,
    activeOutbreaks: nat,
    surveillanceZones: nat,
    clearedOutbreaks: nat,
    totalAnimalsAffected: nat,
    totalAnimalsQuarantined: nat,
    byStatus: seq<Group>,
    byRegion: seq<Group>)

  function StatusOf(o: Outbreak): string { o.status }
  function RegionOf(o: Outbreak): string { o.region }
  function AnimalsAffected(o: Outbreak): nat { o.animalsAffected }
  function AnimalsQuarantined(o: Outbreak): nat { o.animalsQuarantined }

  /** The figures the statistics action computes over a set of outbreaks. */
  function Summarize(qs: seq<Outbreak>): Statistics
  {
    Statistics(
      |qs|,
      |Filter(OutbreakStatusIs("active"), qs)|,
      |Filter(OutbreakStatusIs("surveillance"), qs)|,
      |Filter(OutbreakStatusIs("cleared"), qs)|,
      Sum(AnimalsAffected, qs),
      Sum(AnimalsQuarantined, qs),
      GroupCounts(Map(StatusOf, qs)),
      GroupCounts(Map(RegionOf, qs)))
  }

  /** `OutbreakViewSet.statistics`, over the same narrowed set as the listing. */
  function OutbreakStatistics(table: seq<Outbreak>, params: QueryParams): Statistics
  {
    Summarize(OutbreakQuerySet(table, params))
  }

  /** The status codes of the table are exactly active, surveillance and cleared. */
  lemma ListedStatus(code: string)
    ensures Listed(OutbreakStatusChoices, code) <==> code == "active" || code == "surveillance" || code == "cleared"
  {
    if code == "active" { assert OutbreakStatusChoices[0].0 == code; }
    if code == "surveillance" { assert OutbreakStatusChoices[1].0 == code; }
    if code == "cleared" { assert OutbreakStatusChoices[2].0 == code; }
  }

  /**
    The three status counters never add up to more than the total, and add up to
    exactly the total when every status is one of the table's codes.
   */
  lemma StatusCountersBound(qs: seq<Outbreak>)
    ensures var st := Summarize(qs);
      st.activeOutbreaks + st.surveillanceZones + st.clearedOutbreaks <= st.totalOutbreaks
    ensures var st := Summarize(qs);
      (forall o :: o in qs ==> Listed(OutbreakStatusChoices, o.status)) ==>
        st.activeOutbreaks + st.surveillanceZones + st.clearedOutbreaks == st.totalOutbreaks
  {
    var active, surveillance, cleared := OutbreakStatusIs("active"), OutbreakStatusIs("surveillance"), OutbreakStatusIs("cleared");
    CountThree(active, surveillance, cleared, qs);
    if forall o :: o in qs ==> Listed(OutbreakStatusChoices, o.status) {
      forall i | 0 <= i < |qs| ensures active(qs[i]) || surveillance(qs[i]) || cleared(qs[i]) {
        assert qs[i] in qs;
        ListedStatus(qs[i].status);
      }
    }
  }

  /** The group of each status holds the number of outbreaks with that status. */
  lemma {:induction false} StatusGroupCounts(qs: seq<Outbreak>, k: string)
    ensures CountOf(GroupCounts(Map(StatusOf, qs)), k) == |Filter(OutbreakStatusIs(k), qs)|
  {
    GroupCountsSpec(Map(StatusOf, qs));
    MapOccurrences(StatusOf, OutbreakStatusIs(k), k, qs);
  }

  /** The group of each region holds the number of outbreaks in that region. */
  lemma {:induction false} RegionGroupCounts(qs: seq<Outbreak>, k: string)
    ensures CountOf(GroupCounts(Map(RegionOf, qs)), k) == |Filter(OutbreakRegionIs(k), qs)|
  {
    GroupCountsSpec(Map(RegionOf, qs));
    MapOccurrences(RegionOf, OutbreakRegionIs(k), k, qs);
  }

  /** The per-status and per-region groups ascend by key and have positive counts adding up to the total. */
  lemma StatisticsShape(qs: seq<Outbreak>)
    ensures var st := Summarize(qs);
      && Ascending(st.byStatus) && AllPositive(st.byStatus) && Total(st.byStatus) == st.totalOutbreaks
      && Ascending(st.byRegion) && AllPositive(st.byRegion) && Total(st.byRegion) == st.totalOutbreaks
  {
    GroupsWellFormed(Map(StatusOf, qs));
    GroupsWellFormed(Map(RegionOf, qs));
  }

  /** The group of every status and every region holds the number of outbreaks carrying it. */
  lemma StatisticsKeyCounts(qs: seq<Outbreak>)
    ensures var st := Summarize(qs);
      forall k :: CountOf(st.byStatus, k) == |Filter(OutbreakStatusIs(k), qs)| &&
                  CountOf(st.byRegion, k) == |Filter(OutbreakRegionIs(k), qs)|
  {
    GroupsCountEveryKey(qs);
  }

  /**
    The per-status and per-region groups ascend by key, have positive counts that add up
    to the total, and give each key the number of outbreaks carrying it; in particular the
    group of each status holds the matching status counter.
   */
  lemma StatisticsGroups(qs: seq<Outbreak>)
    ensures var st := Summarize(qs);
      && Ascending(st.byStatus) && AllPositive(st.byStatus) && Total(st.byStatus) == st.totalOutbreaks
      && Ascending(st.byRegion) && AllPositive(st.byRegion) && Total(st.byRegion) == st.totalOutbreaks
    ensures var st := Summarize(qs);
      forall k :: CountOf(st.byStatus, k) == |Filter(OutbreakStatusIs(k), qs)| &&
                  CountOf(st.byRegion, k) == |Filter(OutbreakRegionIs(k), qs)|
    ensures var st := Summarize(qs);
      && CountOf(st.byStatus, "active") == st.activeOutbreaks
      && CountOf(st.byStatus, "surveillance") == st.surveillanceZones
      && CountOf(st.byStatus, "cleared") == st.clearedOutbreaks
  {
    StatisticsShape(qs);
    StatisticsKeyCounts(qs);
    StatusCounterGroups(qs);
  }

  /** The group of each status holds the matching status counter. */
  lemma StatusCounterGroups(qs: seq<Outbreak>)
    ensures var st := Summarize(qs);
      && CountOf(st.byStatus, "active") == st.activeOutbreaks
      && CountOf(st.byStatus, "surveillance") == st.surveillanceZones
      && CountOf(st.byStatus, "cleared") == st.clearedOutbreaks
  {
    StatusGroupCounts(qs, "active");
    StatusGroupCounts(qs, "surveillance");
    StatusGroupCounts(qs, "cleared");
  }

  /** Every key's group in `by_status` and `by_region` holds the number of outbreaks carrying it. */
  lemma GroupsCountEveryKey(qs: seq<Outbreak>)
    ensures forall k :: CountOf(GroupCounts(Map(StatusOf, qs)), k) == |Filter(OutbreakStatusIs(k), qs)|
    ensures forall k :: CountOf(GroupCounts(Map(RegionOf, qs)), k) == |Filter(OutbreakRegionIs(k), qs)|
  {
    forall k ensures CountOf(GroupCounts(Map(StatusOf, qs)), k) == |Filter(OutbreakStatusIs(k), qs)| {
      StatusGroupCounts(qs, k);
    }
    forall k ensures CountOf(GroupCounts(Map(RegionOf, qs)), k) == |Filter(OutbreakRegionIs(k), qs)| {
      RegionGroupCounts(qs, k);
    }
  }

  /**
    When every outbreak carries one of the table's status codes and each of the three
    occurs, `by_status` has exactly three groups, keyed active, cleared, surveillance in
    that order.
   */
  lemma StatusGroupKeys(qs: seq<Outbreak>)
    requires forall o :: o in qs ==> Listed(OutbreakStatusChoices, o.status)
    requires exists o :: o in qs && o.status == "active"
    requires exists o :: o in qs && o.status == "cleared"
    requires exists o :: o in qs && o.status == "surveillance"
    ensures var g := Summarize(qs).byStatus;
      |g| == 3 && g[0].key == "active" && g[1].key == "cleared" && g[2].key == "surveillance"
  {
    var keys := Map(StatusOf, qs);
    var g := GroupCounts(keys);
    assert Summarize(qs).byStatus == g;
    GroupCountsSpec(keys);
    StatusKeyOrder();
    forall j | 0 <= j < |g| ensures g[j].key == "active" || g[j].key == "cleared" || g[j].key == "surveillance" {
      assert g[j].key in keys;
      var m :| 0 <= m < |keys| && keys[m] == g[j].key;
      assert qs[m] in qs;
      ListedStatus(qs[m].status);
    }
    var oa :| oa in qs && oa.status == "active";
    var oc :| oc in qs && oc.status == "cleared";
    var os :| os in qs && os.status == "surveillance";
    assert StatusOf(oa) in keys && StatusOf(oc) in keys && StatusOf(os) in keys;
    ThreeGroups(g, "active", "cleared", "surveillance");
  }

  /**
    The animal totals are the sums over the matching outbreaks in storage order: the
    listing's order does not change them.
   */
  lemma StatisticsSums(table: seq<Outbreak>, params: QueryParams)
    ensures OutbreakStatistics(table, params).totalAnimalsAffected == Sum(AnimalsAffected, Filter(OutbreakSelection(params), table))
    ensures OutbreakStatistics(table, params).totalAnimalsQuarantined == Sum(AnimalsQuarantined, Filter(OutbreakSelection(params), table))
  {
    OutbreakQuerySetCanonical(table, params);
    SumSort(OutbreakBefore, AnimalsAffected, Filter(OutbreakSelection(params), table));
    SumSort(OutbreakBefore, AnimalsQuarantined, Filter(OutbreakSelection(params), table));
  }

  /**
    The statistics describe the listing: the total is the listing's (and the map's)
    length, the status counters obey the bound above, the groups are well formed, and the
    group of each status holds the same count as the matching status counter.
   */
  lemma StatisticsSpec(table: seq<Outbreak>, params: QueryParams)
    ensures OutbreakStatistics(table, params).totalOutbreaks == |OutbreakQuerySet(table, params)|
    ensures OutbreakStatistics(table, params).totalOutbreaks == |OutbreakGeoJson(table, params).features|
    ensures var st := OutbreakStatistics(table, params);
      st.activeOutbreaks + st.surveillanceZones + st.clearedOutbreaks <= st.totalOutbreaks
    ensures var st := OutbreakStatistics(table, params);
      && Ascending(st.byStatus) && AllPositive(st.byStatus) && Total(st.byStatus) == st.totalOutbreaks
      && Ascending(st.byRegion) && AllPositive(st.byRegion) && Total(st.byRegion) == st.totalOutbreaks
    ensures var st := OutbreakStatistics(table, params);
      && CountOf(st.byStatus, "active") == st.activeOutbreaks
      && CountOf(st.byStatus, "surveillance") == st.surveillanceZones
      && CountOf(st.byStatus, "cleared") == st.clearedOutbreaks
  {
    StatusCountersBound(OutbreakQuerySet(table, params));
    StatisticsGroups(OutbreakQuerySet(table, params));
  }

  // ---------------------------------------------------------------------------
  // Worked examples
  // ---------------------------------------------------------------------------

  function ExampleTank(id: int, region: string, affected: bool): DipTank
  {
    DipTank(id, "Tank", region, 0, 0, affected, None, None, "", true, 0, 0)
  }

  /**
    Of a Manzini tank that is affected, a Manzini tank that is not and a Lubombo tank
    that is not, `region=manzini&affected=true` returns the first alone.
   */
  lemma DipTankFilterExample()
    ensures DipTankQuerySet(
              [ExampleTank(1, "manzini", true), ExampleTank(2, "manzini", false), ExampleTank(3, "lubombo", false)],
              map["region" := "manzini", "affected" := "true"])
            == [ExampleTank(1, "manzini", true)]
  {
    var a, b, c := ExampleTank(1, "manzini", true), ExampleTank(2, "manzini", false), ExampleTank(3, "lubombo", false);
    var table := [a, b, c];
    var params := map["region" := "manzini", "affected" := "true"];
    var p := DipTankSelection(params);
    assert Lower("true") == "true";
    assert p(a) && !p(b) && !p(c);
    assert table[1..] == [b, c] && table[1..][1..] == [c] && [c][1..] == [];
    assert Filter(p, [c]) == [];
    assert Filter(p, [b, c]) == [];
    assert Filter(p, table) == [a];
    DipTankQuerySetCanonical(table, params);
  }

  function ExampleOutbreak(id: int, reported: Timestamp): Outbreak
  {
    Outbreak(id, "", "", "active", "manzini", 0, 0, "", 0, 0, reported, None, None, reported,
             DefaultSource, true, true)
  }

  lemma ExampleSort(a: Outbreak, b: Outbreak, c: Outbreak)
    requires b.dateReported > a.dateReported > c.dateReported
    ensures Sort(OutbreakBefore, [a, b, c]) == [b, a, c]
  {
    assert [a, b, c][1..] == [b, c] && [b, c][1..] == [c] && [c][1..] == [];
    assert Sort(OutbreakBefore, [c]) == [c];
    assert Sort(OutbreakBefore, [b, c]) == [b, c];
    assert Insert(OutbreakBefore, a, [c]) == [a, c];
    assert Insert(OutbreakBefore, a, [b, c]) == [b, a, c];
  }

  /** Outbreaks reported on days T-5, T-3 and T-10 are listed as T-3, T-5, T-10. */
  lemma OutbreakOrderExample(t: Timestamp)
    ensures OutbreakQuerySet([ExampleOutbreak(1, t - 5), ExampleOutbreak(2, t - 3), ExampleOutbreak(3, t - 10)], map[])
            == [ExampleOutbreak(2, t - 3), ExampleOutbreak(1, t - 5), ExampleOutbreak(3, t - 10)]
  {
    var a, b, c := ExampleOutbreak(1, t - 5), ExampleOutbreak(2, t - 3), ExampleOutbreak(3, t - 10);
    var table := [a, b, c];
    FilterAll(OutbreakSelection(map[]), table);
    OutbreakQuerySetCanonical(table, map[]);
    ExampleSort(a, b, c);
  }
}
