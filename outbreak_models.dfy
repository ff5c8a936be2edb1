/**
  The four geo entities of the outbreak tracker (outbreaks, cordon lines, foot-wash
  stations, dip tanks), their choice tables, their `__str__` forms and their projection
  to GeoJSON Features (RFC 7946, section 3.2).

  The point coordinates are `DecimalField(max_digits=9, decimal_places=6)` columns, held
  here exactly as whole micro-degrees. A cordon line's vertices are JSON numbers inside
  a `JSONField`; the model holds them as micro-degrees too, so it covers the vertices
  with at most six decimals. Timestamps are an ordered abstract clock value.
 */
module OutbreakModels {
  import opened Wrappers
  import opened Text
  import opened Choices

  /** Degrees times 10^6: the exact value of a six-decimal-place column. */
  type MicroDegrees = int
  /** A point in time; only its order matters to the model. */
  type Timestamp = int

  const DefaultSource := "Ministry of Agriculture"
  /** The radius, in metres, of the circle drawn around every dip tank. */
  const DipTankRadius := 5000

  const OutbreakStatusChoices: ChoiceTable :=
    [("active", "Active Outbreak"), ("surveillance", "Under Surveillance"), ("cleared", "Cleared/Controlled")]
  const RegionChoices: ChoiceTable :=
    [("hhohho", "Hhohho"), ("manzini", "Manzini"), ("lubombo", "Lubombo"), ("shiselweni", "Shiselweni")]
  const CordonStatusChoices: ChoiceTable :=
    [("active", "Active"), ("inactive", "Inactive"), ("temporary", "Temporary")]
  const RoadTypeChoices: ChoiceTable :=
    [("highway", "Highway"), ("main_road", "Main Road"), ("secondary_road", "Secondary Road"),
     ("border_crossing", "Border Crossing")]

  // ---------------------------------------------------------------------------
  // Records
  // ---------------------------------------------------------------------------

  datatype Outbreak = Outbreak(
    id: int,
    title: string,
    description: string,
    status: string,
    region: string,
    latitude: MicroDegrees,
    longitude: MicroDegrees,
    locationName: string,
    animalsAffected: nat,
    animalsQuarantined: nat,
    dateReported: Timestamp,
    dateConfirmed: Option<Timestamp>,
    dateCleared: Option<Timestamp>,
    lastUpdated: Timestamp,
    source: string,
    isVerified: bool,
    isActive: bool)

  /**
    One stored vertex of a cordon line: the JSON object `{"lat": ..., "lng": ...}`, its two
    numbers held as micro-degrees (a vertex with more than six decimals is not modelled).
   */
  datatype LatLng = LatLng(lat: MicroDegrees, lng: MicroDegrees)

  datatype CordonLine = CordonLine(
    id: int,
    name: string,
    region: string,
    status: string,
    coordinates: seq<LatLng>,
    description: string,
    restrictions: string,
    dateEstablished: Timestamp,
    dateExpires: Option<Timestamp>,
    isActive: bool,
    createdAt: Timestamp,
    updatedAt: Timestamp)

  datatype FootWashStation = FootWashStation(
    id: int,
    name: string,
    region: string,
    roadName: string,
    roadType: string,
    latitude: MicroDegrees,
    longitude: MicroDegrees,
    instructions: string,
    operatingHours: string,
    contactPerson: string,
    contactPhone: string,
    isOperational: bool,
    lastMaintenance: Option<Timestamp>,
    isActive: bool,
    createdAt: Timestamp,
    updatedAt: Timestamp)

  datatype DipTank = DipTank(
    id: int,
    name: string,
    region: string,
    latitude: MicroDegrees,
    longitude: MicroDegrees,
    isAffected: bool,
    capacity: Option<nat>,
    lastInspection: Option<Timestamp>,
    notes: string,
    isActive: bool,
    createdAt: Timestamp,
    updatedAt: Timestamp)

  /** A new outbreak as the form creates it when only the required fields are given. */
  function NewOutbreak(id: int, title: string, description: string, region: string,
                       latitude: MicroDegrees, longitude: MicroDegrees, locationName: string,
                       now: Timestamp): (o: Outbreak)
    ensures o.status == "active" && !o.isVerified && o.isActive
    ensures o.animalsAffected == 0 && o.animalsQuarantined == 0
    ensures o.source == DefaultSource && o.dateReported == now
    ensures o.dateConfirmed == None && o.dateCleared == None
  {
    Outbreak(id, title, description, "active", region, latitude, longitude, locationName,
             0, 0, now, None, None, now, DefaultSource, false, true)
  }

  // ---------------------------------------------------------------------------
  // Display labels and __str__
  // ---------------------------------------------------------------------------

  lemma ChoiceTablesDistinct()
    ensures DistinctCodes(OutbreakStatusChoices) && DistinctCodes(RegionChoices)
    ensures DistinctCodes(CordonStatusChoices) && DistinctCodes(RoadTypeChoices)
  {
  }

  /** Every listed code shows its paired label; e.g. manzini is "Manzini". */
  lemma DisplayLabels()
    ensures Label(RegionChoices, "hhohho") == "Hhohho" && Label(RegionChoices, "manzini") == "Manzini"
    ensures Label(RegionChoices, "lubombo") == "Lubombo" && Label(RegionChoices, "shiselweni") == "Shiselweni"
    ensures Label(OutbreakStatusChoices, "active") == "Active Outbreak"
    ensures Label(OutbreakStatusChoices, "surveillance") == "Under Surveillance"
    ensures Label(OutbreakStatusChoices, "cleared") == "Cleared/Controlled"
    ensures Label(CordonStatusChoices, "active") == "Active" && Label(CordonStatusChoices, "inactive") == "Inactive"
    ensures Label(CordonStatusChoices, "temporary") == "Temporary"
    ensures Label(RoadTypeChoices, "highway") == "Highway" && Label(RoadTypeChoices, "main_road") == "Main Road"
    ensures Label(RoadTypeChoices, "secondary_road") == "Secondary Road"
    ensures Label(RoadTypeChoices, "border_crossing") == "Border Crossing"
  {
    ChoiceTablesDistinct();
    LabelOfListed(RegionChoices, 0);
    LabelOfListed(RegionChoices, 1);
    LabelOfListed(RegionChoices, 2);
    LabelOfListed(RegionChoices, 3);
    LabelOfListed(OutbreakStatusChoices, 0);
    LabelOfListed(OutbreakStatusChoices, 1);
    LabelOfListed(OutbreakStatusChoices, 2);
    LabelOfListed(CordonStatusChoices, 0);
    LabelOfListed(CordonStatusChoices, 1);
    LabelOfListed(CordonStatusChoices, 2);
    LabelOfListed(RoadTypeChoices, 0);
    LabelOfListed(RoadTypeChoices, 1);
    LabelOfListed(RoadTypeChoices, 2);
    LabelOfListed(RoadTypeChoices, 3);
  }

  /** `__str__`: the title, " - " and the status label. */
  function OutbreakStr(o: Outbreak): (r: string)
    ensures StartsWith(r, o.title + " - ")
    ensures EndsWith(r, Label(OutbreakStatusChoices, o.status))
    ensures |r| == |o.title| + 3 + |Label(OutbreakStatusChoices, o.status)|
  {
    o.title + " - " + Label(OutbreakStatusChoices, o.status)
  }

  /** `__str__`: the name, the region label in parentheses, " - " and the status label. */
  function CordonLineStr(c: CordonLine): (r: string)
    ensures StartsWith(r, c.name + " (" + Label(RegionChoices, c.region) + ") - ")
    ensures EndsWith(r, Label(CordonStatusChoices, c.status))
    ensures |r| == |c.name| + |Label(RegionChoices, c.region)| + 6 + |Label(CordonStatusChoices, c.status)|
  {
    c.name + " (" + Label(RegionChoices, c.region) + ") - " + Label(CordonStatusChoices, c.status)
  }

  /** `__str__`: the name, " - ", the road name and the region label in parentheses. */
  function FootWashStationStr(s: FootWashStation): (r: string)
    ensures StartsWith(r, s.name + " - " + s.roadName + " (")
    ensures EndsWith(r, Label(RegionChoices, s.region) + ")")
    ensures |r| == |s.name| + |s.roadName| + 6 + |Label(RegionChoices, s.region)|
  {
    s.name + " - " + s.roadName + " (" + Label(RegionChoices, s.region) + ")"
  }

  /** `__str__`: the name, the region label in parentheses, " - " and "Affected" or "Clear". */
  function DipTankStr(d: DipTank): (r: string)
    ensures StartsWith(r, d.name + " (" + Label(RegionChoices, d.region) + ") - ")
    ensures |r| == |d.name| + |Label(RegionChoices, d.region)| + 6 + (if d.isAffected then 8 else 5)
  {
    d.name + " (" + Label(RegionChoices, d.region) + ") - " + (if d.isAffected then "Affected" else "Clear")
  }

  /** A dip tank's text ends in "Affected" exactly when it is affected, and in "Clear" otherwise. */
  lemma DipTankStrStatus(d: DipTank)
    ensures EndsWith(DipTankStr(d), "Affected") <==> d.isAffected
    ensures EndsWith(DipTankStr(d), "Clear") <==> !d.isAffected
  {
    var s := DipTankStr(d);
    var head := d.name + " (" + Label(RegionChoices, d.region) + ") - ";
    if d.isAffected {
      assert s == head + "Affected";
      assert s[|s| - 5..] == "ected";
    } else {
      assert s == head + "Clear";
      assert |s| >= 8 ==> s[|s| - 1] == 'r';
    }
  }

  // ---------------------------------------------------------------------------
  // GeoJSON (RFC 7946)
  // ---------------------------------------------------------------------------

  /**
    A geometry object: a Point holds one position, a LineString a sequence of positions;
    a position is the array [longitude, latitude] (RFC 7946, section 3.1.1).
   */
  datatype Geometry =
    | Point(coordinates: seq<MicroDegrees>)
    | LineString(positions: seq<seq<MicroDegrees>>)
  {
    /** The `"type"` member of the geometry object. */
    function TypeName(): string
    {
      if Point? then "Point" else "LineString"
    }
  }

  /** An object with `"type": "Feature"`, its geometry and its properties bag. */
  datatype Feature<P> = Feature(geometry: Geometry, properties: P)

  /** An object with `"type": "FeatureCollection"` and its features in order. */
  datatype FeatureCollection<P> = FeatureCollection(features: seq<Feature<P>>)

  datatype OutbreakProperties = OutbreakProperties(
    id: int, title: string, description: string,
    status: string, statusDisplay: string, region: string, regionDisplay: string,
    locationName: string, animalsAffected: nat, animalsQuarantined: nat,
    dateReported: Timestamp, lastUpdated: Timestamp, source: string)

  datatype CordonLineProperties = CordonLineProperties(
    id: int, name: string, region: string, regionDisplay: string,
    status: string, statusDisplay: string, description: string, restrictions: string,
    dateEstablished: Timestamp, dateExpires: Option<Timestamp>)

  datatype FootWashStationProperties = FootWashStationProperties(
    id: int, name: string, region: string, regionDisplay: string,
    roadName: string, roadType: string, roadTypeDisplay: string,
    instructions: string, operatingHours: string, contactPerson: string, contactPhone: string,
    isOperational: bool, lastMaintenance: Option<Timestamp>)

  datatype DipTankProperties = DipTankProperties(
    id: int, name: string, region: string, regionDisplay: string,
    isAffected: bool, capacity: Option<nat>, lastInspection: Option<Timestamp>,
    notes: string, radius: int)

  /** The position of a point geometry read back as (latitude, longitude). */
  function PointLatLng(g: Geometry): Option<LatLng>
  {
    if g.Point? && |g.coordinates| == 2 then Some(LatLng(g.coordinates[1], g.coordinates[0])) else None
  }

  /** The stored `{lat, lng}` objects a LineString was drawn from, read back. */
  function LineStringLatLngs(g: Geometry): Option<seq<LatLng>>
    decreases if g.LineString? then |g.positions| else 0
  {
    if !g.LineString? then None
    else if g.positions == [] then Some([])
    else if |g.positions[0]| != 2 then None
    else
      match LineStringLatLngs(LineString(g.positions[1..]))
      case None => None
      case Some(rest) => Some([LatLng(g.positions[0][1], g.positions[0][0])] + rest)
  }

  /** RFC 7946, section 3.1.4: a LineString has two or more positions. */
  predicate RfcLineString(g: Geometry)
  {
    g.LineString? && |g.positions| >= 2 && forall i :: 0 <= i < |g.positions| ==> |g.positions[i]| >= 2
  }

  function OutbreakFeature(o: Outbreak): (f: Feature<OutbreakProperties>)
    ensures f.geometry.TypeName() == "Point"
    ensures f.geometry.coordinates == [o.longitude, o.latitude]
    ensures f.properties.id == o.id && f.properties.status == o.status && f.properties.region == o.region
    ensures f.properties.statusDisplay == Label(OutbreakStatusChoices, o.status)
    ensures f.properties.regionDisplay == Label(RegionChoices, o.region)
    ensures f.properties.title == o.title && f.properties.description == o.description
    ensures f.properties.locationName == o.locationName && f.properties.source == o.source
    ensures f.properties.animalsAffected == o.animalsAffected && f.properties.animalsQuarantined == o.animalsQuarantined
    ensures f.properties.dateReported == o.dateReported && f.properties.lastUpdated == o.lastUpdated
  {
    Feature(
      Point([o.longitude, o.latitude]),
      OutbreakProperties(
        o.id, o.title, o.description,
        o.status, Label(OutbreakStatusChoices, o.status), o.region, Label(RegionChoices, o.region),
        o.locationName, o.animalsAffected, o.animalsQuarantined,
        o.dateReported, o.lastUpdated, o.source))
  }

  /** Each stored `{lat, lng}` becomes the position `[lng, lat]`. */
  function Position(p: LatLng): seq<MicroDegrees>
  {
    [p.lng, p.lat]
  }

  /** `[[point["lng"], point["lat"]] for point in coordinates]`. */
  function Positions(ps: seq<LatLng>): (r: seq<seq<MicroDegrees>>)
    ensures |r| == |ps|
    ensures forall i :: 0 <= i < |ps| ==> r[i] == [ps[i].lng, ps[i].lat]
  {
    if ps == [] then [] else [Position(ps[0])] + Positions(ps[1..])
  }

  function CordonLineFeature(c: CordonLine): (f: Feature<CordonLineProperties>)
    ensures f.geometry.TypeName() == "LineString"
    ensures |f.geometry.positions| == |c.coordinates|
    ensures forall i :: 0 <= i < |c.coordinates| ==>
              f.geometry.positions[i] == [c.coordinates[i].lng, c.coordinates[i].lat]
    ensures f.properties.id == c.id && f.properties.region == c.region && f.properties.status == c.status
    ensures f.properties.regionDisplay == Label(RegionChoices, c.region)
    ensures f.properties.statusDisplay == Label(CordonStatusChoices, c.status)
    ensures f.properties.dateExpires == c.dateExpires
    ensures f.properties.name == c.name && f.properties.dateEstablished == c.dateEstablished
    ensures f.properties.description == c.description && f.properties.restrictions == c.restrictions
  {
    Feature(
      LineString(Positions(c.coordinates)),
      CordonLineProperties(
        c.id, c.name, c.region, Label(RegionChoices, c.region),
        c.status, Label(CordonStatusChoices, c.status), c.description, c.restrictions,
        c.dateEstablished, c.dateExpires))
  }

  function FootWashStationFeature(s: FootWashStation): (f: Feature<FootWashStationProperties>)
    ensures f.geometry.TypeName() == "Point"
    ensures f.geometry.coordinates == [s.longitude, s.latitude]
    ensures f.properties.id == s.id && f.properties.region == s.region && f.properties.roadType == s.roadType
    ensures f.properties.regionDisplay == Label(RegionChoices, s.region)
    ensures f.properties.roadTypeDisplay == Label(RoadTypeChoices, s.roadType)
    ensures f.properties.lastMaintenance == s.lastMaintenance
    ensures f.properties.name == s.name && f.properties.roadName == s.roadName
    ensures f.properties.isOperational == s.isOperational && f.properties.instructions == s.instructions
    ensures f.properties.operatingHours == s.operatingHours
    ensures f.properties.contactPerson == s.contactPerson && f.properties.contactPhone == s.contactPhone
  {
    Feature(
      Point([s.longitude, s.latitude]),
      FootWashStationProperties(
        s.id, s.name, s.region, Label(RegionChoices, s.region),
        s.roadName, s.roadType, Label(RoadTypeChoices, s.roadType),
        s.instructions, s.operatingHours, s.contactPerson, s.contactPhone,
        s.isOperational, s.lastMaintenance))
  }

  function DipTankFeature(d: DipTank): (f: Feature<DipTankProperties>)
    ensures f.geometry.TypeName() == "Point"
    ensures f.geometry.coordinates == [d.longitude, d.latitude]
    ensures f.properties.id == d.id && f.properties.region == d.region && f.properties.isAffected == d.isAffected
    ensures f.properties.regionDisplay == Label(RegionChoices, d.region)
    ensures f.properties.radius == 5000
    ensures f.properties.lastInspection == d.lastInspection
    ensures f.properties.name == d.name && f.properties.capacity == d.capacity && f.properties.notes == d.notes
  {
    Feature(
      Point([d.longitude, d.latitude]),
      DipTankProperties(
        d.id, d.name, d.region, Label(RegionChoices, d.region),
        d.isAffected, d.capacity, d.lastInspection, d.notes, DipTankRadius))
  }

  /**
    Reading the position of a point feature back gives the stored latitude and
    longitude: the projection swaps them into GeoJSON order and loses neither.
   */
  lemma PointFeaturesRoundTrip(o: Outbreak, s: FootWashStation, d: DipTank)
    ensures PointLatLng(OutbreakFeature(o).geometry) == Some(LatLng(o.latitude, o.longitude))
    ensures PointLatLng(FootWashStationFeature(s).geometry) == Some(LatLng(s.latitude, s.longitude))
    ensures PointLatLng(DipTankFeature(d).geometry) == Some(LatLng(d.latitude, d.longitude))
  {
  }

  /**
    Reading a cordon line's LineString back gives exactly the stored vertices, in the
    stored order: each is swapped into `[lng, lat]` and none is dropped or reordered.
   */
  lemma {:induction false} CordonLineRoundTrip(c: CordonLine)
    ensures LineStringLatLngs(CordonLineFeature(c).geometry) == Some(c.coordinates)
  {
    PositionsRoundTrip(c.coordinates);
  }

  lemma {:induction false} PositionsRoundTrip(ps: seq<LatLng>)
    ensures LineStringLatLngs(LineString(Positions(ps))) == Some(ps)
  {
    if ps != [] {
      PositionsRoundTrip(ps[1..]);
      assert Positions(ps)[1..] == Positions(ps[1..]);
      assert ps == [ps[0]] + ps[1..];
    }
  }

  /**
    No length check guards the projection: the LineString is a valid RFC 7946 line
    exactly when at least two vertices are stored, so a cordon line with 0 or 1 stored
    vertices is emitted as a LineString the standard does not allow.
   */
  lemma CordonLineRfcValidity(c: CordonLine)
    ensures RfcLineString(CordonLineFeature(c).geometry) <==> |c.coordinates| >= 2
  {
    var g := CordonLineFeature(c).geometry;
    assert forall i :: 0 <= i < |g.positions| ==> |g.positions[i]| == 2;
  }

  /** Optional timestamps appear as `null` exactly when the stored value is absent. */
  lemma OptionalTimestampsNull(c: CordonLine, s: FootWashStation, d: DipTank)
    ensures CordonLineFeature(c).properties.dateExpires.None? <==> c.dateExpires.None?
    ensures FootWashStationFeature(s).properties.lastMaintenance == s.lastMaintenance
    ensures DipTankFeature(d).properties.lastInspection == d.lastInspection
  {
  }
}
