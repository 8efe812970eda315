/** The fields of a point of interest that the modelled rules read or write (POITypes.ts). */
module PoiTypes {
  import opened Wrappers

  /** A milliseconds-since-epoch instant; ISO date strings are represented by the instant they denote. */
  type Instant = int

  const DayMs: int := 24 * 60 * 60 * 1000

  /** A latitude/longitude pair. */
  datatype Point = Point(lat: real, lon: real)

  /** A bounding box given as (minLon, minLat, maxLon, maxLat). */
  datatype Bounds = Bounds(minLon: real, minLat: real, maxLon: real, maxLat: real)

  /** The centre of a box, as the mock fetchers compute it. */
  function Center(b: Bounds): (c: Point)
    ensures b.minLat <= b.maxLat ==> b.minLat <= c.lat <= b.maxLat
    ensures b.minLon <= b.maxLon ==> b.minLon <= c.lon <= b.maxLon
  {
    Point((b.minLat + b.maxLat) / 2.0, (b.minLon + b.maxLon) / 2.0)
  }

  /** A local wall-clock time: a calendar day number and an hour of that day. */
  datatype Moment = Moment(day: int, hour: int)

  datatype SafetyWarning = SafetyWarning(kind: string, severity: string, active: bool)

  /** The `properties` object of a POI, restricted to the keys the rules consult. */
  datatype Properties = Properties(
    safetyWarning: Option<SafetyWarning>,
    lastVerified: Option<Instant>,
    isActive: Option<bool>)

  /**
   * A POI. `category`, `subcategory`, `source` and the coordinates are required in the source type;
   * the `Option` fields are the optional top-level fields that the object spread in the merge rule
   * copies only when present.
   */
  datatype Poi = Poi(
    id: string,
    category: string,
    subcategory: string,
    latitude: real,
    longitude: real,
    source: string,
    properties: Properties,
    elevation: Option<int>,
    temporaryEvent: Option<bool>,
    eventStart: Option<Moment>,
    eventEnd: Option<Moment>,
    isActive: Option<bool>,
    distance: Option<real>)

  /** A POI as the mock fetchers build it: no optional top-level field other than the elevation. */
  function MockPoi(id: string, category: string, subcategory: string, at: Point, elevation: int,
                   source: string, properties: Properties): (p: Poi)
    ensures p.id == id && p.category == category && p.subcategory == subcategory && p.source == source
    ensures p.latitude == at.lat && p.longitude == at.lon && p.properties == properties
  {
    Poi(id, category, subcategory, at.lat, at.lon, source, properties, Some(elevation), None, None, None, None, None)
  }

  /** `poi.properties.safetyWarning && poi.properties.safetyWarning.active` */
  predicate HasActiveWarning(p: Poi)
  {
    p.properties.safetyWarning.Some? && p.properties.safetyWarning.value.active
  }

  /** A warning with the given kind and severity that is active, as most mock warnings are. */
  function ActiveWarning(kind: string, severity: string): SafetyWarning
  {
    SafetyWarning(kind, severity, true)
  }
}
