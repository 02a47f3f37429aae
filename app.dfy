/** The client's state holder: the overlay slot on the map, the point-analysis slot, the busy
    flag and the readiness status, with one method per handler of the component. Each handler
    runs as one step: the awaited response is a parameter, so the method covers the whole
    handler from its first statement to its `finally` block. */
module NightMap {
  import opened Wrappers
  import opened Decimal
  import opened TileUrl
  import opened Readiness

  // ---------------------------------------------------------------------------
  // Values
  // ---------------------------------------------------------------------------

  /** An `ImageMapType` overlay: its tile template (read by `getTileUrl`), its name and its
      tile size. */
  datatype Layer = Layer(template: string, name: string, tileWidth: nat, tileHeight: nat)

  const TileSize: nat := 256

  /** The overlay's `getTileUrl(coord, zoom)`. With one `{z}`, one `{x}` and one `{y}` in the
      template, the address is the template with every placeholder replaced by its number. */
  function TileAddress(layer: Layer, coord: TileCoord, zoom: int): (r: string)
    ensures WellFormed(layer.template) ==> r == Expand(layer.template, coord, zoom)
    ensures WellFormed(layer.template) ==>
              Count(r, ZoomKey) == 0 && Count(r, ColumnKey) == 0 && Count(r, RowKey) == 0
  {
    if WellFormed(layer.template) then
      ResolveWellFormed(layer.template, coord, zoom);
      Resolve(layer.template, coord, zoom)
    else
      Resolve(layer.template, coord, zoom)
  }

  /** Body of a `/api/compare-years` response and of its request. */
  datatype CompareResponse = CompareResponse(tileUrlTemplate: string, comparison: string)
  datatype CompareYears = CompareYears(year1: string, year2: string)

  datatype GeoPoint = GeoPoint(lat: real, lng: real)
  datatype Stats = Stats(mean: real, min: real, max: real)
  datatype Sample = Sample(date: string, value: real)

  /** Body of a `/api/point-analysis` response; statistics and time series may be absent. */
  datatype PointAnalysis = PointAnalysis(location: GeoPoint, period: string, totalObservations: int,
                                         statistics: Option<Stats>, timeSeries: Option<seq<Sample>>)

  /** Body of a `/api/point-analysis` request. */
  datatype PointQuery = PointQuery(lat: real, lng: real, startYear: int, endYear: int)

  /** A map marker and whether it was given a map to appear on. */
  datatype Marker = Marker(position: GeoPoint, onMap: bool)

  const NightLightsPrefix: string := "/api/night-lights/"
  const LoadFailedText: string := "Failed to load night lights: "
  const CompareFailedText: string := "Failed to load comparison: "
  const AnalysisFailedText: string := "Failed to analyze point: "

  /** The years the selectors offer, newest first. */
  function YearOptions(): (r: seq<int>)
    ensures |r| == 12 && r[0] == 2023 && r[|r| - 1] == 2012
  {
    seq(12, i => 2023 - i)
  }

  /** The selectors offer exactly the years 2012 to 2023, each once, newest first. */
  lemma YearOptionsRange(y: int)
    ensures y in YearOptions() <==> 2012 <= y <= 2023
    ensures |YearOptions()| == 12 && YearOptions()[0] == 2023
    ensures forall i, j :: 0 <= i < j < |YearOptions()| ==> YearOptions()[i] > YearOptions()[j]
  {
    if 2012 <= y <= 2023 {
      assert YearOptions()[2023 - y] == y;
    }
  }

  /** `time_series.slice(-6)`: the panel lists the last six samples, or all of them when there
      are fewer. */
  function RecentValues(series: seq<Sample>): (r: seq<Sample>)
    ensures |r| == if |series| < 6 then |series| else 6
    ensures r == series[|series| - |r|..]
  {
    if |series| <= 6 then series else series[|series| - 6..]
  }

  /** `map.overlayMapTypes.removeAt(i)`: removes the element at `i`, and does nothing when there
      is none. */
  function RemoveAt<T>(s: seq<T>, i: nat): (r: seq<T>)
    ensures i < |s| ==> |r| == |s| - 1
    ensures i < |s| ==> forall k :: 0 <= k < |r| ==> r[k] == if k < i then s[k] else s[k + 1]
    ensures i >= |s| ==> r == s
  {
    if i < |s| then s[..i] + s[i + 1..] else s
  }

  // ---------------------------------------------------------------------------
  // The component's state
  // ---------------------------------------------------------------------------

  class App {
    /** `map != null` */
    var hasMap: bool
    /** Whether the `map` binding the click handler closed over is a map; it is the binding of
        the render that created the map, so it stays null. */
    var handlerMap: bool
    /** `map.overlayMapTypes` */
    var overlays: seq<Layer>
    var currentLayer: Option<Layer>
    var loading: bool
    var selectedYear: string
    var compareYears: CompareYears
    var pointData: Option<PointAnalysis>
    var backendStatus: Status
    /** Markers created by point analyses, oldest first. */
    var markers: seq<Marker>

    /** At most one overlay is mounted: one exactly when a current layer is set, and it is
        that layer. */
    ghost predicate OneOverlay()
      reads this
    {
      && |overlays| == (if currentLayer.Some? then 1 else 0)
      && (currentLayer.Some? ==> overlays[0] == currentLayer.value)
    }

    /** Between two handler steps: one overlay is mounted exactly when a current layer is set,
        and it is that layer; a map exists exactly in the ready state; no request is pending. */
    ghost predicate Valid()
      reads this
    {
      && OneOverlay()
      && (hasMap <==> backendStatus == Ready)
      && (!hasMap ==> currentLayer.None? && markers == [])
      && !loading
    }

    /** The state on first render. */
    constructor ()
      ensures Valid()
      ensures !hasMap && overlays == [] && currentLayer == None && !loading
      ensures selectedYear == "2023" && compareYears == CompareYears("2020", "2023")
      ensures pointData == None && backendStatus == Checking && markers == []
    {
      hasMap, handlerMap := false, false;
      overlays, currentLayer, loading := [], None, false;
      selectedYear, compareYears := "2023", CompareYears("2020", "2023");
      pointData, backendStatus, markers := None, Checking, [];
    }

    /** `checkBackendHealth`, followed by the effect on `backendStatus`, which creates the map
        when the status has become ready. It runs on mount and from the retry button of the
        error screen, so never in the ready state. */
    method CheckBackendHealth(response: Fetch<bool>)
      requires Valid() && backendStatus != Ready
      modifies this`backendStatus, this`hasMap, this`handlerMap
      ensures Valid()
      ensures backendStatus == HealthStatus(response)
      ensures hasMap <==> response.Ok? && response.value
      ensures hasMap ==> !handlerMap
      ensures !hasMap ==> handlerMap == old(handlerMap)
    {
      var before := backendStatus;
      backendStatus := HealthStatus(response);
      if CreatesMap(before, backendStatus) {
        CreateMap();
      }
    }

    /** `createMap`: the click listener keeps the `analyzePoint` of the render in which the
        effect ran, and that render's `map` binding is null. `setMap` starts a new render but
        does not change the binding the listener closed over, so the handler's map is null
        whatever the order of the two statements. */
    method CreateMap()
      requires !hasMap
      modifies this`hasMap, this`handlerMap
      ensures hasMap && !handlerMap
    {
      handlerMap := false;
      hasMap := true;
    }

    /** The year selector's `onChange`: the option's value is the year's decimal text. */
    method SelectYear(year: int)
      requires year in YearOptions()
      modifies this`selectedYear
      ensures selectedYear == NumberString(year)
    {
      selectedYear := NumberString(year);
    }

    /** The two comparison selectors' `onChange`. */
    method SelectCompareYears(first: Option<int>, second: Option<int>)
      requires first.Some? ==> first.value in YearOptions()
      requires second.Some? ==> second.value in YearOptions()
      modifies this`compareYears
      ensures compareYears.year1 == if first.Some? then NumberString(first.value) else old(compareYears.year1)
      ensures compareYears.year2 == if second.Some? then NumberString(second.value) else old(compareYears.year2)
    {
      var y1 := if first.Some? then NumberString(first.value) else compareYears.year1;
      var y2 := if second.Some? then NumberString(second.value) else compareYears.year2;
      compareYears := CompareYears(y1, y2);
    }

    /** Replaces the mounted overlay, if any, by `layer`, in the order the handlers use:
        remove index 0 if a layer is current, then push. */
    method Mount(layer: Layer)
      requires OneOverlay()
      modifies this`overlays, this`currentLayer
      ensures OneOverlay()
      ensures overlays == [layer] && currentLayer == Some(layer)
    {
      if currentLayer.Some? {
        overlays := RemoveAt(overlays, 0);
      }
      overlays := overlays + [layer];
      currentLayer := Some(layer);
    }

    /** `loadNightLights`: without a map nothing happens. Otherwise the overlay for the selected
        year replaces the mounted one when the request succeeds; when it fails the mounted overlay
        stays and an alert is shown. Returns the path requested (after `API_BASE`) and the alert. */
    method LoadNightLights(response: Fetch<string>) returns (path: Option<string>, alert: Option<string>)
      requires Valid()
      modifies this`overlays, this`currentLayer, this`loading
      ensures Valid()
      ensures path == if hasMap then Some(NightLightsPrefix + selectedYear) else None
      ensures hasMap && response.Ok? ==>
                overlays == [Layer(response.value, "Night Lights " + selectedYear, TileSize, TileSize)] &&
                currentLayer == Some(overlays[0])
      ensures !hasMap || response.Err? ==> overlays == old(overlays) && currentLayer == old(currentLayer)
      ensures alert == if hasMap && response.Err? then Some(LoadFailedText + response.message) else None
    {
      if !hasMap {
        return None, None;
      }
      loading := true;
      path := Some(NightLightsPrefix + selectedYear);
      match response {
        case Ok(template) =>
          Mount(Layer(template, "Night Lights " + selectedYear, TileSize, TileSize));
          alert := None;
        case Err(message) =>
          alert := Some(LoadFailedText + message);
      }
      loading := false;
    }

    /** `loadComparison`: the same, posting the two selected years and naming the overlay with the
        server's comparison label. */
    method LoadComparison(response: Fetch<CompareResponse>) returns (body: Option<CompareYears>, alert: Option<string>)
      requires Valid()
      modifies this`overlays, this`currentLayer, this`loading
      ensures Valid()
      ensures body == if hasMap then Some(compareYears) else None
      ensures hasMap && response.Ok? ==>
                overlays == [Layer(response.value.tileUrlTemplate, response.value.comparison, TileSize, TileSize)] &&
                currentLayer == Some(overlays[0])
      ensures !hasMap || response.Err? ==> overlays == old(overlays) && currentLayer == old(currentLayer)
      ensures alert == if hasMap && response.Err? then Some(CompareFailedText + response.message) else None
    {
      if !hasMap {
        return None, None;
      }
      loading := true;
      body := Some(compareYears);
      match response {
        case Ok(data) =>
          Mount(Layer(data.tileUrlTemplate, data.comparison, TileSize, TileSize));
          alert := None;
        case Err(message) =>
          alert := Some(CompareFailedText + message);
      }
      loading := false;
    }

    /** `clearLayers`: unmounts the current overlay; without a map or a current layer nothing
        changes. */
    method ClearLayers()
      requires Valid()
      modifies this`overlays, this`currentLayer
      ensures Valid()
      ensures overlays == [] && currentLayer == None
      ensures old(currentLayer) == None ==> overlays == old(overlays)
    {
      if hasMap && currentLayer.Some? {
        overlays := RemoveAt(overlays, 0);
        currentLayer := None;
      }
    }

    /** The common part of `analyzePoint`: the request body is the clicked point and the fixed
        window 2020 to 2023; on success the response becomes `pointData` and a
        marker is created at the point, attached to the map when `attach` holds; on failure
        `pointData` and the markers stay and an alert is shown. No sequence number is kept: the
        response handled last is the one shown. */
    method BindAnalysis(p: GeoPoint, response: Fetch<PointAnalysis>, attach: bool)
      returns (query: PointQuery, alert: Option<string>)
      requires Valid() && hasMap
      modifies this`pointData, this`markers, this`loading
      ensures Valid()
      ensures query == PointQuery(p.lat, p.lng, 2020, 2023)
      ensures pointData == if response.Ok? then Some(response.value) else old(pointData)
      ensures markers == if response.Ok? then old(markers) + [Marker(p, attach)] else old(markers)
      ensures alert == if response.Err? then Some(AnalysisFailedText + response.message) else None
    {
      loading := true;
      query := PointQuery(p.lat, p.lng, 2020, 2023);
      match response {
        case Ok(data) =>
          pointData := Some(data);
          markers := markers + [Marker(p, attach)];
          alert := None;
        case Err(message) =>
          alert := Some(AnalysisFailedText + message);
      }
      loading := false;
    }

    /** `analyzePoint` as the map's click listener runs it: the marker receives the `map` the
        handler closed over, which is null, so it is not shown. */
    method AnalyzePointAsWritten(p: GeoPoint, response: Fetch<PointAnalysis>)
      returns (query: PointQuery, alert: Option<string>)
      requires Valid() && hasMap
      modifies this`pointData, this`markers, this`loading
      ensures Valid()
      ensures query == PointQuery(p.lat, p.lng, 2020, 2023)
      ensures pointData == if response.Ok? then Some(response.value) else old(pointData)
      ensures markers == if response.Ok? then old(markers) + [Marker(p, handlerMap)] else old(markers)
      ensures alert == if response.Err? then Some(AnalysisFailedText + response.message) else None
    {
      query, alert := BindAnalysis(p, response, handlerMap);
    }

    /** `analyzePoint` with the marker placed on the current map. The click listener exists only
        once the map does. */
    method AnalyzePoint(p: GeoPoint, response: Fetch<PointAnalysis>)
      returns (query: PointQuery, alert: Option<string>)
      requires Valid() && hasMap
      modifies this`pointData, this`markers, this`loading
      ensures Valid()
      ensures query == PointQuery(p.lat, p.lng, 2020, 2023)
      ensures pointData == if response.Ok? then Some(response.value) else old(pointData)
      ensures markers == if response.Ok? then old(markers) + [Marker(p, true)] else old(markers)
      ensures alert == if response.Err? then Some(AnalysisFailedText + response.message) else None
    {
      query, alert := BindAnalysis(p, response, hasMap);
    }

    /** The analysis panel's close button. */
    method DismissAnalysis()
      requires Valid()
      modifies this`pointData
      ensures Valid() && pointData == None
    {
      pointData := None;
    }
  }
}
