/** Sessions of the client written against the state holder's contracts alone: what a user
    sees after a short sequence of actions, from the first render on. */
module Sessions {
  import opened Wrappers
  import opened Decimal
  import opened Readiness
  import opened NightMap

  /** First render, then a health check that finds the backend and Earth Engine ready. */
  method StartReady() returns (app: App)
    ensures fresh(app) && app.Valid() && app.hasMap && app.backendStatus == Ready
    ensures app.overlays == [] && app.currentLayer == None && app.pointData == None
    ensures app.markers == [] && !app.handlerMap && app.selectedYear == "2023"
  {
    app := new App();
    app.CheckBackendHealth(Ok(true));
  }

  /** Loading a year and then clearing: the year's overlay is mounted alone, then nothing is. */
  method LoadThenClear(year: int, template: string) returns (afterLoad: seq<Layer>, afterClear: seq<Layer>, current: Option<Layer>)
    requires year in YearOptions()
    ensures afterLoad == [Layer(template, "Night Lights " + NumberString(year), 256, 256)]
    ensures afterClear == [] && current == None
  {
    var app := StartReady();
    app.SelectYear(year);
    var path, alert := app.LoadNightLights(Ok(template));
    afterLoad := app.overlays;
    app.ClearLayers();
    afterClear, current := app.overlays, app.currentLayer;
  }

  /** Two loads in a row: the second overlay replaces the first, so one overlay stays mounted. */
  method LoadTwice(first: string, second: CompareResponse) returns (mounted: seq<Layer>)
    ensures mounted == [Layer(second.tileUrlTemplate, second.comparison, 256, 256)]
  {
    var app := StartReady();
    var path, alert := app.LoadNightLights(Ok(first));
    var body, alert2 := app.LoadComparison(Ok(second));
    mounted := app.overlays;
  }

  /** A failed load after a successful one leaves the earlier overlay mounted and alerts. */
  method FailedLoadKeepsOverlay(template: string, message: string) returns (mounted: seq<Layer>, alert: Option<string>)
    ensures mounted == [Layer(template, "Night Lights 2023", 256, 256)]
    ensures alert == Some("Failed to load night lights: " + message)
  {
    var app := StartReady();
    var path, first := app.LoadNightLights(Ok(template));
    assert "Night Lights " + app.selectedYear == "Night Lights 2023";
    var path2;
    path2, alert := app.LoadNightLights(Err(message));
    mounted := app.overlays;
  }

  /** Without a ready backend there is no map, and loading does nothing: no request is sent and
      no overlay is mounted. */
  method LoadWithoutReadyBackend(health: Fetch<bool>, template: string) returns (path: Option<string>, mounted: seq<Layer>)
    requires !(health.Ok? && health.value)
    ensures path == None && mounted == []
  {
    var app := new App();
    app.CheckBackendHealth(health);
    var alert;
    path, alert := app.LoadNightLights(Ok(template));
    mounted := app.overlays;
  }

  /** Two analyses completing one after the other: the one handled last is shown, whichever
      click came first. */
  method LastCompletedWins(p: GeoPoint, q: GeoPoint, earlier: PointAnalysis, later: PointAnalysis)
    returns (shown: Option<PointAnalysis>)
    ensures shown == Some(later)
  {
    var app := StartReady();
    var query1, alert1 := app.AnalyzePoint(p, Ok(earlier));
    var query2, alert2 := app.AnalyzePoint(q, Ok(later));
    shown := app.pointData;
  }

  /** A failed analysis keeps the result already shown and adds no marker; dismissing then
      hides it. */
  method FailedAnalysisKeepsResult(p: GeoPoint, q: GeoPoint, result: PointAnalysis, message: string)
    returns (afterFailure: Option<PointAnalysis>, markerCount: nat, afterDismiss: Option<PointAnalysis>)
    ensures afterFailure == Some(result) && markerCount == 1 && afterDismiss == None
  {
    var app := StartReady();
    var query1, alert1 := app.AnalyzePoint(p, Ok(result));
    var query2, alert2 := app.AnalyzePoint(q, Err(message));
    afterFailure, markerCount := app.pointData, |app.markers|;
    app.DismissAnalysis();
    afterDismiss := app.pointData;
  }

  /** As written, the first successful click after start-up creates a marker with no map, so
      the marker is never shown. */
  method ClickAfterStartupAsWritten(p: GeoPoint, result: PointAnalysis) returns (marker: Marker)
    ensures marker.position == p && !marker.onMap
  {
    var app := StartReady();
    var query, alert := app.AnalyzePointAsWritten(p, Ok(result));
    marker := app.markers[|app.markers| - 1];
  }

  /** With the marker placed on the current map, the click's marker is shown. */
  method ClickAfterStartup(p: GeoPoint, result: PointAnalysis) returns (marker: Marker)
    ensures marker.position == p && marker.onMap
  {
    var app := StartReady();
    var query, alert := app.AnalyzePoint(p, Ok(result));
    marker := app.markers[|app.markers| - 1];
  }
}
