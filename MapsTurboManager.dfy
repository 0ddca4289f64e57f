/**
 * The singleton map manager: it holds the one map controller and turns the
 * JavaScript map commands (camera changes, bounds fitting, snapshots) into
 * controller calls.
 *
 * The merging of a partial camera with the current one, the zoom fallback,
 * the bounding box and the snapshot option normalisation are functions; the
 * manager's methods apply them to the controller they hold.
 */
module TurboManager {
  import opened Wrappers
  import opened Js
  import opened SharedTypes
  import opened MapKit

  /** The camera object callers hand to setCamera and animateCamera: any field may be missing. */
  datatype CameraPatch = CameraPatch(center: Option<LatLng>, heading: Option<real>, pitch: Option<real>, zoom: Option<real>)

  /** A full camera passed back in as a partial one (its altitude is never read). */
  function PatchOf(c: Camera): CameraPatch {
    CameraPatch(Some(c.center), Some(c.heading), Some(c.pitch), Some(c.zoom))
  }

  // ---------------------------------------------------------------------------
  // Camera
  // ---------------------------------------------------------------------------

  /** The requested zoom, or DEFAULT_ZOOM when it is missing or 0. */
  function GetCameraZoom(zoom: Option<real>): (r: real)
    ensures r != 0.0
    ensures zoom.Some? && zoom.value != 0.0 ==> r == zoom.value
    ensures zoom == None || zoom == Some(0.0) ==> r == DEFAULT_ZOOM
  {
    if Truthy(zoom) then zoom.value else DEFAULT_ZOOM
  }

  /** The shared default zoom is 12, and it is what a missing zoom falls back to. */
  lemma DefaultZoomIsTwelve()
    ensures DEFAULT_ZOOM == 12.0
    ensures GetCameraZoom(None) == 12.0 && GetCameraZoom(Some(0.0)) == 12.0
  {
  }

  /** Feeding the fallback zoom back in changes nothing. */
  lemma GetCameraZoomIdempotent(zoom: Option<real>)
    ensures GetCameraZoom(Some(GetCameraZoom(zoom))) == GetCameraZoom(zoom)
  {
  }

  /** The camera getCamera reports for a vendor camera: bearing becomes heading, tilt becomes pitch, altitude is 0. */
  function CameraOf(p: CameraPosition): Camera {
    Camera(Some(0.0), LatLng(p.target.latitude, p.target.longitude), p.bearing, p.tilt, p.zoom)
  }

  /**
   * The camera setCamera installs. The centre replaces the target when given;
   * the zoom is merged with `||`, so 0 keeps the current zoom; pitch and
   * heading are merged with `??`, so 0 is applied.
   */
  function SetCameraPosition(current: CameraPosition, camera: CameraPatch): (p: CameraPosition)
    ensures camera.center == None ==> p.target == current.target
    ensures camera.center.Some? ==> p.target == camera.center.value
    ensures camera.zoom == None || camera.zoom == Some(0.0) ==> p.zoom == current.zoom
    ensures camera.zoom.Some? && camera.zoom.value != 0.0 ==> p.zoom == camera.zoom.value
    ensures camera.pitch == None ==> p.tilt == current.tilt
    ensures camera.pitch.Some? ==> p.tilt == camera.pitch.value
    ensures camera.heading == None ==> p.bearing == current.bearing
    ensures camera.heading.Some? ==> p.bearing == camera.heading.value
  {
    var target :=
      if camera.center.Some? then LatLng(camera.center.value.latitude, camera.center.value.longitude)
      else current.target;
    CameraPosition(target, Or(camera.zoom, current.zoom), Coalesce(camera.pitch, current.tilt), Coalesce(camera.heading, current.bearing))
  }

  /** Setting the camera to the one getCamera reports leaves the camera where it is, for every zoom including 0. */
  lemma SetCameraRoundTrip(p: CameraPosition)
    ensures SetCameraPosition(p, PatchOf(CameraOf(p))) == p
  {
  }

  /** Applying the same partial camera twice is the same as applying it once. */
  lemma SetCameraIdempotent(current: CameraPosition, camera: CameraPatch)
    ensures SetCameraPosition(SetCameraPosition(current, camera), camera) == SetCameraPosition(current, camera)
  {
  }

  /** Zoom 0 is ignored, while pitch 0 and heading 0 are applied. */
  lemma SetCameraZeroes(current: CameraPosition)
    ensures SetCameraPosition(current, CameraPatch(None, Some(0.0), Some(0.0), Some(0.0)))
         == CameraPosition(current.target, current.zoom, 0.0, 0.0)
  {
  }

  /**
   * The camera animateCamera installs. The centre is read unconditionally, so
   * it is required. The zoom is `camera.zoom || current.zoom`, passed through
   * GetCameraZoom, so it is never 0.
   */
  function AnimateCameraPosition(current: CameraPosition, camera: CameraPatch): (p: CameraPosition)
    requires camera.center.Some?
    ensures p.target == camera.center.value
    ensures p.zoom != 0.0
    ensures Truthy(camera.zoom) ==> p.zoom == camera.zoom.value
    ensures !Truthy(camera.zoom) && current.zoom != 0.0 ==> p.zoom == current.zoom
    ensures !Truthy(camera.zoom) && current.zoom == 0.0 ==> p.zoom == DEFAULT_ZOOM
    ensures p.tilt == (if camera.pitch.Some? then camera.pitch.value else current.tilt)
    ensures p.bearing == (if camera.heading.Some? then camera.heading.value else current.bearing)
  {
    CameraPosition(
      LatLng(camera.center.value.latitude, camera.center.value.longitude),
      GetCameraZoom(Some(Or(camera.zoom, current.zoom))),
      Coalesce(camera.pitch, current.tilt),
      Coalesce(camera.heading, current.bearing))
  }

  /** animateCamera and setCamera install the same camera exactly when some zoom in play is non-zero. */
  lemma AnimateCameraAgreesWithSetCamera(current: CameraPosition, camera: CameraPatch)
    requires camera.center.Some?
    ensures AnimateCameraPosition(current, camera) == SetCameraPosition(current, camera)
        <==> Truthy(camera.zoom) || current.zoom != 0.0
  {
    if !Truthy(camera.zoom) && current.zoom == 0.0 {
      assert AnimateCameraPosition(current, camera).zoom == DEFAULT_ZOOM;
      assert SetCameraPosition(current, camera).zoom == 0.0;
    }
  }

  /**
   * The camera animateToRegion installs: the region's centre as target, the
   * current zoom (the vendor's zoom is always present, so the `??` fallback
   * never applies), tilt and bearing.
   */
  function RegionPosition(current: CameraPosition, region: Region): (p: CameraPosition)
    ensures p.target == LatLng(region.latitude, region.longitude)
    ensures p.zoom == current.zoom && p.tilt == current.tilt && p.bearing == current.bearing
  {
    CameraPosition(
      LatLng(region.latitude, region.longitude),
      Coalesce(Some(current.zoom), GetCameraZoom(None)),
      current.tilt,
      current.bearing)
  }

  /** animateToRegion is setCamera with only a centre (the animation aside). */
  lemma AnimateToRegionOnlyRecentres(current: CameraPosition, region: Region)
    ensures RegionPosition(current, region)
         == SetCameraPosition(current, CameraPatch(Some(LatLng(region.latitude, region.longitude)), None, None, None))
  {
  }

  /** The region's deltas have no effect. */
  lemma AnimateToRegionIgnoresDeltas(current: CameraPosition, region: Region, latitudeDelta: Option<real>, longitudeDelta: Option<real>)
    ensures RegionPosition(current, region.(latitudeDelta := latitudeDelta, longitudeDelta := longitudeDelta))
         == RegionPosition(current, region)
  {
  }

  // ---------------------------------------------------------------------------
  // Bounding box
  // ---------------------------------------------------------------------------

  function Latitudes(coordinates: seq<LatLng>): seq<real> {
    seq(|coordinates|, i requires 0 <= i < |coordinates| => coordinates[i].latitude)
  }

  function Longitudes(coordinates: seq<LatLng>): seq<real> {
    seq(|coordinates|, i requires 0 <= i < |coordinates| => coordinates[i].longitude)
  }

  /** `Math.max(...xs)` on a non-empty list. */
  function MaxOf(xs: seq<real>): (m: real)
    requires |xs| > 0
    ensures m in xs
    ensures forall i | 0 <= i < |xs| :: xs[i] <= m
  {
    if |xs| == 1 then xs[0]
    else
      var rest := MaxOf(xs[1..]);
      assert forall i | 1 <= i < |xs| :: xs[i] == xs[1..][i - 1];
      if xs[0] >= rest then xs[0] else rest
  }

  /** `Math.min(...xs)` on a non-empty list. */
  function MinOf(xs: seq<real>): (m: real)
    requires |xs| > 0
    ensures m in xs
    ensures forall i | 0 <= i < |xs| :: m <= xs[i]
  {
    if |xs| == 1 then xs[0]
    else
      var rest := MinOf(xs[1..]);
      assert forall i | 1 <= i < |xs| :: xs[i] == xs[1..][i - 1];
      if xs[0] <= rest then xs[0] else rest
  }

  predicate InBounds(b: LatLngBounds, c: LatLng) {
    && b.southwest.latitude <= c.latitude <= b.northeast.latitude
    && b.southwest.longitude <= c.longitude <= b.northeast.longitude
  }

  /**
   * The bounds fitToCoordinates requests: north-east is (max latitude, max
   * longitude), south-west is (min latitude, min longitude). Every coordinate
   * lies inside, and each of the four edges touches some coordinate.
   */
  function BoundsOf(coordinates: seq<LatLng>): (b: LatLngBounds)
    requires |coordinates| > 0
    ensures forall i | 0 <= i < |coordinates| :: InBounds(b, coordinates[i])
    ensures b.southwest.latitude <= b.northeast.latitude && b.southwest.longitude <= b.northeast.longitude
    ensures exists i | 0 <= i < |coordinates| :: coordinates[i].latitude == b.northeast.latitude
    ensures exists i | 0 <= i < |coordinates| :: coordinates[i].longitude == b.northeast.longitude
    ensures exists i | 0 <= i < |coordinates| :: coordinates[i].latitude == b.southwest.latitude
    ensures exists i | 0 <= i < |coordinates| :: coordinates[i].longitude == b.southwest.longitude
  {
    var latitudes, longitudes := Latitudes(coordinates), Longitudes(coordinates);
    assert forall i | 0 <= i < |coordinates| :: latitudes[i] == coordinates[i].latitude && longitudes[i] == coordinates[i].longitude;
    LatLngBounds(
      LatLng(MaxOf(latitudes), MaxOf(longitudes)),
      LatLng(MinOf(latitudes), MinOf(longitudes)))
  }

  /** The requested bounds are the smallest box holding every coordinate. */
  lemma BoundsOfIsSmallest(coordinates: seq<LatLng>, other: LatLngBounds)
    requires |coordinates| > 0
    requires forall i | 0 <= i < |coordinates| :: InBounds(other, coordinates[i])
    ensures other.southwest.latitude <= BoundsOf(coordinates).southwest.latitude
    ensures other.southwest.longitude <= BoundsOf(coordinates).southwest.longitude
    ensures BoundsOf(coordinates).northeast.latitude <= other.northeast.latitude
    ensures BoundsOf(coordinates).northeast.longitude <= other.northeast.longitude
  {
    var b := BoundsOf(coordinates);
    var i1 :| 0 <= i1 < |coordinates| && coordinates[i1].latitude == b.northeast.latitude;
    var i2 :| 0 <= i2 < |coordinates| && coordinates[i2].longitude == b.northeast.longitude;
    var i3 :| 0 <= i3 < |coordinates| && coordinates[i3].latitude == b.southwest.latitude;
    var i4 :| 0 <= i4 < |coordinates| && coordinates[i4].longitude == b.southwest.longitude;
    assert InBounds(other, coordinates[i1]) && InBounds(other, coordinates[i2]);
    assert InBounds(other, coordinates[i3]) && InBounds(other, coordinates[i4]);
  }

  /** The `forEach` that pushes each coordinate's latitude and longitude onto two lists. */
  method CollectAxes(coordinates: seq<LatLng>) returns (latitudes: seq<real>, longitudes: seq<real>)
    ensures latitudes == Latitudes(coordinates)
    ensures longitudes == Longitudes(coordinates)
  {
    latitudes, longitudes := [], [];
    var i := 0;
    while i < |coordinates|
      invariant 0 <= i <= |coordinates|
      invariant |latitudes| == i && |longitudes| == i
      invariant forall k | 0 <= k < i :: latitudes[k] == coordinates[k].latitude
      invariant forall k | 0 <= k < i :: longitudes[k] == coordinates[k].longitude
    {
      latitudes := latitudes + [coordinates[i].latitude];
      longitudes := longitudes + [coordinates[i].longitude];
      i := i + 1;
    }
  }

  // ---------------------------------------------------------------------------
  // Snapshot options
  // ---------------------------------------------------------------------------

  /** Where the snapshot goes: a cache file, or an encoded image returned inline. */
  datatype SnapshotOutput =
    | SaveToFile(cachePath: string, url: string)
    | EncodeBase64(packing: PackingOption)

  /** The static map request takeSnapshot makes, and what it does with the image. */
  datatype SnapshotRequest = SnapshotRequest(mapOptions: StaticMapOptions, output: SnapshotOutput)

  const FILE_SCHEME: string := "file://"
  const BASE64_PREFIX: string := "data:image/jpg;base64,"

  /** Only `png` selects PNG; anything else, a missing format included, selects JPEG. */
  function SnapshotFormat(format: Option<string>): (mime: string)
    ensures mime == "image/png" <==> format == Some("png")
    ensures mime == "image/png" || mime == "image/jpg"
  {
    if format == Some("png") then "image/png" else "image/jpg"
  }

  /** The 0..1 quality scaled to 0..100; a missing quality yields NaN, written None. */
  function SnapshotQuality(quality: Option<real>): (q: Option<real>)
    ensures quality == None <==> q == None
    ensures quality.Some? ==> q.value == 100.0 * quality.value
  {
    if quality.Some? then Some(quality.value * 100.0) else None
  }

  /** `config.region?.latitude ?? target.latitude`, and the same for the longitude. */
  function SnapshotLocation(region: Option<Region>, target: LatLng): (location: LatLng)
    ensures region == None ==> location == target
    ensures region.Some? ==> location == LatLng(region.value.latitude, region.value.longitude)
  {
    var latitude := if region.Some? then Some(region.value.latitude) else None;
    var longitude := if region.Some? then Some(region.value.longitude) else None;
    LatLng(Coalesce(latitude, target.latitude), Coalesce(longitude, target.longitude))
  }

  /**
   * takeSnapshot's normalisation of its options, given the view size already
   * converted to virtual pixels, the current camera and the cache directory.
   * A missing or zero width or height falls back to the view's; the image is
   * centred on the region, or on the camera target, at the current zoom.
   */
  function SnapshotRequestOf(config: SnapshotOptions, viewWidth: real, viewHeight: real, camera: CameraPosition, cacheDir: string): (req: SnapshotRequest)
    ensures req.mapOptions.location == SnapshotLocation(config.region, camera.target)
    ensures req.mapOptions.zoom == camera.zoom && req.mapOptions.scale == 1.0
    ensures req.mapOptions.imageWidth == if config.width.Some? && config.width.value != 0.0 then config.width.value else viewWidth
    ensures req.mapOptions.imageHeight == if config.height.Some? && config.height.value != 0.0 then config.height.value else viewHeight
    ensures req.output.SaveToFile? <==> config.result == Some("file")
    ensures req.output.SaveToFile? ==> req.output.cachePath == cacheDir + "/static_map." + ToText(config.format)
    ensures req.output.SaveToFile? ==> req.output.url == FILE_SCHEME + req.output.cachePath
    ensures req.output.EncodeBase64? ==> req.output.packing == PackingOption(SnapshotFormat(config.format), SnapshotQuality(config.quality))
  {
    var width := Or(config.width, viewWidth);
    var height := Or(config.height, viewHeight);
    var quality := SnapshotQuality(config.quality);
    var format := SnapshotFormat(config.format);
    var options := StaticMapOptions(SnapshotLocation(config.region, camera.target), camera.zoom, width, height, 1.0);
    if config.result == Some("file") then
      var cacheFilePath := cacheDir + "/" + "static_map." + ToText(config.format);
      assert cacheFilePath == cacheDir + "/static_map." + ToText(config.format);
      SnapshotRequest(options, SaveToFile(cacheFilePath, "file://" + cacheFilePath))
    else
      SnapshotRequest(options, EncodeBase64(PackingOption(format, quality)))
  }

  /** The string the snapshot promise resolves with, given the vendor's Base64 text of the packed image. */
  function SnapshotResult(req: SnapshotRequest, encoded: string): (r: string)
    ensures req.output.SaveToFile? ==> r == req.output.url
    ensures req.output.EncodeBase64? ==> |r| == |BASE64_PREFIX| + |encoded|
    ensures req.output.EncodeBase64? ==> r[..|BASE64_PREFIX|] == BASE64_PREFIX && r[|BASE64_PREFIX|..] == encoded
  {
    match req.output
    case SaveToFile(_, url) => url
    case EncodeBase64(_) => BASE64_PREFIX + encoded
  }

  /** A file result is `file://<cacheDir>/static_map.<format>`, with the format as the caller wrote it. */
  lemma SnapshotFileUrl(config: SnapshotOptions, viewWidth: real, viewHeight: real, camera: CameraPosition, cacheDir: string, encoded: string)
    requires config.result == Some("file")
    ensures SnapshotResult(SnapshotRequestOf(config, viewWidth, viewHeight, camera, cacheDir), encoded)
         == "file://" + cacheDir + "/static_map." + ToText(config.format)
  {
  }

  /** An inline result is labelled JPEG even when the image was packed as PNG. */
  lemma SnapshotBase64AlwaysLabelledJpg(config: SnapshotOptions, viewWidth: real, viewHeight: real, camera: CameraPosition, cacheDir: string, encoded: string)
    requires config.result != Some("file") && config.format == Some("png")
    ensures SnapshotRequestOf(config, viewWidth, viewHeight, camera, cacheDir).output.packing.format == "image/png"
    ensures SnapshotResult(SnapshotRequestOf(config, viewWidth, viewHeight, camera, cacheDir), encoded) == "data:image/jpg;base64," + encoded
  {
  }

  /**
   * With every option omitted: JPEG packing, an inline Base64 result, the
   * view's size and the camera's target. (The option type's comments speak of
   * PNG and a file result as the defaults.)
   */
  lemma SnapshotWithNoOptions(viewWidth: real, viewHeight: real, camera: CameraPosition, cacheDir: string)
    ensures SnapshotRequestOf(SnapshotOptions(None, None, None, None, None, None), viewWidth, viewHeight, camera, cacheDir)
         == SnapshotRequest(StaticMapOptions(camera.target, camera.zoom, viewWidth, viewHeight, 1.0), EncodeBase64(PackingOption("image/jpg", None)))
  {
  }

  /** A file result with no format names its file `static_map.undefined`. */
  lemma SnapshotFileWithoutFormat(config: SnapshotOptions, viewWidth: real, viewHeight: real, camera: CameraPosition, cacheDir: string)
    requires config.result == Some("file") && config.format == None
    ensures SnapshotRequestOf(config, viewWidth, viewHeight, camera, cacheDir).output.cachePath == cacheDir + "/static_map.undefined"
  {
  }

  // ---------------------------------------------------------------------------
  // Markers
  // ---------------------------------------------------------------------------

  /** getMarkersFrames is not supported: it always answers `{ key: {} }`. */
  function GetMarkersFrames(onlyVisible: bool): (frames: map<string, map<string, real>>)
    ensures frames.Keys == {"key"} && frames["key"] == map[]
  {
    map["key" := map[]]
  }

  // ---------------------------------------------------------------------------
  // The manager
  // ---------------------------------------------------------------------------

  class MapsTurboManager {
    var mapController: MapComponentController
    var calcPx2vp: real -> real

    /** A manager holding a placeholder controller (whose camera is the vendor's default) and the identity conversion. */
    constructor (placeholder: CameraPosition)
      ensures fresh(mapController)
      ensures mapController.position == placeholder && mapController.limits == None && mapController.issued == []
      ensures forall n :: calcPx2vp(n) == n
    {
      mapController := new MapComponentController(placeholder);
      calcPx2vp := n => n;
    }

    /** Replaces the one controller and the pixel conversion; the previous controller is dropped. */
    method InitMapComponentController(controller: MapComponentController, px2vp: real -> real)
      modifies this
      ensures mapController == controller && calcPx2vp == px2vp
    {
      mapController := controller;
      calcPx2vp := px2vp;
    }

    method GetMapController() returns (controller: MapComponentController)
      ensures controller == mapController
    {
      controller := mapController;
    }

    /** The current camera, renamed: bearing as heading, tilt as pitch, and altitude 0. */
    method GetCamera() returns (camera: Camera)
      ensures camera == CameraOf(mapController.position)
      ensures camera.center == mapController.position.target && camera.zoom == mapController.position.zoom
      ensures camera.heading == mapController.position.bearing && camera.pitch == mapController.position.tilt
      ensures camera.altitude == Some(0.0)
    {
      var position := mapController.GetCameraPosition();
      camera := CameraOf(position);
    }

    method SetCamera(camera: CameraPatch)
      modifies mapController
      ensures mapController.position == SetCameraPosition(old(mapController.position), camera)
      ensures mapController.issued == old(mapController.issued) + [IssuedUpdate(ToPosition(mapController.position), false)]
      ensures mapController.limits == old(mapController.limits)
    {
      var current := mapController.GetCameraPosition();
      mapController.MoveCamera(ToPosition(SetCameraPosition(current, camera)));
    }

    method AnimateCamera(camera: CameraPatch, duration: real)
      requires camera.center.Some?
      modifies mapController
      ensures mapController.position == AnimateCameraPosition(old(mapController.position), camera)
      ensures mapController.issued == old(mapController.issued) + [IssuedUpdate(ToPosition(mapController.position), true)]
      ensures mapController.limits == old(mapController.limits)
    {
      var current := mapController.GetCameraPosition();
      mapController.AnimateCamera(ToPosition(AnimateCameraPosition(current, camera)), Some(duration));
    }

    method AnimateToRegion(region: Region, duration: real)
      modifies mapController
      ensures mapController.position == RegionPosition(old(mapController.position), region)
      ensures mapController.issued == old(mapController.issued) + [IssuedUpdate(ToPosition(mapController.position), true)]
      ensures mapController.limits == old(mapController.limits)
    {
      var current := mapController.GetCameraPosition();
      mapController.AnimateCamera(ToPosition(RegionPosition(current, region)), Some(duration));
    }

    /**
     * A missing or empty list does nothing. Otherwise the controller is asked
     * to fit the coordinates' bounding box, with the top padding only.
     */
    method FitToCoordinates(coordinates: Option<seq<LatLng>>, edgePadding: EdgePadding, animated: bool)
      modifies mapController
      ensures coordinates == None || coordinates == Some([]) ==> unchanged(mapController)
      ensures coordinates.Some? && |coordinates.value| > 0 ==>
        && mapController.issued == old(mapController.issued) + [IssuedUpdate(ToBounds(BoundsOf(coordinates.value), edgePadding.top), animated)]
        && mapController.limits == old(mapController.limits)
    {
      if coordinates.Some? && |coordinates.value| > 0 {
        var latitudes, longitudes := CollectAxes(coordinates.value);
        var bounds := LatLngBounds(
          LatLng(MaxOf(latitudes), MaxOf(longitudes)),
          LatLng(MinOf(latitudes), MinOf(longitudes)));
        var update := ToBounds(bounds, edgePadding.top);
        if animated {
          mapController.AnimateCamera(update, None);
        } else {
          mapController.MoveCamera(update);
        }
      }
    }

    /** Passes the two corners on unchecked as the camera limits. */
    method SetMapBoundaries(northEast: LatLng, southWest: LatLng)
      modifies mapController
      ensures mapController.limits == Some(LatLngBounds(northEast, southWest))
      ensures mapController.issued == old(mapController.issued)
    {
      mapController.SetLatLngBounds(LatLngBounds(northEast, southWest));
    }

    /**
     * The static map request takeSnapshot makes. The view's size in physical
     * pixels is measured through the vendor's projection and is an input here;
     * the manager converts it with its pixel conversion.
     */
    method TakeSnapshot(cacheDir: string, config: SnapshotOptions, viewWidthPx: real, viewHeightPx: real) returns (req: SnapshotRequest)
      ensures req == SnapshotRequestOf(config, calcPx2vp(viewWidthPx), calcPx2vp(viewHeightPx), mapController.position, cacheDir)
    {
      var width := calcPx2vp(viewWidthPx);
      var height := calcPx2vp(viewHeightPx);
      var camera := mapController.GetCameraPosition();
      req := SnapshotRequestOf(config, width, height, camera, cacheDir);
    }
  }

  /** The static `MapsTurboManager.instance` slot. */
  class ManagerSlot {
    var instance: MapsTurboManager?

    constructor ()
      ensures instance == null
    {
      instance := null;
    }

    /** Creates the manager on the first call and hands back the same object on every later call. */
    method GetInstance(placeholder: CameraPosition) returns (manager: MapsTurboManager)
      modifies this
      ensures old(instance) == null ==> fresh(manager) && fresh(manager.mapController)
      ensures old(instance) == null ==> manager.mapController.position == placeholder
      ensures old(instance) == null ==> manager.mapController.limits == None && manager.mapController.issued == []
      ensures old(instance) == null ==> forall n :: manager.calcPx2vp(n) == n
      ensures old(instance) != null ==> manager == old(instance)
      ensures instance == manager
    {
      if instance == null {
        instance := new MapsTurboManager(placeholder);
      }
      manager := instance;
    }
  }
}
