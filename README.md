# react-native-maps on HarmonyOS: the map manager, modelled in Dafny

This project models the core of the HarmonyOS adapter for react-native-maps.
The core is the singleton `MapsTurboManager`. It holds the one Huawei MapKit
map controller and turns JavaScript map commands into controller calls:

- setting and animating the camera;
- fitting coordinates and setting boundaries;
- preparing snapshots.

The project also models the shared value types, `DEFAULT_ZOOM`, and the
colour-name table `ColorMap`.

Modules:

- `Wrappers` (`Wrappers.dfy`): `Option`, which stands for a JavaScript value that may be `undefined`.
- `Js` (`Js.dfy`): the two JavaScript defaulting operators the code mixes, on optional numbers.
  - `Or` is `x || y`: a missing value and 0 both fall through.
  - `Coalesce` is `x ?? y`: only a missing value falls through.
  - `ToText` is what string concatenation makes of an optional string (`"undefined"` when missing).
- `SharedTypes` (`SharedTypes.dfy`) covers `sharedTypes.ts`:
  - the value types `LatLng`, `Region`, `Camera`, `EdgePadding` and `SnapshotOptions`;
  - `DEFAULT_ZOOM` (12);
  - the `ColorMap` class, whose constructor makes the 18 `set` calls;
  - `ColorMapSlot`, the static `instance` field with its lazy `GetInstance`;
  - lemmas about the resulting 16-entry table `STANDARD_COLORS`.
- `MapKit` (`MapKit.dfy`): an abstract stand-in for the vendor controller. It is
  not repository code, but it gives the manager's methods something to change.
  - A `MapComponentController` holds a mutable camera `position` (target, zoom, tilt, bearing).
  - It also holds the camera `limits` last set.
  - `issued` is the log of camera updates it was asked to perform, each marked animated or not.
  - A position update installs the position. Animation duration is ignored.
  - For a bounds update the vendor computes the camera, so the controller records the request and promises nothing about the camera.
- `TurboManager` (`MapsTurboManager.dfy`) covers `MapsTurboManager.ts`:
  - as functions: the zoom fallback, the camera merges of `setCamera`, `animateCamera` and `animateToRegion`, the bounding box of `fitToCoordinates`, and the option normalisation of `takeSnapshot`;
  - many lemmas relating these functions;
  - the `MapsTurboManager` class, whose methods apply the functions to the controller they hold;
  - `ManagerSlot`, the static `instance` field with its lazy `getInstance`.

JavaScript numbers are reals and `undefined` is `None`. Truthiness of a number
means "present and not 0".

Here the code and its own comments disagree. The model follows the code:

- `SnapshotOptions` says `format` defaults to png and `result` defaults to
  file. The code packs a missing format as `image/jpg` and sends a missing
  result down the Base64 branch (`SnapshotWithNoOptions`).
- `animateCamera` is documented as taking a partial camera. The code reads
  `camera.center` unconditionally, so `AnimateCamera` and
  `AnimateCameraPosition` require a centre. The other camera fields may be
  missing.
- The cache file name uses the caller's raw `format`, not the MIME type. A
  file snapshot with no format is therefore named `static_map.undefined`
  (`SnapshotFileWithoutFormat`).
- The Base64 data URL is always labelled `image/jpg`, even when the image was
  packed as PNG (`SnapshotBase64AlwaysLabelledJpg`).
- `SnapshotOptions` says `quality` defaults to 1. The code multiplies a
  missing quality by 100, which gives NaN, not 100. The model gives no
  number (`None`) for it (`SnapshotQuality`).

## Model

| member | source | states |
|---|---|---|
| `TurboManager.DefaultZoomIsTwelve` | harmony/maps/src/main/ets/sharedTypes.ts:27 | DEFAULT_ZOOM is 12, and it is what a missing zoom falls back to |
| `TurboManager.GetCameraZoom` | harmony/maps/src/main/ets/MapsTurboManager.ts:68-73 | the result is the zoom when it is present and non-zero, DEFAULT_ZOOM when it is missing or 0, and never 0 |
| `TurboManager.GetCameraZoomIdempotent` | harmony/maps/src/main/ets/MapsTurboManager.ts:68-73 | feeding the result back in gives the same zoom |
| `TurboManager.SetCameraPosition` | harmony/maps/src/main/ets/MapsTurboManager.ts:87-102 | target: unchanged without a centre, exactly the centre with one. Zoom: a missing zoom or 0 keeps the current zoom. Tilt and bearing: a missing pitch/heading keeps the current value, and a given one, 0 included, is applied |
| `TurboManager.SetCameraRoundTrip` | harmony/maps/src/main/ets/MapsTurboManager.ts:75-105 | setting the camera to what getCamera reports leaves the camera unchanged, for every zoom, 0 included |
| `TurboManager.SetCameraIdempotent` | harmony/maps/src/main/ets/MapsTurboManager.ts:87-102 | applying the same partial camera twice gives the same camera as applying it once |
| `TurboManager.SetCameraZeroes` | harmony/maps/src/main/ets/MapsTurboManager.ts:94-96 | a patch with zoom 0, pitch 0 and heading 0 keeps the zoom, zeroes tilt and bearing, and keeps the target |
| `TurboManager.AnimateCameraPosition` | harmony/maps/src/main/ets/MapsTurboManager.ts:107-117 | with a centre given: target is the centre. Zoom is the requested one when non-zero, else the current one when non-zero, else 12, so never 0. Tilt and bearing use `??` against the current values |
| `TurboManager.AnimateCameraAgreesWithSetCamera` | harmony/maps/src/main/ets/MapsTurboManager.ts:107-117 | animateCamera installs the same camera as setCamera exactly when the requested or the current zoom is non-zero |
| `TurboManager.RegionPosition` | harmony/maps/src/main/ets/MapsTurboManager.ts:126-133 | the target becomes the region's centre; zoom, tilt and bearing are the current ones (the `??` fallback to 12 never applies) |
| `TurboManager.AnimateToRegionOnlyRecentres` | harmony/maps/src/main/ets/MapsTurboManager.ts:126-136 | animateToRegion installs what setCamera installs for a patch holding only the region's centre |
| `TurboManager.AnimateToRegionIgnoresDeltas` | harmony/maps/src/main/ets/MapsTurboManager.ts:128-133 | latitudeDelta and longitudeDelta have no effect on the camera |
| `TurboManager.MaxOf` | harmony/maps/src/main/ets/MapsTurboManager.ts:156-157 | the result is an element of the list and no element exceeds it |
| `TurboManager.MinOf` | harmony/maps/src/main/ets/MapsTurboManager.ts:160-161 | the result is an element of the list and no element is below it |
| `TurboManager.CollectAxes` | harmony/maps/src/main/ets/MapsTurboManager.ts:148-153 | the loop yields the coordinates' latitudes and longitudes, in order |
| `TurboManager.BoundsOf` | harmony/maps/src/main/ets/MapsTurboManager.ts:154-163 | every coordinate lies inside the bounds, southwest ≤ northeast in both components, and each of the four edges is attained by some coordinate |
| `TurboManager.BoundsOfIsSmallest` | harmony/maps/src/main/ets/MapsTurboManager.ts:154-163 | any box containing every coordinate contains the requested bounds |
| `TurboManager.SnapshotFormat` | harmony/maps/src/main/ets/MapsTurboManager.ts:276 | the MIME type is `image/png` exactly when the format is `png`, and `image/jpg` otherwise, a missing format included |
| `TurboManager.SnapshotQuality` | harmony/maps/src/main/ets/MapsTurboManager.ts:275 | a given quality is multiplied by 100; a missing one gives no number (NaN in the source) |
| `TurboManager.SnapshotLocation` | harmony/maps/src/main/ets/MapsTurboManager.ts:277-283 | the image centre is the region's centre when a region is given, else the current camera target |
| `TurboManager.SnapshotRequestOf` | harmony/maps/src/main/ets/MapsTurboManager.ts:273-299 | width and height fall back to the converted view size when missing or 0. The location comes from SnapshotLocation, at the current zoom, scale 1. The output is a file exactly when result is `file`, at `cacheDir/static_map.<format>` with URL `file://` + path. Otherwise it is Base64 packing with the MIME format and scaled quality |
| `TurboManager.SnapshotResult` | harmony/maps/src/main/ets/MapsTurboManager.ts:292-306 | a file result resolves with the file URL; a Base64 result is `data:image/jpg;base64,` followed by exactly the encoded text |
| `TurboManager.SnapshotFileUrl` | harmony/maps/src/main/ets/MapsTurboManager.ts:292-296 | a file snapshot resolves with `file://` + cacheDir + `/static_map.` + the caller's format |
| `TurboManager.SnapshotBase64AlwaysLabelledJpg` | harmony/maps/src/main/ets/MapsTurboManager.ts:298-304 | a PNG-format Base64 snapshot is packed as `image/png` yet labelled `data:image/jpg;base64,` |
| `TurboManager.SnapshotWithNoOptions` | harmony/maps/src/main/ets/MapsTurboManager.ts:273-292 | with every option omitted: JPEG packing, no quality, inline Base64 output, the view's size, the camera target and zoom |
| `TurboManager.SnapshotFileWithoutFormat` | harmony/maps/src/main/ets/MapsTurboManager.ts:293 | a file snapshot without a format is written to `cacheDir/static_map.undefined` |
| `TurboManager.GetMarkersFrames` | harmony/maps/src/main/ets/MapsTurboManager.ts:318-321 | the answer is always the single key `key` mapped to an empty object |
| `TurboManager.MapsTurboManager.constructor` | harmony/maps/src/main/ets/MapsTurboManager.ts:43-56 | a fresh placeholder controller with the vendor's default camera, and the identity pixel conversion |
| `TurboManager.MapsTurboManager.InitMapComponentController` | harmony/maps/src/main/ets/MapsTurboManager.ts:58-62 | the single controller and the pixel conversion are replaced by the given ones |
| `TurboManager.MapsTurboManager.GetMapController` | harmony/maps/src/main/ets/MapsTurboManager.ts:64-66 | returns the controller currently held |
| `TurboManager.MapsTurboManager.GetCamera` | harmony/maps/src/main/ets/MapsTurboManager.ts:75-84 | centre is the target, zoom is the zoom, heading is the bearing, pitch is the tilt, altitude is 0 |
| `TurboManager.MapsTurboManager.SetCamera` | harmony/maps/src/main/ets/MapsTurboManager.ts:86-105 | the controller's camera becomes SetCameraPosition of the old camera. One non-animated position update is issued, and the limits are unchanged |
| `TurboManager.MapsTurboManager.AnimateCamera` | harmony/maps/src/main/ets/MapsTurboManager.ts:107-124 | the camera becomes AnimateCameraPosition of the old camera. One animated position update is issued, and the limits are unchanged |
| `TurboManager.MapsTurboManager.AnimateToRegion` | harmony/maps/src/main/ets/MapsTurboManager.ts:126-136 | the camera becomes RegionPosition of the old camera. One animated position update is issued |
| `TurboManager.MapsTurboManager.FitToCoordinates` | harmony/maps/src/main/ets/MapsTurboManager.ts:146-171 | a missing or empty list leaves the controller untouched. Otherwise exactly one bounds update is issued: BoundsOf the list, padding edgePadding.top, animated as asked |
| `TurboManager.MapsTurboManager.SetMapBoundaries` | harmony/maps/src/main/ets/MapsTurboManager.ts:173-175 | the two corners become the camera limits unchecked, and no camera update is issued |
| `TurboManager.MapsTurboManager.TakeSnapshot` | harmony/maps/src/main/ets/MapsTurboManager.ts:259-288 | the request is SnapshotRequestOf the options, the view size passed through the held pixel conversion, and the current camera |
| `TurboManager.ManagerSlot.GetInstance` | harmony/maps/src/main/ets/MapsTurboManager.ts:46-56 | the first call creates the manager with a fresh placeholder controller at the default camera, no limits, an empty update log and the identity pixel conversion; every later call returns that same object |
| `SharedTypes.ColorMap.constructor` | harmony/maps/src/main/ets/sharedTypes.ts:124-144 | the 18 successive `set` calls leave exactly the 16-entry table STANDARD_COLORS |
| `SharedTypes.ColorMap.Get` | harmony/maps/src/main/ets/sharedTypes.ts:122 | a lookup finds a value exactly when the name is in the table, and then it is the table's value |
| `SharedTypes.ColorTableHasSixteenNames` | harmony/maps/src/main/ets/sharedTypes.ts:124-144 | the table's names are the 16 distinct first-inserted names, so it has exactly 16 entries |
| `SharedTypes.ColorValuesAreArgbHex` | harmony/maps/src/main/ets/sharedTypes.ts:126-143 | every value is `#` followed by exactly eight hexadecimal digits |
| `SharedTypes.OnlyTransparentIsNotOpaque` | harmony/maps/src/main/ets/sharedTypes.ts:126-143 | every value except `transparent`'s begins `#ff`; `transparent` is `#00000000` |
| `SharedTypes.ColorAliases` | harmony/maps/src/main/ets/sharedTypes.ts:130-142 | `gray` (`#ff808080`) and `grey` (`#ffd3d3d3`) are distinct entries; `aqua` and `cyan` are both `#ff00ffff` |
| `SharedTypes.ReinsertionLeavesTableUnchanged` | harmony/maps/src/main/ets/sharedTypes.ts:139-143 | setting a name to the value it already holds, as the second `green` and `cyan` calls do, leaves the table unchanged |
| `SharedTypes.UnknownColorHasNoEntry` | harmony/maps/src/main/ets/sharedTypes.ts:124-144 | every name outside the 16 inserted names has no entry; lookup is case-sensitive |
| `SharedTypes.PurpleAndCapitalRedAreUnknown` | harmony/maps/src/main/ets/sharedTypes.ts:124-144 | `purple` and `Red` are not among the inserted names |
| `SharedTypes.ColorMapSlot.GetInstance` | harmony/maps/src/main/ets/sharedTypes.ts:113-120 | the first call creates the table; every later call returns that same object |
| `SharedTypes.GetInstanceTwice` | harmony/maps/src/main/ets/sharedTypes.ts:115-120 | two calls in a row return the same table |

## Left out

- Projection calls (`getMapBoundaries`, `pointForCoordinate`, `coordinateForPoint`): they forward to the vendor's projection (`getVisibleRegion`, `toScreenLocation`, `fromScreenLocation`), whose behaviour is vendor code.
- `getAddressFromCoordinates`: it renames the fields of the vendor's reverse-geocoding result. The geocoder is vendor code, and the call is asynchronous.
- `takeSnapshot`'s vendor and device work is left out:
  - the static map image fetch;
  - image packing, whose encoded text is a parameter of `SnapshotResult`;
  - `savePixel2File`'s file I/O, which packs as PNG at quality 100 whatever the format;
  - the promise plumbing.
- `calcLength`: it is floating-point arithmetic on screen points. The view size it measures is an input of `TakeSnapshot` in physical pixels.
- Logging, and the try/catch blocks that log and swallow or re-reject vendor errors.
- No-op stubs with nothing to model: `fitToElements`, `fitToSuppliedMarkers`, `setIndoorActiveLevelIndex`, `showCallout`, `hideCallout`, `redraw`.
- NaN and the infinities: numbers are reals. A NaN width, height or zoom (falsy in JavaScript) is not modelled, and a missing quality yields `None` where the source computes NaN.
- `TakeSnapshot`: the region is typed with both latitude and longitude present. The source's per-field `?.`/`??` fallback is therefore modelled only at the level of the whole region; a region object lacking just one of the two is not modelled.
- `MapsTurboManager.AnimateCamera`: the source throws a TypeError when `camera.center` is missing; the model requires a centre instead.
- `MapsTurboManager.FitToCoordinates`: the camera the vendor computes for a bounds update is not modelled. The controller records the requested bounds and padding in `issued`.
- `MapsTurboManager.SetMapBoundaries`: whether the vendor moves the camera into the new limits is not modelled.
- `MapsTurboManager`'s null handling is not modelled: the optional chaining `mapController?.` and the `if (!cameraUpdate)` guard. The model's controller is never null, and building an update always succeeds.
- The altitude a caller passes to `setCamera` or `animateCamera` is not part of `CameraPatch`, because neither method reads it.
- Static `instance` fields: Dafny classes have no static mutable fields, so each one is a slot object (`ManagerSlot`, `ColorMapSlot`) holding a nullable reference.
- `AIRMapManager.ts` and `AIRMapMarkerManager.ts` are not part of this model: they are one-line delegations to the manager, or empty.
- `MapsPackage.ts`, `MapsPackage.h`, `Props.h`, `AIRMapDescriptorTypes.ts` and `MapCluster.tsx` are not part of this model: they are registration boilerplate, generated prop structs, type declarations and a render pass-through.
