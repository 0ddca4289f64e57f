/**
 * An abstract stand-in for the vendor's map component controller: a mutable
 * camera, the camera limits last set, and the log of camera updates it was
 * asked to perform. How the vendor SDK renders, animates or fits bounds is
 * not modelled.
 */
module MapKit {
  import opened Wrappers
  import opened SharedTypes

  /** The vendor's camera record. */
  datatype CameraPosition = CameraPosition(target: LatLng, zoom: real, tilt: real, bearing: real)

  datatype LatLngBounds = LatLngBounds(northeast: LatLng, southwest: LatLng)

  /** What `newCameraPosition` and `newLatLngBounds` build. */
  datatype CameraUpdate =
    | ToPosition(position: CameraPosition)
    | ToBounds(bounds: LatLngBounds, padding: real)

  /** One update handed to the controller, and whether it was to be animated. */
  datatype IssuedUpdate = IssuedUpdate(update: CameraUpdate, animated: bool)

  /** The parameters of a static map image request. */
  datatype StaticMapOptions = StaticMapOptions(location: LatLng, zoom: real, imageWidth: real, imageHeight: real, scale: real)

  /** The parameters of an image packing (encoding) request; an absent quality stands for NaN. */
  datatype PackingOption = PackingOption(format: string, quality: Option<real>)

  class MapComponentController {
    var position: CameraPosition
    var limits: Option<LatLngBounds>
    var issued: seq<IssuedUpdate>

    /** A controller whose camera starts where the vendor puts it. */
    constructor (initial: CameraPosition)
      ensures position == initial && limits == None && issued == []
    {
      position := initial;
      limits := None;
      issued := [];
    }

    method GetCameraPosition() returns (p: CameraPosition)
      ensures p == position
    {
      p := position;
    }

    /**
     * Jumps the camera. A position update installs that position; for a
     * bounds update the vendor computes the camera, so nothing is promised
     * about it.
     */
    method MoveCamera(update: CameraUpdate)
      modifies this
      ensures issued == old(issued) + [IssuedUpdate(update, false)]
      ensures update.ToPosition? ==> position == update.position
      ensures limits == old(limits)
    {
      if update.ToPosition? {
        position := update.position;
      }
      issued := issued + [IssuedUpdate(update, false)];
    }

    /** Like MoveCamera, animated; the duration does not change the final camera. */
    method AnimateCamera(update: CameraUpdate, duration: Option<real>)
      modifies this
      ensures issued == old(issued) + [IssuedUpdate(update, true)]
      ensures update.ToPosition? ==> position == update.position
      ensures limits == old(limits)
    {
      if update.ToPosition? {
        position := update.position;
      }
      issued := issued + [IssuedUpdate(update, true)];
    }

    /**
     * Restricts the camera target to the given bounds. No camera update is
     * issued; whether the vendor then moves the camera inside the bounds is
     * not modelled.
     */
    method SetLatLngBounds(bounds: LatLngBounds)
      modifies this
      ensures limits == Some(bounds)
      ensures issued == old(issued)
    {
      limits := Some(bounds);
    }
  }
}
