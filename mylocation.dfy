/**
 * MyLocationLayer: the layer showing the device's own location.  Only the non-animated
 * paths are modelled.  Every state change is specified by a transition function on a
 * snapshot of the layer, and the class's methods are proved to perform that transition.
 */
module MyLocation {
  import opened Wrappers
  import opened Numerics
  import opened Points

  const MovingImageSource: string := "embedded://Mapsui.Resources.Images.MyLocationMoving.svg"
  const StillImageSource: string := "embedded://Mapsui.Resources.Images.MyLocationStill.svg"

  /** A call the layer makes on its map (`Refresh`, `Navigator.CenterOn`) or on its feature (`Modified`). */
  datatype Call = Refresh | CenterOn(center: MPoint) | FeatureModified

  /**
   * A snapshot of the layer: its flags, location and directions, the feature's point, the
   * location symbol's image and rotation, the direction symbol's visibility and rotation, and
   * the calls made so far.
   */
  datatype LayerState = LayerState(
    isMoving: bool,
    isCentered: bool,
    myLocation: MPoint,
    featurePoint: MPoint,
    direction: real,
    viewingDirection: real,
    locImage: string,
    locRotation: real,
    dirEnabled: bool,
    dirRotation: real,
    calls: seq<Call>)

  /** The image the location symbol shows for a moving or a still device. */
  function ImageFor(isMoving: bool): string
  {
    if isMoving then MovingImageSource else StillImageSource
  }

  /** The feature sits at the layer's location and the symbol matches the moving flag. */
  predicate Consistent(s: LayerState)
  {
    s.featurePoint == s.myLocation && s.locImage == ImageFor(s.isMoving)
  }

  /** The state after `MyLocationLayer(map)`: still, centred, at the origin, no rotation. */
  function InitialState(): (s: LayerState)
    ensures Consistent(s) && s.calls == []
  {
    LayerState(false, true, Origin(), Origin(), 0.0, -1.0, StillImageSource, 0.0, false, 0.0, [])
  }

  /** The `IsMoving` setter: the image follows the flag; the same value changes nothing. */
  function AfterSetIsMoving(s: LayerState, value: bool): (t: LayerState)
    ensures t.isMoving == value
    ensures s.isMoving == value ==> t == s
    ensures s.isMoving != value ==> t == s.(isMoving := value, locImage := ImageFor(value))
    ensures Consistent(s) ==> Consistent(t)
  {
    if s.isMoving != value then s.(isMoving := value, locImage := ImageFor(value)) else s
  }

  /** `UpdateMySpeed`: moving iff the speed is positive; a refresh exactly when that flipped. */
  function AfterUpdateMySpeed(s: LayerState, newSpeed: real): (t: LayerState)
    ensures t.isMoving == (newSpeed > 0.0)
    ensures t.locImage == if s.isMoving == t.isMoving then s.locImage else ImageFor(t.isMoving)
    ensures t.calls == s.calls + (if s.isMoving != t.isMoving then [Refresh] else [])
    ensures t.(isMoving := s.isMoving, locImage := s.locImage, calls := s.calls) == s
  {
    if newSpeed > 0.0 && !s.isMoving then AfterSetIsMoving(s, true).(calls := s.calls + [Refresh])
    else if newSpeed <= 0.0 && s.isMoving then AfterSetIsMoving(s, false).(calls := s.calls + [Refresh])
    else s
  }

  /**
   * `InternalUpdateMyLocation`: a different location is stored, the feature is notified and
   * moved to it; the result says whether anything changed.
   */
  function AfterInternalUpdateMyLocation(s: LayerState, newLocation: MPoint): (r: (LayerState, bool))
    ensures r.1 <==> s.myLocation != newLocation
    ensures r.0.myLocation == newLocation
    ensures r.1 ==> r.0 == s.(myLocation := newLocation, featurePoint := newLocation,
                               calls := s.calls + [FeatureModified])
    ensures !r.1 ==> r.0 == s
  {
    if !Points.Equals(s.myLocation, Some(newLocation)) then
      (s.(myLocation := newLocation, featurePoint := MPoint(newLocation.x, newLocation.y),
          calls := s.calls + [FeatureModified]), true)
    else (s, false)
  }

  /** Non-animated `UpdateMyLocation`: an equal location is a no-op; otherwise move, then recentre if centred. */
  function AfterUpdateMyLocation(s: LayerState, newLocation: MPoint): (t: LayerState)
    ensures s.myLocation == newLocation ==> t == s
    ensures s.myLocation != newLocation ==>
              t.myLocation == newLocation && t.featurePoint == newLocation &&
              t.calls == s.calls + [FeatureModified] + (if s.isCentered then [CenterOn(newLocation)] else [])
    ensures t.(myLocation := s.myLocation, featurePoint := s.featurePoint, calls := s.calls) == s
  {
    if !Points.Equals(s.myLocation, Some(newLocation)) then
      var u := AfterInternalUpdateMyLocation(s, newLocation).0;
      if u.isCentered then u.(calls := u.calls + [CenterOn(u.myLocation)]) else u
    else s
  }

  /**
   * The symbol rotation a non-animated update ends at: a new rotation below 90 following an
   * old one above 270 is first lifted by 360, then C#'s `% 360` is applied.
   */
  function EndRotation(newRotation: int, oldRotation: int): (e: int)
    ensures (e - newRotation) % 360 == 0
    ensures -360 < e < 360
    ensures 0 <= newRotation ==> e == TruncRem(newRotation, 360)
    ensures -360 <= newRotation < 0 && oldRotation > 270 ==> 0 <= e
    ensures newRotation < 0 && oldRotation <= 270 ==> e <= 0
    ensures newRotation < -360 ==> e <= 0
  {
    var lifted := if newRotation < 90 && oldRotation > 270 then newRotation + 360 else newRotation;
    TruncRem(lifted, 360)
  }

  /**
   * Non-animated `UpdateMyDirection`: nothing happens when the truncated new rotation equals
   * the truncated current one; otherwise the direction is stored, the symbol turned to
   * `EndRotation` and the map refreshed.
   */
  function AfterUpdateMyDirection(s: LayerState, newDirection: real, newViewportRotation: real): (t: LayerState)
    ensures TruncToInt(newDirection - newViewportRotation) == TruncToInt(s.locRotation) ==> t == s
    ensures TruncToInt(newDirection - newViewportRotation) != TruncToInt(s.locRotation) ==>
              t == s.(direction := newDirection,
                      locRotation := EndRotation(TruncToInt(newDirection - newViewportRotation),
                                                 TruncToInt(s.locRotation)) as real,
                      calls := s.calls + [Refresh])
  {
    var newRotation := TruncToInt(newDirection - newViewportRotation);
    var oldRotation := TruncToInt(s.locRotation);
    if newRotation != oldRotation then
      s.(direction := newDirection, locRotation := EndRotation(newRotation, oldRotation) as real,
         calls := s.calls + [Refresh])
    else s
  }

  /**
   * Non-animated `UpdateMyViewDirection`: a truncated rotation of -1 only hides the direction
   * symbol; any other change shows it, stores the viewing direction, turns it and refreshes.
   */
  function AfterUpdateMyViewDirection(s: LayerState, newDirection: real, newViewportRotation: real): (t: LayerState)
    ensures TruncToInt(newDirection - newViewportRotation) == -1 ==> t == s.(dirEnabled := false)
    ensures (TruncToInt(newDirection - newViewportRotation) != -1 &&
             TruncToInt(newDirection - newViewportRotation) == TruncToInt(s.dirRotation)) ==> t == s
    ensures (TruncToInt(newDirection - newViewportRotation) != -1 &&
             TruncToInt(newDirection - newViewportRotation) != TruncToInt(s.dirRotation)) ==>
              t == s.(dirEnabled := true, viewingDirection := newDirection,
                      dirRotation := EndRotation(TruncToInt(newDirection - newViewportRotation),
                                                 TruncToInt(s.dirRotation)) as real,
                      calls := s.calls + [Refresh])
  {
    var newRotation := TruncToInt(newDirection - newViewportRotation);
    var oldRotation := TruncToInt(s.dirRotation);
    if newRotation == -1 then s.(dirEnabled := false)
    else if newRotation != oldRotation then
      s.(dirEnabled := true, viewingDirection := newDirection,
         dirRotation := EndRotation(newRotation, oldRotation) as real, calls := s.calls + [Refresh])
    else s
  }

  // ---------------------------------------------------------------- Properties

  /** Every update keeps the feature at the layer's location and the image in step with the flag. */
  lemma UpdatesPreserveConsistency(s: LayerState, speed: real, location: MPoint, direction: real, rotation: real)
    requires Consistent(s)
    ensures Consistent(AfterUpdateMySpeed(s, speed))
    ensures Consistent(AfterInternalUpdateMyLocation(s, location).0)
    ensures Consistent(AfterUpdateMyLocation(s, location))
    ensures Consistent(AfterUpdateMyDirection(s, direction, rotation))
    ensures Consistent(AfterUpdateMyViewDirection(s, direction, rotation))
  {
  }

  /** The symbol's whole-degree rotation after a direction update is the new rotation modulo 360. */
  lemma DirectionUpdateTurnsSymbol(s: LayerState, newDirection: real, newViewportRotation: real)
    ensures var t := AfterUpdateMyDirection(s, newDirection, newViewportRotation);
            (TruncToInt(t.locRotation) - TruncToInt(newDirection - newViewportRotation)) % 360 == 0
    ensures var t := AfterUpdateMyDirection(s, newDirection, newViewportRotation);
            t != s ==> -360.0 < t.locRotation < 360.0 && t.locRotation == TruncToInt(t.locRotation) as real
    ensures var t := AfterUpdateMyDirection(s, newDirection, newViewportRotation);
            t.calls == s.calls || t.calls == s.calls + [Refresh]
  {
    var t := AfterUpdateMyDirection(s, newDirection, newViewportRotation);
    var n := TruncToInt(newDirection - newViewportRotation);
    if n == TruncToInt(s.locRotation) {
      assert t == s;
    } else {
      var e := EndRotation(n, TruncToInt(s.locRotation));
      assert t.locRotation == e as real;
      assert TruncToInt(e as real) == e;
    }
  }

  /** For a rotation in [0, 360) a repeated direction update changes nothing. */
  lemma RepeatedDirectionUpdateInRangeIsNoOp(s: LayerState, newDirection: real, newViewportRotation: real)
    requires 0 <= TruncToInt(newDirection - newViewportRotation) < 360
    ensures var t := AfterUpdateMyDirection(s, newDirection, newViewportRotation);
            AfterUpdateMyDirection(t, newDirection, newViewportRotation) == t
  {
    var t := AfterUpdateMyDirection(s, newDirection, newViewportRotation);
    var n := TruncToInt(newDirection - newViewportRotation);
    if n != TruncToInt(s.locRotation) {
      assert t.locRotation == n as real;
      assert TruncToInt(n as real) == n;
    }
  }

  /**
   * Outside [0, 360) the stored rotation never equals the truncated new one, so every repeat
   * of the same update refreshes the map again: 380 degrees is stored as 20.
   */
  lemma RepeatedDirectionUpdateOutOfRangeRefreshes(s: LayerState)
    requires TruncToInt(s.locRotation) == 20
    ensures AfterUpdateMyDirection(s, 380.0, 0.0).calls == s.calls + [Refresh]
    ensures AfterUpdateMyDirection(s, 380.0, 0.0).locRotation == 20.0
  {
    assert TruncToInt(380.0 - 0.0) == 380;
  }

  /** After `UpdateMySpeed` the moving flag matches the speed, whatever it was before. */
  lemma SpeedUpdateIsIdempotent(s: LayerState, speed: real)
    ensures AfterUpdateMySpeed(AfterUpdateMySpeed(s, speed), speed) == AfterUpdateMySpeed(s, speed)
  {
  }

  // ---------------------------------------------------------------- The layer

  class MyLocationLayer {
    var isMoving: bool
    var isCentered: bool
    var myLocation: MPoint
    var featurePoint: MPoint
    var direction: real
    var viewingDirection: real
    var locImage: string
    var locRotation: real
    var dirEnabled: bool
    var dirRotation: real
    var calls: seq<Call>

    function State(): LayerState
      reads this
    {
      LayerState(isMoving, isCentered, myLocation, featurePoint, direction, viewingDirection,
                 locImage, locRotation, dirEnabled, dirRotation, calls)
    }

    /** `MyLocationLayer(map)`: the feature is created at the initial location (0, 0). */
    constructor ()
      ensures State() == InitialState()
    {
      isMoving := false;
      isCentered := true;
      myLocation := Origin();
      featurePoint := Origin();
      direction := 0.0;
      viewingDirection := -1.0;
      locImage := StillImageSource;
      locRotation := 0.0;
      dirEnabled := false;
      dirRotation := 0.0;
      calls := [];
    }

    /**
     * `MyLocationLayer(map, location)` as written: the chained constructor has already created
     * the feature at (0, 0) when the location is stored, so the feature is left behind.
     */
    constructor FromLocationAsWritten(location: MPoint)
      ensures State() == InitialState().(myLocation := location)
    {
      isMoving := false;
      isCentered := true;
      myLocation := Origin();
      featurePoint := Origin();
      direction := 0.0;
      viewingDirection := -1.0;
      locImage := StillImageSource;
      locRotation := 0.0;
      dirEnabled := false;
      dirRotation := 0.0;
      calls := [];
      new;
      myLocation := location;
    }

    /** `MyLocationLayer(map, location)` with the feature created at the starting location. */
    constructor FromLocation(location: MPoint)
      ensures State() == InitialState().(myLocation := location, featurePoint := location)
      ensures Consistent(State())
    {
      isMoving := false;
      isCentered := true;
      myLocation := location;
      featurePoint := location;
      direction := 0.0;
      viewingDirection := -1.0;
      locImage := StillImageSource;
      locRotation := 0.0;
      dirEnabled := false;
      dirRotation := 0.0;
      calls := [];
    }

    method SetIsMoving(value: bool)
      modifies this
      ensures State() == AfterSetIsMoving(old(State()), value)
    {
      if isMoving != value {
        isMoving := value;
        locImage := if isMoving then MovingImageSource else StillImageSource;
      }
    }

    method SetIsCentered(value: bool)
      modifies this
      ensures State() == old(State()).(isCentered := value)
    {
      if isCentered != value {
        isCentered := value;
      }
    }

    method UpdateMySpeed(newSpeed: real)
      modifies this
      ensures State() == AfterUpdateMySpeed(old(State()), newSpeed)
    {
      var modified := false;
      if newSpeed > 0.0 && !isMoving {
        SetIsMoving(true);
        modified := true;
      }
      if newSpeed <= 0.0 && isMoving {
        SetIsMoving(false);
        modified := true;
      }
      if modified {
        calls := calls + [Refresh];
      }
    }

    method InternalUpdateMyLocation(newLocation: MPoint) returns (modified: bool)
      modifies this
      ensures (State(), modified) == AfterInternalUpdateMyLocation(old(State()), newLocation)
    {
      modified := false;
      if !Points.Equals(myLocation, Some(newLocation)) {
        myLocation := newLocation;
        calls := calls + [FeatureModified];
        featurePoint := featurePoint.(x := myLocation.x);
        featurePoint := featurePoint.(y := myLocation.y);
        modified := true;
      }
    }

    /** `UpdateMyLocation(newLocation, animated: false)`. */
    method UpdateMyLocation(newLocation: MPoint)
      modifies this
      ensures State() == AfterUpdateMyLocation(old(State()), newLocation)
    {
      if !Points.Equals(myLocation, Some(newLocation)) {
        var modified := InternalUpdateMyLocation(newLocation);
        if isCentered {
          calls := calls + [CenterOn(myLocation)];
        }
      }
    }

    /** `UpdateMyDirection(newDirection, newViewportRotation, animated: false)`. */
    method UpdateMyDirection(newDirection: real, newViewportRotation: real)
      modifies this
      ensures State() == AfterUpdateMyDirection(old(State()), newDirection, newViewportRotation)
    {
      var newRotation := TruncToInt(newDirection - newViewportRotation);
      var oldRotation := TruncToInt(locRotation);
      if newRotation != oldRotation {
        direction := newDirection;
        if newRotation < 90 && oldRotation > 270 {
          newRotation := newRotation + 360;
        } else if newRotation > 270 && oldRotation < 90 {
          oldRotation := oldRotation + 360;
        }
        var endRotation := TruncRem(newRotation, 360);
        locRotation := endRotation as real;
        calls := calls + [Refresh];
      }
    }

    /** `UpdateMyViewDirection(newDirection, newViewportRotation, animated: false)`. */
    method UpdateMyViewDirection(newDirection: real, newViewportRotation: real)
      modifies this
      ensures State() == AfterUpdateMyViewDirection(old(State()), newDirection, newViewportRotation)
    {
      var newRotation := TruncToInt(newDirection - newViewportRotation);
      var oldRotation := TruncToInt(dirRotation);
      if newRotation == -1 {
        dirEnabled := false;
      } else if newRotation != oldRotation {
        dirEnabled := true;
        viewingDirection := newDirection;
        if newRotation < 90 && oldRotation > 270 {
          newRotation := newRotation + 360;
        } else if newRotation > 270 && oldRotation < 90 {
          oldRotation := oldRotation + 360;
        }
        var endRotation := TruncRem(newRotation, 360);
        dirRotation := endRotation as real;
        calls := calls + [Refresh];
      }
    }
  }

  /**
   * The two-argument constructor as written leaves the feature at (0, 0), and re-announcing the
   * starting location does not repair it, because that update is a no-op.
   */
  lemma AsWrittenConstructorLeavesFeatureBehind()
    ensures var s := InitialState().(myLocation := MPoint(10.0, 20.0));
            !Consistent(s) && !Consistent(AfterUpdateMyLocation(s, MPoint(10.0, 20.0)))
  {
  }

  /** With the corrected constructor the layer is consistent from the start and stays so. */
  lemma CorrectedConstructorIsConsistent(location: MPoint, next: MPoint)
    ensures Consistent(InitialState().(myLocation := location, featurePoint := location))
    ensures Consistent(AfterUpdateMyLocation(InitialState().(myLocation := location, featurePoint := location), next))
  {
  }
}
