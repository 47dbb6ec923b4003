// QR check-in: the scanned code must equal the field's secret key, then the
// player's position must lie within 10 metres of the field before the
// registration is marked checked in. The scanner dialog is a small state machine.
module QrScanner {
  import opened Wrappers
  import opened DbTypes

  datatype ScanStatus = Idle | RequestingLocation | Scanning | Verifying | Success | Error

  /** The three `app_settings` columns the scanner reads. */
  datatype FieldSettings = FieldSettings(fieldLatitude: Option<real>, fieldLongitude: Option<real>, qrSecretKey: string)

  /** What the browser's geolocation request yields. */
  datatype LocationResult =
    | Located(latitude: real, longitude: real)
    | Unsupported
    | PermissionDenied
    | PositionUnavailable
    | LocationTimeout
    | LocationError

  /** Why a check-in failed; the dialog shows the matching message. */
  datatype CheckInError =
    | InvalidCode
    | LocationFailed(reason: LocationResult)
    | FieldNotConfigured
    | TooFar(roundedMeters: int)
    | UpdateFailed(message: string)

  /** The `registrations` update: `check_in_status := 'checked_in'` where user and game match. */
  datatype CheckInUpdate = CheckInUpdate(userId: UserId, gameId: GameId, checkInStatus: CheckInStatus, updatedAt: int)

  const RadiusMeters: real := 10.0

  /** `Math.round` for a non-NaN number. */
  function Round(x: real): (n: int)
    ensures x - 0.5 < n as real <= x + 0.5
  {
    (x + 0.5).Floor
  }

  /** A coordinate is configured when it is present and not 0, which JavaScript treats as false. */
  predicate Configured(coordinate: Option<real>)
  {
    coordinate.Some? && coordinate.value != 0.0
  }

  /** `isWithinRadius(..., 10)`: the boundary itself counts as inside. */
  predicate WithinRadius(distance: real)
  {
    distance <= RadiusMeters
  }

  datatype ScanOutcome = ScanOutcome(locationRequested: bool, update: Option<CheckInUpdate>, error: Option<CheckInError>)

  /**
   * handleScan's verification once it has started: the code check, the position,
   * the field configuration, the geofence and the write, in that order. The
   * distance function stands for the haversine distance in metres; `updateError`
   * is what the update returns when it is made.
   */
  function VerifyScan(scanned: string, settings: FieldSettings, userId: UserId, location: LocationResult,
                      distance: (real, real, real, real) -> real, gameId: Option<GameId>,
                      updateError: Option<string>, now: int): (o: ScanOutcome)
    // a wrong code is rejected before the position is asked for, and nothing is written
    ensures scanned != settings.qrSecretKey ==> o == ScanOutcome(false, None, Some(InvalidCode))
    // a write happens only after every check has passed, and only for a given game
    ensures o.update.Some? ==>
      scanned == settings.qrSecretKey && location.Located?
      && Configured(settings.fieldLatitude) && Configured(settings.fieldLongitude)
      && WithinRadius(distance(location.latitude, location.longitude,
                               settings.fieldLatitude.value, settings.fieldLongitude.value))
      && gameId.Some? && gameId.value != ""
      && o.update.value == CheckInUpdate(userId, gameId.value, CheckedIn, now)
    ensures o.update.None? && o.error.None? ==> gameId.None? || gameId.value == ""
    // a position that cannot be obtained is reported with its reason, after the code check
    ensures scanned == settings.qrSecretKey && !location.Located? ==>
      o == ScanOutcome(true, None, Some(LocationFailed(location)))
    // an unconfigured field is reported whatever the position
    ensures scanned == settings.qrSecretKey && location.Located?
      && !(Configured(settings.fieldLatitude) && Configured(settings.fieldLongitude))
      ==> o.error == Some(FieldNotConfigured) && o.update.None?
    // a position outside the radius is reported with its rounded distance
    ensures o.error.Some? && o.error.value.TooFar? ==>
      o.update.None? && location.Located? && o.error.value.roundedMeters >= 10
      && !WithinRadius(distance(location.latitude, location.longitude,
                                settings.fieldLatitude.value, settings.fieldLongitude.value))
      && o.error.value.roundedMeters == Round(distance(location.latitude, location.longitude,
                                                       settings.fieldLatitude.value, settings.fieldLongitude.value))
    // a failed write is reported with the database's message
    ensures o.update.Some? && updateError.Some? ==> o.error == Some(UpdateFailed(updateError.value))
    // the check-in succeeds exactly when every check passes and the write, if made, succeeds
    ensures o.error.None? <==>
      scanned == settings.qrSecretKey && location.Located?
      && Configured(settings.fieldLatitude) && Configured(settings.fieldLongitude)
      && WithinRadius(distance(location.latitude, location.longitude,
                               settings.fieldLatitude.value, settings.fieldLongitude.value))
      && (gameId.None? || gameId.value == "" || updateError.None?)
  {
    if scanned != settings.qrSecretKey then ScanOutcome(false, None, Some(InvalidCode))
    else if !location.Located? then ScanOutcome(true, None, Some(LocationFailed(location)))
    else if !Configured(settings.fieldLatitude) || !Configured(settings.fieldLongitude) then
      ScanOutcome(true, None, Some(FieldNotConfigured))
    else
      var d := distance(location.latitude, location.longitude,
                        settings.fieldLatitude.value, settings.fieldLongitude.value);
      if !WithinRadius(d) then ScanOutcome(true, None, Some(TooFar(Round(d))))
      else if gameId.Some? && gameId.value != "" then
        var update := CheckInUpdate(userId, gameId.value, CheckedIn, now);
        if updateError.Some? then ScanOutcome(true, Some(update), Some(UpdateFailed(updateError.value)))
        else ScanOutcome(true, Some(update), None)
      else ScanOutcome(true, None, None)
  }

  /** A player exactly 10 metres away is checked in. */
  lemma BoundaryIsInside(settings: FieldSettings, userId: UserId, lat: real, lon: real,
                         distance: (real, real, real, real) -> real, gameId: GameId, now: int)
    requires Configured(settings.fieldLatitude) && Configured(settings.fieldLongitude)
    requires distance(lat, lon, settings.fieldLatitude.value, settings.fieldLongitude.value) == 10.0
    requires gameId != ""
    ensures VerifyScan(settings.qrSecretKey, settings, userId, Located(lat, lon), distance, Some(gameId), None, now)
            == ScanOutcome(true, Some(CheckInUpdate(userId, gameId, CheckedIn, now)), None)
  {
  }

  /** A player between 10 and 10.5 metres away is turned away with a message saying 10 metres. */
  lemma RejectedDistanceMayRoundToRadius(settings: FieldSettings, userId: UserId, lat: real, lon: real,
                                         distance: (real, real, real, real) -> real, gameId: Option<GameId>,
                                         updateError: Option<string>, now: int)
    requires Configured(settings.fieldLatitude) && Configured(settings.fieldLongitude)
    requires 10.0 < distance(lat, lon, settings.fieldLatitude.value, settings.fieldLongitude.value) < 10.5
    ensures VerifyScan(settings.qrSecretKey, settings, userId, Located(lat, lon), distance, gameId, updateError, now)
            == ScanOutcome(true, None, Some(TooFar(10)))
  {
  }

  /** What openScanner shows when the position cannot be obtained. */
  datatype OpenToast = NoGeolocation | AllowLocation | LocationUnavailable | LocationTimedOut | LocationUnknownError

  function OpenFailureToast(r: LocationResult): OpenToast
  {
    match r
    case PermissionDenied => AllowLocation
    case PositionUnavailable => LocationUnavailable
    case LocationTimeout => LocationTimedOut
    case _ => LocationUnknownError
  }

  class Scanner {
    var isOpen: bool
    var status: ScanStatus
    var error: Option<CheckInError>
    var settings: Option<FieldSettings>
    var loading: bool
    /** The scanned code and user of the verification in progress. */
    var pending: Option<(string, UserId)>

    /** Verification is in progress exactly when one has been started and not finished. */
    ghost predicate Valid()
      reads this
    {
      (status == Verifying <==> pending.Some?)
    }

    constructor ()
      ensures Valid()
      ensures !isOpen && status == Idle && error.None? && settings.None? && loading && pending.None?
    {
      isOpen := false;
      status := Idle;
      error := None;
      settings := None;
      loading := true;
      pending := None;
    }

    /** fetchAppSettings: a failed read leaves the settings unset; loading ends either way. */
    method SettingsLoaded(response: Result<Option<FieldSettings>, string>)
      modifies this`settings, this`loading
      ensures !loading
      ensures settings == if response.Success? then response.value else old(settings)
    {
      if response.Success? {
        settings := response.value;
      }
      loading := false;
    }

    /** The component renders nothing while the settings load. */
    predicate Rendered()
      reads this
    {
      !loading
    }

    /** The scan button is disabled without a secret key and while the location is requested. */
    predicate ScanButtonEnabled()
      reads this
    {
      settings.Some? && settings.value.qrSecretKey != "" && status != RequestingLocation
    }

    /** openScanner, up to the location request. */
    method BeginOpen(geolocationSupported: bool) returns (toast: Option<OpenToast>)
      requires Valid()
      modifies this`error, this`status, this`pending
      ensures Valid()
      ensures error.None?
      ensures !geolocationSupported ==> toast == Some(NoGeolocation) && status == old(status)
      ensures geolocationSupported ==> toast.None? && status == RequestingLocation
    {
      error := None;
      if !geolocationSupported {
        return Some(NoGeolocation);
      }
      status := RequestingLocation;
      pending := None;
      toast := None;
    }

    /** openScanner, once the location request settles. */
    method CompleteOpen(result: LocationResult) returns (toast: Option<OpenToast>)
      requires Valid()
      modifies this`status, this`isOpen, this`pending
      ensures Valid()
      ensures result.Located? ==> status == Scanning && isOpen && toast.None?
      ensures !result.Located? ==> status == Idle && isOpen == old(isOpen) && toast == Some(OpenFailureToast(result))
    {
      pending := None;
      if result.Located? {
        status := Scanning;
        isOpen := true;
        toast := None;
      } else {
        status := Idle;
        toast := Some(OpenFailureToast(result));
      }
    }

    /** handleScan's guard: a scan starts a verification only while scanning, with settings and a user. */
    method BeginScan(scanned: string, user: Option<UserId>) returns (started: bool)
      requires Valid()
      modifies this`status, this`pending
      ensures Valid()
      ensures started <==> old(status) == Scanning && settings.Some? && user.Some?
      ensures started ==> status == Verifying && pending == Some((scanned, user.value))
      ensures !started ==> status == old(status) && pending == old(pending)
    {
      if status != Scanning || settings.None? || user.None? {
        return false;
      }
      status := Verifying;
      pending := Some((scanned, user.value));
      started := true;
    }

    /** The end of handleScan: a verification in progress always ends in success or error. */
    method FinishScan(location: LocationResult, distance: (real, real, real, real) -> real,
                      gameId: Option<GameId>, updateError: Option<string>, now: int)
      returns (update: Option<CheckInUpdate>)
      requires Valid()
      modifies this`status, this`error, this`pending
      ensures Valid()
      ensures old(status) != Verifying || settings.None? ==>
        update.None? && status == old(status) && error == old(error) && pending == old(pending)
      ensures old(status) == Verifying && settings.Some? ==>
        var o := VerifyScan(old(pending).value.0, settings.value, old(pending).value.1, location, distance,
                            gameId, updateError, now);
        update == o.update && pending.None?
        && (o.error.None? ==> status == ScanStatus.Success && error == old(error))
        && (o.error.Some? ==> status == Error && error == o.error)
    {
      if status != Verifying || settings.None? {
        return None;
      }
      var o := VerifyScan(pending.value.0, settings.value, pending.value.1, location, distance,
                          gameId, updateError, now);
      update := o.update;
      pending := None;
      if o.error.None? {
        status := ScanStatus.Success;
      } else {
        status := Error;
        error := o.error;
      }
    }

    /** Two seconds after a success the dialog closes and the scanner returns to idle. */
    method SuccessTimerFired()
      requires Valid()
      modifies this`isOpen, this`status, this`pending
      ensures Valid()
      ensures !isOpen && status == Idle
    {
      isOpen := false;
      status := Idle;
      pending := None;
    }

    /** closeScanner */
    method Close()
      requires Valid()
      modifies this`isOpen, this`status, this`error, this`pending
      ensures Valid()
      ensures !isOpen && status == Idle && error.None?
    {
      isOpen := false;
      status := Idle;
      error := None;
      pending := None;
    }

    /** retryScanning */
    method Retry()
      requires Valid()
      modifies this`status, this`error, this`pending
      ensures Valid()
      ensures status == Scanning && error.None?
    {
      status := Scanning;
      error := None;
      pending := None;
    }
  }
}
