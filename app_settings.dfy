// The admin settings screen: the field's coordinates and the QR secret key
// that check-in codes must match.
module AppSettings {
  import opened Wrappers

  /** The characters a generated key is drawn from. */
  const Alphabet := "ABCDEFGHIJKLMNOPQRSTUVWXYZabcdefghijklmnopqrstuvwxyz0123456789!@#$%^&*"

  const KeyLength := 64

  /** The shortest key a save accepts. */
  const MinKeyLength := 60

  lemma AlphabetSize()
    ensures |Alphabet| == 70
  {
  }

  /** `Math.floor(draw * chars.length)` for a draw in [0, 1). */
  function CharIndex(draw: real): (k: nat)
    requires 0.0 <= draw < 1.0
    ensures k < |Alphabet|
    ensures k as real <= draw * 70.0 < k as real + 1.0
  {
    (draw * 70.0).Floor
  }

  predicate ValidDraws(draws: seq<real>)
  {
    forall i :: 0 <= i < |draws| ==> 0.0 <= draws[i] < 1.0
  }

  /** The key the draws pick, one character per draw. */
  function KeyOf(draws: seq<real>): (key: string)
    requires ValidDraws(draws)
    ensures |key| == |draws|
    ensures forall i :: 0 <= i < |key| ==> key[i] in Alphabet && key[i] == Alphabet[CharIndex(draws[i])]
  {
    seq(|draws|, i requires 0 <= i < |draws| => Alphabet[CharIndex(draws[i])])
  }

  /** The stored row. */
  datatype SettingsRow = SettingsRow(id: string, fieldLatitude: Option<real>, fieldLongitude: Option<real>, qrSecretKey: string)

  /** `value?.toString() || ''`, with `toString` the number's decimal text (never empty). */
  function LoadedCoordinate(value: Option<real>, toString: real -> string): (text: string)
    requires forall x :: toString(x) != ""
    ensures text == "" <==> value.None?
    ensures value.Some? ==> text == toString(value.value)
  {
    if value.None? then ""
    else
      var x := value.value;
      assert toString(x) != "";
      toString(x)
  }

  datatype SaveRefusal = MissingCoordinates | KeyTooShort

  /** The write handleSave issues. The coordinates stay the typed text: the `parseFloat` the screen
      applies before writing is not modelled. */
  datatype SettingsWrite =
    | UpdateSettings(id: string, latitude: string, longitude: string, qrSecretKey: string)
    | InsertSettings(latitude: string, longitude: string, qrSecretKey: string)

  /** handleSave's checks, then an update of the loaded row or an insert when there is none. */
  function SaveRequest(settings: Option<SettingsRow>, latitude: string, longitude: string, key: string): (r: Result<SettingsWrite, SaveRefusal>)
    ensures r == Failure(MissingCoordinates) <==> latitude == "" || longitude == ""
    ensures r == Failure(KeyTooShort) <==> latitude != "" && longitude != "" && |key| < MinKeyLength
    ensures r.Success? ==>
      r.value.latitude == latitude && r.value.longitude == longitude && r.value.qrSecretKey == key
      && |key| >= MinKeyLength
      && (r.value.UpdateSettings? <==> settings.Some? && settings.value.id != "")
      && (r.value.UpdateSettings? ==> r.value.id == settings.value.id)
  {
    if latitude == "" || longitude == "" then Failure(MissingCoordinates)
    else if |key| < MinKeyLength then Failure(KeyTooShort)
    else if settings.Some? && settings.value.id != "" then Success(UpdateSettings(settings.value.id, latitude, longitude, key))
    else Success(InsertSettings(latitude, longitude, key))
  }

  class AppSettingsScreen {
    var settings: Option<SettingsRow>
    var latitude: string
    var longitude: string
    var qrSecretKey: string
    var saving: bool

    constructor ()
      ensures settings.None? && latitude == "" && longitude == "" && qrSecretKey == "" && !saving
    {
      settings := None;
      latitude := "";
      longitude := "";
      qrSecretKey := "";
      saving := false;
    }

    /** The save button is disabled while saving or with a short key. */
    predicate SaveEnabled()
      reads this
    {
      !saving && |qrSecretKey| >= MinKeyLength
    }

    /** fetchSettings: a found row fills the form; no row or a failed load leaves it as it is. */
    method Fetched(response: Result<Option<SettingsRow>, string>, toString: real -> string)
      modifies this`settings, this`latitude, this`longitude, this`qrSecretKey
      requires forall x :: toString(x) != ""
      ensures response.Success? && response.value.Some? ==>
        var row := response.value.value;
        settings == Some(row) && qrSecretKey == row.qrSecretKey
        && latitude == LoadedCoordinate(row.fieldLatitude, toString)
        && longitude == LoadedCoordinate(row.fieldLongitude, toString)
      ensures !(response.Success? && response.value.Some?) ==>
        settings == old(settings) && latitude == old(latitude) && longitude == old(longitude) && qrSecretKey == old(qrSecretKey)
    {
      if response.Success? && response.value.Some? {
        var row := response.value.value;
        settings := Some(row);
        latitude := LoadedCoordinate(row.fieldLatitude, toString);
        longitude := LoadedCoordinate(row.fieldLongitude, toString);
        qrSecretKey := row.qrSecretKey;
      }
    }

    /** generateQrKey: 64 characters, each picked from the alphabet by one random draw. */
    method GenerateQrKey(draws: seq<real>)
      modifies this`qrSecretKey
      requires |draws| == KeyLength && ValidDraws(draws)
      ensures qrSecretKey == KeyOf(draws)
      ensures |qrSecretKey| == 64 && forall i :: 0 <= i < |qrSecretKey| ==> qrSecretKey[i] in Alphabet
      ensures SaveRequest(settings, latitude, longitude, qrSecretKey) != Failure(KeyTooShort)
    {
      var key := "";
      var i := 0;
      while i < KeyLength
        invariant 0 <= i <= KeyLength
        invariant key == KeyOf(draws[..i])
      {
        assert draws[..i + 1] == draws[..i] + [draws[i]];
        key := key + [Alphabet[CharIndex(draws[i])]];
        i := i + 1;
      }
      assert draws[..i] == draws;
      qrSecretKey := key;
    }

    /** handleSave: the write issued, or why nothing is written. */
    method Save(writeError: Option<string>) returns (r: Result<SettingsWrite, SaveRefusal>)
      modifies this`saving
      ensures r == SaveRequest(settings, latitude, longitude, qrSecretKey)
      ensures r.Success? ==> !saving
      ensures r.Failure? ==> saving == old(saving)
    {
      r := SaveRequest(settings, latitude, longitude, qrSecretKey);
      if r.Failure? {
        return;
      }
      saving := true;
      saving := false;
    }
  }

  /** An enabled save button means the key check passes; the coordinates are still checked on click. */
  lemma EnabledSavePassesKeyCheck(s: AppSettingsScreen)
    requires s.SaveEnabled()
    ensures SaveRequest(s.settings, s.latitude, s.longitude, s.qrSecretKey) != Failure(KeyTooShort)
    ensures SaveRequest(s.settings, "", s.longitude, s.qrSecretKey) == Failure(MissingCoordinates)
  {
  }
}
