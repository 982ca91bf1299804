/**
 * components/mainComponents/publicar/escogerLocalizacion.tsx: the address field of the publish
 * form, with a button that fills it from the device position.
 */
module LocationInput {
  import opened Wrappers
  import opened JsText

  /** One reverse-geocoding result; absent parts are `None`. */
  datatype GeocodedAddress = GeocodedAddress(
    street: Option<string>, streetNumber: Option<string>, city: Option<string>, region: Option<string>)

  datatype Position = Position(latitude: real, longitude: real)

  /** The argument of `onLocationSelect`. */
  datatype Selection = Selection(latitude: real, longitude: real, address: string)

  /** An `Alert.alert(title, message)` dialog. */
  datatype Alert = Alert(title: string, message: string)

  /** The dialog shown when location permission is refused. */
  const PermissionAlert := Alert("Permisos requeridos",
    "Necesitamos acceso a tu ubicación para autocompletar la dirección")

  /** The dialog of the catch block: the position or the reverse geocoding failed. */
  const LocationErrorAlert := Alert("Error", "No se pudo obtener la ubicación actual")

  /** `part || ''`. */
  function Part(p: Option<string>): string {
    p.GetOr("")
  }

  /** The template literal before trimming. */
  function RawAddress(a: GeocodedAddress): string {
    Part(a.street) + " " + Part(a.streetNumber) + ", " + Part(a.city) + ", " + Part(a.region)
  }

  /** The address text: the template literal trimmed at both ends only. */
  function FormatAddress(a: GeocodedAddress): (r: string)
    ensures r != [] ==> !IsSpace(r[0]) && !IsSpace(r[|r| - 1])
    ensures |r| <= |RawAddress(a)|
    ensures ',' in r
  {
    var raw := RawAddress(a);
    var head := Part(a.street) + " " + Part(a.streetNumber);
    var tail := ", " + Part(a.city) + ", " + Part(a.region);
    assert raw == head + tail;
    assert raw[|head|] == tail[0] == ',';
    TrimKeeps(raw, |head|);
    Trim(raw)
  }

  /** A result with no parts at all still yields the two separators. */
  lemma AllMissingKeepsSeparators()
    ensures FormatAddress(GeocodedAddress(None, None, None, None)) == ", ,"
  {
    var raw := RawAddress(GeocodedAddress(None, None, None, None));
    var inner := [',', ' ', ','];
    assert raw == [' '] + inner + [' '];
    assert IsSpace(raw[0]) && !IsSpace(raw[1]) && IsSpace(raw[4]) && !IsSpace(raw[3]);
    assert LeadingSpaces(raw[1..]) == 0;
    assert LeadingSpaces(raw) == 1;
    assert TrailingSpaces(raw[1..][..3]) == 0;
    assert TrailingSpaces(raw[1..]) == 1;
    assert raw[1..][..3] == inner;
  }

  /** With no spaces at the outer ends, nothing is trimmed: the parts keep their separators. */
  lemma FullAddressUntrimmed(a: GeocodedAddress)
    requires Part(a.street) != [] && !IsSpace(Part(a.street)[0])
    requires Part(a.region) != [] && !IsSpace(Part(a.region)[|Part(a.region)| - 1])
    ensures FormatAddress(a) == Part(a.street) + " " + Part(a.streetNumber) + ", " + Part(a.city) + ", " + Part(a.region)
  {
    TrimUnspaced(RawAddress(a));
  }

  class LocationField {
    var isLoadingLocation: bool
    /** The dialogs shown so far. */
    var alerts: seq<Alert>

    constructor ()
      ensures !isLoadingLocation && alerts == []
    {
      isLoadingLocation := false;
      alerts := [];
    }

    /** The locate button is disabled while a lookup runs. */
    function ButtonDisabled(): (d: bool)
      reads this
      ensures d <==> isLoadingLocation
    {
      isLoadingLocation
    }

    /**
     * `getCurrentLocation`: `granted` is the permission answer, `position` the device position
     * (`None` when it cannot be read) and `geocode` the reverse-geocoding results (`None` when
     * that call fails). `text` and `selection` are what `onChangeText` and `onLocationSelect`
     * receive, if they are called.
     */
    method GetCurrentLocation(granted: bool, position: Option<Position>, geocode: Option<seq<GeocodedAddress>>)
      returns (text: Option<string>, selection: Option<Selection>)
      requires !ButtonDisabled()
      modifies this
      ensures text.Some? <==> granted && position.Some? && geocode.Some? && |geocode.value| > 0
      ensures selection.Some? <==> text.Some?
      ensures text.Some? ==> text.value == FormatAddress(geocode.value[0])
      ensures selection.Some? ==>
        selection.value == Selection(position.value.latitude, position.value.longitude, text.value)
      ensures !granted ==> alerts == old(alerts) + [PermissionAlert]
      ensures granted && (position.None? || geocode.None?) ==> alerts == old(alerts) + [LocationErrorAlert]
      ensures granted && position.Some? && geocode.Some? ==> alerts == old(alerts)
      ensures !isLoadingLocation
    {
      isLoadingLocation := true;
      text, selection := None, None;
      if !granted {
        alerts := alerts + [PermissionAlert];
      } else if position.None? || geocode.None? {
        alerts := alerts + [LocationErrorAlert];
      } else if |geocode.value| > 0 {
        var fullAddress := FormatAddress(geocode.value[0]);
        text := Some(fullAddress);
        selection := Some(Selection(position.value.latitude, position.value.longitude, fullAddress));
      }
      isLoadingLocation := false;
    }
  }
}
