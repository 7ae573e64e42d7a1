/**
 * A listing's address line (src/components/AddressDisplay.tsx): the stored
 * address if there is one, otherwise a reverse-geocoding lookup whose
 * first result is adopted, and the raw coordinates while there is none.
 * The lookup's HTTP request is outside the model: its response is an input.
 */
module AddressDisplay {
  import opened Wrappers

  /** The geocoding response: a failed request, or the results' formatted
      addresses in order (none when the response holds no results). */
  datatype GeocodeResponse = Failed | Results(formattedAddresses: seq<string>)

  /** What the component shows. */
  datatype DisplayText = Text(text: string) | Coordinates(lat: real, lng: real)

  const UnknownLocation: string := "Unknown Location"

  /** A JavaScript truthiness test on an optional string. */
  predicate Present(s: Option<string>)
  {
    s.Some? && s.value != ""
  }

  /** `existingAddress || ""`. */
  function InitialAddress(existingAddress: Option<string>): (r: string)
    ensures Present(existingAddress) ==> r == existingAddress.value
    ensures r == "" <==> !Present(existingAddress)
  {
    if Present(existingAddress) then existingAddress.value else ""
  }

  /** The effect's early return: an address is already known, or a
      coordinate is 0 (the equator and the prime meridian included). */
  predicate SkipsLookup(lat: real, lng: real, existingAddress: Option<string>)
  {
    Present(existingAddress) || lat == 0.0 || lng == 0.0
  }

  /** Whether a request is sent: not skipped, and an API key is configured. */
  predicate LookupSent(lat: real, lng: real, existingAddress: Option<string>, apiKey: Option<string>)
  {
    !SkipsLookup(lat, lng, existingAddress) && Present(apiKey)
  }

  /** The response's effect on the address: the first result is adopted; no
      result or a failure leaves it as it was. */
  function Adopt(address: string, response: GeocodeResponse): (r: string)
    ensures response.Results? && response.formattedAddresses != [] ==> r == response.formattedAddresses[0]
    ensures response.Failed? || response.formattedAddresses == [] ==> r == address
  {
    match response
    case Results(found) => if |found| > 0 then found[0] else address
    case Failed => address
  }

  /** The rendered text: "Unknown Location" for (0, 0) without an address,
      else the address if any, else the coordinates. */
  function Rendered(lat: real, lng: real, existingAddress: Option<string>, address: string): (r: DisplayText)
    ensures lat == 0.0 && lng == 0.0 && !Present(existingAddress) ==> r == Text(UnknownLocation)
    ensures !(lat == 0.0 && lng == 0.0 && !Present(existingAddress)) ==>
      (address != "" ==> r == Text(address)) && (address == "" ==> r == Coordinates(lat, lng))
  {
    if lat == 0.0 && lng == 0.0 && !Present(existingAddress) then Text(UnknownLocation)
    else if address != "" then Text(address)
    else Coordinates(lat, lng)
  }

  class AddressLine {
    // Props
    var lat: real
    var lng: real
    var existingAddress: Option<string>
    // State
    var address: string

    function Shown(): DisplayText
      reads this
    {
      Rendered(lat, lng, existingAddress, address)
    }

    /** First render: the address starts as the stored one, or empty. */
    constructor (lat: real, lng: real, existingAddress: Option<string>)
      ensures this.lat == lat && this.lng == lng && this.existingAddress == existingAddress
      ensures address == InitialAddress(existingAddress)
    {
      this.lat, this.lng := lat, lng;
      this.existingAddress := existingAddress;
      address := if Present(existingAddress) then existingAddress.value else "";
    }

    /** New props: the address state is kept. */
    method ReceiveProps(lat: real, lng: real, existingAddress: Option<string>)
      modifies this`lat, this`lng, this`existingAddress
      ensures this.lat == lat && this.lng == lng && this.existingAddress == existingAddress
    {
      this.lat, this.lng := lat, lng;
      this.existingAddress := existingAddress;
    }

    /** The lookup effect with the configured key and, if a request is
        sent, the response it receives. */
    method RunLookupEffect(apiKey: Option<string>, response: GeocodeResponse)
      modifies this`address
      ensures address == if LookupSent(lat, lng, existingAddress, apiKey)
                         then Adopt(old(address), response) else old(address)
    {
      if Present(existingAddress) || lat == 0.0 || lng == 0.0 {
        return;
      }
      if !Present(apiKey) {
        return;
      }
      match response {
        case Results(found) =>
          if |found| > 0 {
            address := found[0];
          }
        case Failed =>
      }
    }
  }

  /** A listing with a stored address shows that address, whatever the
      coordinates, key or response. */
  method StoredAddressShown(lat: real, lng: real, stored: string, apiKey: Option<string>, response: GeocodeResponse)
    returns (shown: DisplayText)
    requires stored != ""
    ensures shown == Text(stored)
  {
    var line := new AddressLine(lat, lng, Some(stored));
    line.RunLookupEffect(apiKey, response);
    shown := line.Shown();
  }

  /** Without a stored address or a usable response, a non-zero coordinate
      is shown as the coordinate pair. */
  method CoordinatesFallback(lat: real, lng: real, apiKey: Option<string>, response: GeocodeResponse)
    returns (shown: DisplayText)
    requires lat != 0.0 || lng != 0.0
    requires response.Failed? || response.formattedAddresses == []
    ensures shown == Coordinates(lat, lng)
  {
    var line := new AddressLine(lat, lng, None);
    line.RunLookupEffect(apiKey, response);
    shown := line.Shown();
  }
}
