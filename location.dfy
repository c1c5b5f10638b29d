/** Best-effort location lookup used by both alert flows: ask for foreground
    permission, read the current position, reverse-geocode it, and describe the
    first address found; any failure leaves a fixed fallback text. */
module Location {
  import opened Wrappers

  datatype PermissionStatus = Granted | Denied | Undetermined

  /** A position; its coordinates are kept as the text they are printed with
      (six decimals), since float formatting is not modelled. */
  datatype Coords = Coords(latitude: string, longitude: string)

  datatype Address = Address(city: string, region: string, country: string)

  /** What each awaited location call settles with on this device. */
  datatype LocationWorld = LocationWorld(
    permission: Reply<PermissionStatus>,
    position: Reply<Coords>,
    geocode: Reply<seq<Address>>)

  /** The text shown for a resolved address and position. */
  function Describe(a: Address, c: Coords): string
  {
    a.city + ", " + a.region + ", " + a.country + "\nLat: " + c.latitude + ", Lng: " + c.longitude
  }

  /** Every call settled, permission was granted and geocoding found at
      least one address. */
  predicate Resolves(w: LocationWorld)
  {
    && w.permission == Ok(Granted)
    && w.position.Ok?
    && w.geocode.Ok?
    && |w.geocode.value| > 0
  }

  /** The location text a lookup produces, starting from `fallback`. */
  function LocationText(w: LocationWorld, fallback: string): (text: string)
    ensures Resolves(w) ==> text == Describe(w.geocode.value[0], w.position.value)
    ensures !Resolves(w) ==> text == fallback
    ensures w.permission != Ok(Granted) ==> text == fallback
  {
    if w.permission == Ok(Granted) && w.position.Ok? && w.geocode.Ok? && |w.geocode.value| > 0
    then Describe(w.geocode.value[0], w.position.value)
    else fallback
  }

  /** The lookup step by step: a local text that starts as the fallback and is
      overwritten only once an address is known; a raising call ends the
      lookup (the caller's catch) with the text as it stands. */
  method LookupLocation(w: LocationWorld, fallback: string) returns (text: string)
    ensures text == LocationText(w, fallback)
  {
    text := fallback;
    if w.permission.Raise? {
      return;
    }
    if w.permission.value == Granted {
      if w.position.Raise? {
        return;
      }
      var position := w.position.value;
      if w.geocode.Raise? {
        return;
      }
      var addresses := w.geocode.value;
      if |addresses| > 0 {
        text := Describe(addresses[0], position);
      }
    }
  }
}
