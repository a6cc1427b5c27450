/** The guard of the thank-you page (src/app/diagnostic/thanks/page.tsx):
    the session marker holds the submission time as text; the page is
    shown only for a marker at most 30 seconds old. The clock is a
    parameter; the marker's writer is not part of this model. */
module ThanksGuard {

  import opened Wrappers
  import opened Decimal

  const MaxAgeMs: int := 30000

  /** Redirect home, removing the marker when it has expired, or show the
      page. */
  datatype Decision = Redirect(removeMarker: bool) | Authorised

  /** `parseInt(marker, 10)` and `now - timestamp > 30000`; a NaN age
      fails the comparison. */
  function Check(marker: Option<string>, now: int): (d: Decision)
    ensures (marker.None? || marker.value == []) ==> d == Redirect(false)
    ensures d == Redirect(true) <==>
      marker.Some? && marker.value != [] && ParseInt(marker.value).Some?
      && now - ParseInt(marker.value).value > MaxAgeMs
    ensures d == Authorised <==>
      marker.Some? && marker.value != []
      && !(ParseInt(marker.value).Some? && now - ParseInt(marker.value).value > MaxAgeMs)
  {
    if marker.None? || marker.value == [] then Redirect(false)
    else
      match ParseInt(marker.value)
      case None => Authorised
      case Some(t) => if now - t > MaxAgeMs then Redirect(true) else Authorised
  }

  /** A marker written as a time in milliseconds authorises exactly the
      30 seconds after it, and any earlier moment. */
  lemma MarkerWindow(t: nat, now: int)
    ensures Check(Some(NatToString(t)), now) == Authorised <==> now - t <= MaxAgeMs
    ensures now - t > MaxAgeMs ==> Check(Some(NatToString(t)), now) == Redirect(true)
  {
    ParseIntOfNatToString(t);
  }

  /** A marker that is not a number is accepted for good: NaN never
      compares greater than 30000. */
  lemma UnreadableMarkerAuthorised(marker: string, now: int)
    requires marker != [] && ParseInt(marker).None?
    ensures Check(Some(marker), now) == Authorised
  {
  }

  /** Authorisation only shrinks with time: a page shown at `later` would
      also be shown at any earlier moment. */
  lemma EarlierStillAuthorised(marker: Option<string>, earlier: int, later: int)
    requires earlier <= later
    requires Check(marker, later) == Authorised
    ensures Check(marker, earlier) == Authorised
  {
  }

  /** Without a marker the page is never shown, and nothing is removed. */
  lemma NoMarkerNeverAuthorised(marker: Option<string>, now: int)
    requires marker.None? || marker == Some([])
    ensures Check(marker, now) == Redirect(false)
  {
  }
}
