/** The tracking identifier: the origin country code followed by the
    upper-case radix-36 rendering of the counter value. */
module TrackingIdFormat {
  import opened Wrappers
  import Radix36

  /** Length of an ISO 3166-1 alpha-2 country code. */
  const PrefixLength: nat := 2

  /** An ISO 3166-1 alpha-2 code as `Locale.getISOCountries()` lists them:
      two upper-case ASCII letters. */
  predicate IsCountryCode(s: string)
  {
    |s| == PrefixLength && forall i :: 0 <= i < |s| ==> 'A' <= s[i] <= 'Z'
  }

  /** `originCountryId + Long.toString(id, 36).toUpperCase()`. */
  function Format(origin: string, value: int): string
  {
    origin + Radix36.Render(value)
  }

  datatype Decoded = Decoded(prefix: string, value: int)

  /** Splits a tracking ID into its fixed-length prefix and the counter
      value its suffix encodes. */
  function Decode(trackingId: string): Option<Decoded>
  {
    if |trackingId| < PrefixLength then None
    else
      match Radix36.Parse(trackingId[PrefixLength..])
      case None => None
      case Some(v) => Some(Decoded(trackingId[..PrefixLength], v))
  }

  /** Decoding a formatted tracking ID gives back the prefix and the value. */
  lemma DecodeFormat(origin: string, value: int)
    requires |origin| == PrefixLength
    ensures Decode(Format(origin, value)) == Some(Decoded(origin, value))
  {
    var t := Format(origin, value);
    assert t[PrefixLength..] == Radix36.Render(value);
    assert t[..PrefixLength] == origin;
    Radix36.ParseRender(value);
  }

  /** The converse: a tracking ID with a canonical suffix is the format of
      what it decodes to. */
  lemma FormatDecode(trackingId: string)
    requires |trackingId| >= PrefixLength
    requires Radix36.Canonical(trackingId[PrefixLength..])
    ensures Decode(trackingId).Some?
    ensures Format(Decode(trackingId).value.prefix, Decode(trackingId).value.value) == trackingId
  {
    Radix36.RenderParse(trackingId[PrefixLength..]);
    assert trackingId == trackingId[..PrefixLength] + trackingId[PrefixLength..];
  }

  /** With a fixed-length prefix, distinct (prefix, value) pairs give
      distinct tracking IDs; in particular distinct counter values do. */
  lemma FormatInjective(origin1: string, value1: int, origin2: string, value2: int)
    requires |origin1| == PrefixLength && |origin2| == PrefixLength
    requires Format(origin1, value1) == Format(origin2, value2)
    ensures origin1 == origin2 && value1 == value2
  {
    DecodeFormat(origin1, value1);
    DecodeFormat(origin2, value2);
  }

  /** The counter value a tracking ID was formatted from, or 0 when it
      cannot be decoded (never the case for an issued ID, whose value is at
      least 1). */
  function ValueOf(trackingId: string): int
  {
    match Decode(trackingId)
    case None => 0
    case Some(d) => d.value
  }

  /** The first tracking ID issued from origin "LK" is "LK1". */
  lemma FirstLkTrackingId()
    ensures Format("LK", 1) == "LK1"
  {
  }
}
