/** The values the generation pipeline works on: the validated request, the
    persisted record, its JSON projection, the published message and the
    exception the pipeline reports. */
module Model {
  import opened Wrappers

  /** A `java.math.BigDecimal`: unscaled value times ten to the minus scale.
      The pipeline only copies it. */
  datatype Decimal = Decimal(unscaled: int, scale: int)

  /** `TrackingIdGenerationQueryParams`. */
  datatype QueryParams = QueryParams(
    originCountryId: string,
    destinationCountryId: string,
    weight: Decimal,
    createdAt: string,
    customerId: string,
    customerName: string,
    customerSlug: string)

  function LowerChar(c: char): char
  {
    if 'A' <= c <= 'Z' then (c as int - 'A' as int + 'a' as int) as char else c
  }

  /** `UUID.fromString(s).toString()`, as the record carries it: on the
      canonical 8-4-4-4-12 hexadecimal form the request validation admits,
      the same text with its hexadecimal letters in lower case. */
  function UuidText(s: string): (r: string)
    ensures |r| == |s|
    ensures forall i :: 0 <= i < |s| && !('A' <= s[i] <= 'Z') ==> r[i] == s[i]
  {
    seq(|s|, i requires 0 <= i < |s| => LowerChar(s[i]))
  }

  /** The argument of `generateId`, a `TrackingBaseQueryParams`: null, the
      one accepted shape, or any other implementation of the interface. */
  datatype Request = NullRequest | ByQueryParams(params: QueryParams) | OtherShape

  /** `ProductTrackingId` as the service constructs it; `id` is absent until
      the store assigns one. */
  datatype ProductTrackingId = ProductTrackingId(
    id: Option<string>,
    originCountryId: string,
    destinationCountryId: string,
    weight: Decimal,
    createdAt: string,
    customerId: string,
    customerName: string,
    customerSlug: string,
    trackingId: string)

  datatype JsonValue = JNull | JString(text: string) | JNumber(number: Decimal)

  /** A JSON object: its members in output order. */
  datatype Json = JsonObject(members: seq<(string, JsonValue)>)

  /** A message handed to the broker. */
  datatype Message = Message(topic: string, payload: Json)

  /** The exceptions the pipeline signals: `ProductTrackingIdGenerationException`,
      or the counter store's own error, which the pipeline passes on as is. */
  datatype Exception =
    | ProductTrackingIdGenerationException(message: string)
    | CounterStoreException(message: string)

  /** The member names of the record's JSON, in output order. */
  const JsonKeys: seq<string> := [
    "id", "originCountryId", "destinationCountryId", "weight", "createdAt",
    "customerId", "customerName", "customerSlug", "trackingId"]

  /** The member values of the record's JSON, in the same order. */
  function JsonValues(r: ProductTrackingId): (vs: seq<JsonValue>)
    ensures |vs| == |JsonKeys|
  {
    [if r.id.Some? then JString(r.id.value) else JNull,
     JString(r.originCountryId), JString(r.destinationCountryId), JNumber(r.weight),
     JString(r.createdAt), JString(r.customerId), JString(r.customerName),
     JString(r.customerSlug), JString(r.trackingId)]
  }

  /** `generateJson()`: one member per property of the record. */
  function ToJson(r: ProductTrackingId): Json
  {
    JsonObject(seq(|JsonKeys|, i requires 0 <= i < |JsonKeys| => (JsonKeys[i], JsonValues(r)[i])))
  }

  /** The value of the first member named `key`, as a consumer reads it. */
  function Member(j: Json, key: string): (r: Option<JsonValue>)
    decreases |j.members|
  {
    if |j.members| == 0 then None
    else if j.members[0].0 == key then Some(j.members[0].1)
    else Member(JsonObject(j.members[1..]), key)
  }

  function StringMember(j: Json, key: string): Option<string>
  {
    match Member(j, key)
    case Some(JString(s)) => Some(s)
    case _ => None
  }

  /** What a downstream consumer reconstructs from a published payload. */
  function FromJson(j: Json): Option<ProductTrackingId>
  {
    var id := Member(j, "id");
    var origin := StringMember(j, "originCountryId");
    var destination := StringMember(j, "destinationCountryId");
    var weight := Member(j, "weight");
    var createdAt := StringMember(j, "createdAt");
    var customerId := StringMember(j, "customerId");
    var customerName := StringMember(j, "customerName");
    var customerSlug := StringMember(j, "customerSlug");
    var trackingId := StringMember(j, "trackingId");
    if && id.Some? && (id.value.JNull? || id.value.JString?)
       && origin.Some? && destination.Some?
       && weight.Some? && weight.value.JNumber?
       && createdAt.Some? && customerId.Some? && customerName.Some?
       && customerSlug.Some? && trackingId.Some?
    then
      Some(ProductTrackingId(
        if id.value.JString? then Some(id.value.text) else None,
        origin.value, destination.value, weight.value.number, createdAt.value,
        customerId.value, customerName.value, customerSlug.value, trackingId.value))
    else None
  }

  /** Looking a key up finds its first occurrence. */
  lemma {:induction false} MemberFirst(j: Json, k: nat, key: string)
    requires k < |j.members| && j.members[k].0 == key
    requires forall i :: 0 <= i < k ==> j.members[i].0 != key
    ensures Member(j, key) == Some(j.members[k].1)
    decreases k
  {
    if k > 0 {
      MemberFirst(JsonObject(j.members[1..]), k - 1, key);
    }
  }

  lemma JsonKeysDistinct()
    ensures forall i, k :: 0 <= i < k < |JsonKeys| ==> JsonKeys[i] != JsonKeys[k]
  {
  }

  /** Each property of the record is found under its own name. */
  lemma MembersOfToJson(r: ProductTrackingId)
    ensures forall k :: 0 <= k < |JsonKeys| ==> Member(ToJson(r), JsonKeys[k]) == Some(JsonValues(r)[k])
    ensures StringMember(ToJson(r), "trackingId") == Some(r.trackingId)
  {
    JsonKeysDistinct();
    forall k | 0 <= k < |JsonKeys|
      ensures Member(ToJson(r), JsonKeys[k]) == Some(JsonValues(r)[k])
    {
      MemberFirst(ToJson(r), k, JsonKeys[k]);
    }
    assert JsonKeys[8] == "trackingId";
  }

  /** The JSON projection loses nothing: a consumer gets the record back. */
  lemma FromToJson(r: ProductTrackingId)
    ensures FromJson(ToJson(r)) == Some(r)
  {
    MembersOfToJson(r);
    assert Member(ToJson(r), "id") == Some(JsonValues(r)[0]) by { assert JsonKeys[0] == "id"; }
    assert Member(ToJson(r), "originCountryId") == Some(JsonValues(r)[1]) by { assert JsonKeys[1] == "originCountryId"; }
    assert Member(ToJson(r), "destinationCountryId") == Some(JsonValues(r)[2]) by { assert JsonKeys[2] == "destinationCountryId"; }
    assert Member(ToJson(r), "weight") == Some(JsonValues(r)[3]) by { assert JsonKeys[3] == "weight"; }
    assert Member(ToJson(r), "createdAt") == Some(JsonValues(r)[4]) by { assert JsonKeys[4] == "createdAt"; }
    assert Member(ToJson(r), "customerId") == Some(JsonValues(r)[5]) by { assert JsonKeys[5] == "customerId"; }
    assert Member(ToJson(r), "customerName") == Some(JsonValues(r)[6]) by { assert JsonKeys[6] == "customerName"; }
    assert Member(ToJson(r), "customerSlug") == Some(JsonValues(r)[7]) by { assert JsonKeys[7] == "customerSlug"; }
  }

  /** Distinct records publish distinct payloads. */
  lemma ToJsonInjective(r1: ProductTrackingId, r2: ProductTrackingId)
    requires ToJson(r1) == ToJson(r2)
    ensures r1 == r2
  {
    FromToJson(r1);
    FromToJson(r2);
  }
}
