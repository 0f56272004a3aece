# Tracking-ID generation pipeline

A Dafny model of the tracking-ID generator service
(`TrackingIdGeneratorServiceImpl`). For a validated request it increments a
shared counter under the key `"product-tracking-id"`. It formats the tracking ID
as the origin country code followed by the upper-cased radix-36 rendering of the
new counter value. It then saves a `ProductTrackingId` record in a store whose
`trackingId` index is unique, publishes the record's JSON to the topic
`"product-tracking-id"`, and returns that JSON. Any failure stops the chain.

Files:

- `wrappers.dfy`: `Option`, `Result` and `Outcome` for the Java code's empty
  replies and error signals.
- `radix36.dfy`: `Long.toString(v, 36)` (sign and lower-case digits), ASCII
  `toUpperCase`, and `Long.parseLong(s, 36)`. It proves round trips in both
  directions and injectivity.
- `tracking_id.dfy`: the tracking ID as prefix ++ rendering, and its decoding.
  With a two-letter prefix, distinct (prefix, value) pairs give distinct IDs.
- `model.dfy`: the request shapes, the record the service builds, its JSON
  projection (proved invertible) and the exceptions.
- `pipeline.dfy`: the pipeline as a pure function `Generate` over
  `Store(counter, records, published)`. The outcome of each adapter (counter,
  record store, broker) is a parameter. It also holds the store invariant
  `Valid`: every stored record is backed by a distinct counter value in
  1..counter, in increasing order, and every published message is on the topic
  and decodes to a stored record. The file proves the failure-ordering
  properties and uniqueness.
- `service.dfy`: the class `TrackingIdGeneratorService` with fields `counter`,
  `records` and `published`. Its methods mirror the four Java methods and are
  proved equal to the pipeline functions. `GenerateId` keeps `Valid`.

The model follows the code where it differs from its own documentation:

- An error signalled by the counter store's increment is not wrapped in
  `ProductTrackingIdGenerationException`, although the Javadoc of
  `generateTrackingId` (TrackingIdGeneratorServiceImpl.java line 72) says it
  is. The method only maps an empty reply (`switchIfEmpty`) and has no
  `onErrorMap`, so the model passes the error on as `CounterStoreException`.
- The service does not distinguish a uniqueness conflict from an unavailable
  store. Every save error becomes "Failed to save tracking ID to database: "
  followed by the cause.
- The record built by the service has nine properties (id, origin, destination,
  weight, createdAt, customerId, customerName, customerSlug, trackingId). The
  `ProductTrackingId` class in the repository declares six fields: id,
  productId, productName, productCategory, productPrice and trackingId. The model follows
  the nine-argument constructor call in the service, and keeps the unique index
  that the class declares on `trackingId`.

## Model

| member | source | states |
|---|---|---|
| Radix36.RenderIsUpperDigits | src/main/java/com/getrosoft/com/getrosoftgenerateid/service/impl/TrackingIdGeneratorServiceImpl.java:80 | upper-casing `Long.toString(v, 36)` gives the sign and the upper-case radix-36 digits of the magnitude |
| Radix36.ParseRender | src/main/java/com/getrosoft/com/getrosoftgenerateid/service/impl/TrackingIdGeneratorServiceImpl.java:80 | parsing the rendered suffix in radix 36 yields the counter value back |
| Radix36.RenderCanonical | src/main/java/com/getrosoft/com/getrosoftgenerateid/service/impl/TrackingIdGeneratorServiceImpl.java:80 | every rendering is canonical: upper-case digits, no leading zero, no "-0" |
| Radix36.RenderParse | src/main/java/com/getrosoft/com/getrosoftgenerateid/service/impl/TrackingIdGeneratorServiceImpl.java:80 | converse round trip: a canonical string is the rendering of the value it parses to |
| Radix36.RenderInjective | src/main/java/com/getrosoft/com/getrosoftgenerateid/service/impl/TrackingIdGeneratorServiceImpl.java:80 | distinct counter values have distinct renderings |
| TrackingIdFormat.DecodeFormat | src/main/java/com/getrosoft/com/getrosoftgenerateid/service/impl/TrackingIdGeneratorServiceImpl.java:80 | splitting a tracking ID after the two-letter prefix gives back the origin code and the counter value |
| TrackingIdFormat.FormatDecode | src/main/java/com/getrosoft/com/getrosoftgenerateid/service/impl/TrackingIdGeneratorServiceImpl.java:80 | a tracking ID with a canonical suffix is the format of what it decodes to |
| TrackingIdFormat.FormatInjective | src/main/java/com/getrosoft/com/getrosoftgenerateid/service/impl/TrackingIdGeneratorServiceImpl.java:80 | with two-letter prefixes, equal tracking IDs imply equal origin codes and equal counter values |
| TrackingIdFormat.FirstLkTrackingId | src/test/java/com/getrosoft/com/getrosoftgenerateid/TrackingIdGeneratorServiceImplTest.java:51-59 | prefix "LK" and value 1 give "LK1" |
| Model.MembersOfToJson | src/main/java/com/getrosoft/com/getrosoftgenerateid/model/ProductTrackingId.java:41-49 | the record's JSON carries each of its nine properties under its own name, including `trackingId` |
| Model.FromToJson | src/main/java/com/getrosoft/com/getrosoftgenerateid/model/ProductTrackingId.java:41-49 | a consumer rebuilds the exact record from its JSON |
| Model.ToJsonInjective | src/main/java/com/getrosoft/com/getrosoftgenerateid/model/ProductTrackingId.java:41-49 | distinct records publish distinct payloads |
| Pipeline.CounterAfter | src/main/java/com/getrosoft/com/getrosoftgenerateid/service/impl/TrackingIdGeneratorServiceImpl.java:78-79 | the increment leaves the counter unchanged or raises it by one, and raises it only when the store performed the increment |
| Pipeline.GenerateTrackingId | src/main/java/com/getrosoft/com/getrosoftgenerateid/service/impl/TrackingIdGeneratorServiceImpl.java:74-82 | succeeds exactly when the counter advanced, and the ID is then the origin code followed by the upper-case radix-36 rendering of the old counter + 1, which decodes back to that pair; an empty reply gives "Unable to generate Id from redis", and only an empty reply does |
| Pipeline.Save | src/main/java/com/getrosoft/com/getrosoftgenerateid/service/impl/TrackingIdGeneratorServiceImpl.java:107-123 | the save succeeds exactly when the tracking ID is not yet stored and the store assigns a primary key, and the saved record is the given one with that key; a store error fails with "Failed to save tracking ID to database: " followed by the store's message, and a duplicate tracking ID with that prefix followed by the duplicate-key error |
| Pipeline.Publish | src/main/java/com/getrosoft/com/getrosoftgenerateid/service/impl/TrackingIdGeneratorServiceImpl.java:90-98 | the publish step passes exactly when the broker acknowledges |
| Pipeline.InvalidRequestChangesNothing | src/main/java/com/getrosoft/com/getrosoftgenerateid/service/impl/TrackingIdGeneratorServiceImpl.java:49-52 | a null or other-shaped request fails with "Invalid request type…" and leaves counter, records and published log unchanged |
| Pipeline.CounterAdvancesAtMostOnce | src/main/java/com/getrosoft/com/getrosoftgenerateid/service/impl/TrackingIdGeneratorServiceImpl.java:78-79 | one call never lowers the counter and raises it by at most one; it rises exactly when a well-shaped request met a performed increment below Long.MAX_VALUE |
| Pipeline.NoPersistWithoutAllocation | src/main/java/com/getrosoft/com/getrosoftgenerateid/service/impl/TrackingIdGeneratorServiceImpl.java:78-81 | if allocation yields no value, nothing changes and the call fails: "Unable to generate Id from redis" on an empty reply, the store's own error otherwise |
| Pipeline.StoredRecordCopiesRequest | src/main/java/com/getrosoft/com/getrosoftgenerateid/service/impl/TrackingIdGeneratorServiceImpl.java:110-120 | a record the call stores came from a successful save: it has the primary key the store assigned, the origin code followed by the rendering of the next counter value, the customer id as `UUID` renders it (lower-case), and every other field copied from the request |
| Pipeline.NoPublishWithoutPersist | src/main/java/com/getrosoft/com/getrosoftgenerateid/service/impl/TrackingIdGeneratorServiceImpl.java:58-61 | if the save fails, nothing is stored or published, the counter value stays consumed, and the error carries the save-failure prefix |
| Pipeline.PublishFailureKeepsRecord | src/main/java/com/getrosoft/com/getrosoftgenerateid/service/impl/TrackingIdGeneratorServiceImpl.java:90-98 | if the send fails after a successful save, the call fails with "Failed to publish tracking ID to Kafka: " + cause, and the saved record stays in the store |
| Pipeline.SuccessPublishesSavedRecord | src/main/java/com/getrosoft/com/getrosoftgenerateid/service/impl/TrackingIdGeneratorServiceImpl.java:58-61 | a successful call took all three successful replies, raised the counter by one, appended the saved record, published its JSON to the topic, and returns that JSON, which decodes to the saved record |
| Pipeline.FreshTrackingIdNotStored | src/main/java/com/getrosoft/com/getrosoftgenerateid/model/ProductTrackingId.java:38-39 | under the invariant, the next tracking ID is never in the store already, so the unique index never rejects it |
| Pipeline.TrackingIdsUnique | src/main/java/com/getrosoft/com/getrosoftgenerateid/model/ProductTrackingId.java:38-39 | under the invariant, stored tracking IDs are pairwise distinct |
| Pipeline.GeneratePreservesValid | src/main/java/com/getrosoft/com/getrosoftgenerateid/service/impl/TrackingIdGeneratorServiceImpl.java:46-65 | every call on validated input preserves the store invariant |
| Pipeline.SuccessiveCallsIssueDistinctIds | src/main/java/com/getrosoft/com/getrosoftgenerateid/service/impl/TrackingIdGeneratorServiceImpl.java:78-80 | two successive calls whose increments succeed format different tracking IDs, whatever the first call's save and send did; below Long.MAX_VALUE - 1 both increments succeed |
| Pipeline.AllRepliesSucceed | src/main/java/com/getrosoft/com/getrosoftgenerateid/service/impl/TrackingIdGeneratorServiceImpl.java:46-65 | on a valid state below Long.MAX_VALUE, when the counter, the record store and the broker all succeed, the call succeeds: it stores the record built from the request, publishes its JSON and returns that JSON |
| Pipeline.FirstLkCallIssuesLk1 | src/test/java/com/getrosoft/com/getrosoftgenerateid/TrackingIdGeneratorServiceImplTest.java:49-60 | on a fresh counter with origin "LK", the first successful call returns JSON whose trackingId is "LK1" and publishes it |
| Service.TrackingIdGeneratorService.constructor | src/main/java/com/getrosoft/com/getrosoftgenerateid/service/impl/TrackingIdGeneratorServiceImpl.java:28-35 | a new service sees the counter, records and published messages as its clients find them persisted, and satisfies the invariant exactly when that state does |
| Service.TrackingIdGeneratorService.GenerateId | src/main/java/com/getrosoft/com/getrosoftgenerateid/service/impl/TrackingIdGeneratorServiceImpl.java:46-65 | for any request, the new state and the result are those of `Generate` on the old state; a validated request keeps the invariant when it held before |
| Service.TrackingIdGeneratorService.GenerateTrackingId | src/main/java/com/getrosoft/com/getrosoftgenerateid/service/impl/TrackingIdGeneratorServiceImpl.java:74-82 | the counter is updated as `CounterAfter` says, and the result is `Pipeline.GenerateTrackingId` on the old counter |
| Service.TrackingIdGeneratorService.SaveTrackingIdToDatabase | src/main/java/com/getrosoft/com/getrosoftgenerateid/service/impl/TrackingIdGeneratorServiceImpl.java:107-123 | the result is `Save`, and the store grows by the saved record exactly when the save succeeded |
| Service.TrackingIdGeneratorService.PublishProductTrackingIdToKafka | src/main/java/com/getrosoft/com/getrosoftgenerateid/service/impl/TrackingIdGeneratorServiceImpl.java:90-98 | the result is `Publish`, and the topic's log grows by the record's message exactly when the broker acknowledged |

## Left out

- Reactor `Mono` plumbing and concurrency: the chain runs as a sequence of steps, and the counter store's increment is one atomic step.
- The client wiring for the counter store, the record store and the broker. Their outcomes are the parameters `CounterReply`, `SaveReply` and `SendReply`.
- The counter store is assumed to be this service's alone. The model cannot express values taken by other instances. Its uniqueness result is about calls made through one store state.
- When the counter reply is empty or an error, the model leaves the counter unchanged. An increment the store performed without replying, or before a timeout, is not observable and is not modelled.
- A `Saved(id)` reply is assumed to be the record handed to `save` with only its primary key set; the pipeline publishes and returns whatever the store emits, so a store that changes other fields is not modelled. The repository's unit test mocks a save reply whose trackingId is "LK" (TrackingIdGeneratorServiceImplTest.java line 54), so with that mock the service returns "LK"; `FirstLkCallIssuesLk1` states what a real store gives.
- A send that fails is modelled as not delivered. A broker that delivers despite a timeout is not modelled.
- Jackson serialisation: JSON is a member list built from the record's properties, not text. A failure of `generateJson` is not modelled.
- `BigDecimal` weight is an opaque (unscaled, scale) pair. `UUID.fromString` followed by the UUID's JSON rendering is modelled as ASCII lower-casing of the customer id (`UuidText`), which is what it does to the 8-4-4-4-12 hexadecimal form the validation admits. The exception it throws on other text is not modelled, since validation runs first. The exception's timestamp and error code are clock reads or constants that never reach the caller's decision, so they are left out.
- Request validation, including `IsoCountryCodeValidator` and the DTO annotations, is not modelled. Its outcome is the precondition `ValidRequest`: both country codes are two upper-case letters, like the codes `Locale.getISOCountries()` lists. Other field checks are not needed by any property.
- Radix36.Parse: does not check the 64-bit range that `Long.parseLong` enforces, and accepts only ASCII digits, because only renderings of counter values are ever parsed.
- Radix36.ToUpperCase: maps ASCII letters only, so it ignores locale-sensitive upper-casing, such as a Turkish default locale turning "i" into a dotted capital I.
- The HTTP controller, the snake-case filter and the application bootstrap are not part of this model.
- The secondary indexes on the repository's `ProductTrackingId` class (productId, productName, productCategory) are not modelled. Those fields are not in the record the service builds.
