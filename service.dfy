/** `TrackingIdGeneratorServiceImpl` over its three pieces of external state,
    held as fields that its steps update in place: the shared counter, the
    record store and the broker's log of published messages. */
module Service {
  import opened Wrappers
  import opened Model
  import TF = TrackingIdFormat
  import opened Pipeline

  class TrackingIdGeneratorService {
    /** The value stored under `CounterKey`. */
    var counter: int
    /** The stored records, in insertion order. */
    var records: seq<ProductTrackingId>
    /** The messages the broker acknowledged, in publication order. */
    var published: seq<Message>

    function State(): Store
      reads this
    {
      Store(counter, records, published)
    }

    ghost predicate Valid()
      reads this
    {
      Pipeline.Valid(State())
    }

    /** A service over clients of the counter store, the record store and
        the broker, whose persisted contents it finds as they are. */
    constructor (persisted: Store)
      ensures State() == persisted
      ensures Valid() <==> Pipeline.Valid(persisted)
    {
      counter, records, published := persisted.counter, persisted.records, persisted.published;
    }

    /** `generateId`: dispatch on the request shape, then allocate, save and
        publish; each step runs only when the one before it succeeded. */
    method GenerateId(request: Request, counterReply: CounterReply, saveReply: SaveReply, sendReply: SendReply)
      returns (result: Result<Json, Exception>)
      modifies this
      ensures Run(State(), result) == Generate(old(State()), request, counterReply, saveReply, sendReply)
      ensures old(Valid()) && ValidRequest(request) ==> Valid()
    {
      if Valid() && ValidRequest(request) {
        GeneratePreservesValid(State(), request, counterReply, saveReply, sendReply);
      }
      if !request.ByQueryParams? {
        return Failure(ProductTrackingIdGenerationException(InvalidRequestMessage));
      }
      var params := request.params;
      var trackingId := GenerateTrackingId(params, counterReply);
      if trackingId.Failure? {
        return Failure(trackingId.error);
      }
      var saved := SaveTrackingIdToDatabase(params, trackingId.value, saveReply);
      if saved.Failure? {
        return Failure(saved.error);
      }
      var sent := PublishProductTrackingIdToKafka(saved.value, sendReply);
      if sent.Fail? {
        return Failure(sent.error);
      }
      result := Success(ToJson(saved.value));
    }

    /** `generateTrackingId`: one increment of the counter, and the tracking
        ID formatted from the new value. */
    method GenerateTrackingId(params: QueryParams, reply: CounterReply) returns (trackingId: Result<string, Exception>)
      modifies this`counter
      ensures counter == CounterAfter(old(counter), reply)
      ensures trackingId == Pipeline.GenerateTrackingId(params, old(counter), reply)
    {
      match reply {
        case Incremented =>
          if counter < MaxLong {
            counter := counter + 1;
            trackingId := Success(TF.Format(params.originCountryId, counter));
          } else {
            trackingId := Failure(CounterStoreException(OverflowMessage));
          }
        case EmptyReply =>
          trackingId := Failure(ProductTrackingIdGenerationException(NoCounterValueMessage));
        case CounterUnavailable(cause) =>
          trackingId := Failure(CounterStoreException(cause));
      }
    }

    /** `saveTrackingIdToDatabase`: insert a new record, without a primary
        key, under the unique index on `trackingId`. */
    method SaveTrackingIdToDatabase(params: QueryParams, trackingId: string, reply: SaveReply)
      returns (saved: Result<ProductTrackingId, Exception>)
      modifies this`records
      ensures saved == Save(old(records), NewRecord(params, trackingId), reply)
      ensures records == if saved.Success? then old(records) + [saved.value] else old(records)
    {
      var record := NewRecord(params, trackingId);
      if HasTrackingId(records, trackingId) {
        return Failure(ProductTrackingIdGenerationException(SaveFailurePrefix + DuplicateKeyMessage));
      }
      match reply {
        case Saved(id) =>
          saved := Success(record.(id := Some(id)));
          records := records + [saved.value];
        case SaveFailed(cause) =>
          saved := Failure(ProductTrackingIdGenerationException(SaveFailurePrefix + cause));
      }
    }

    /** `publishProductTrackingIdToKafka`: send the record's JSON to the
        topic; the broker's log grows only on acknowledgement. */
    method PublishProductTrackingIdToKafka(record: ProductTrackingId, reply: SendReply) returns (sent: Outcome<Exception>)
      modifies this`published
      ensures sent == Publish(record, reply)
      ensures published == if sent.Pass? then old(published) + [MessageOf(record)] else old(published)
    {
      match reply {
        case Acknowledged =>
          published := published + [MessageOf(record)];
          sent := Pass;
        case SendFailed(cause) =>
          sent := Fail(ProductTrackingIdGenerationException(PublishFailurePrefix + cause));
      }
    }
  }
}
