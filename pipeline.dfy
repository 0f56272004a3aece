/** The generation pipeline of `TrackingIdGeneratorServiceImpl` as a function
    of the external state it touches: the shared counter, the record store
    and the log of messages published to the broker. Each adapter's outcome
    is a parameter, so every failure branch can be stated. */
module Pipeline {
  import opened Wrappers
  import opened Model
  import TF = TrackingIdFormat
  import Radix36

  /** The counter key and the topic name, both "product-tracking-id". */
  const CounterKey: string := "product-tracking-id"
  const KafkaTopic: string := "product-tracking-id"

  /** `Long.MAX_VALUE`: the counter store refuses to increment past it. */
  const MaxLong: int := 0x7fff_ffff_ffff_ffff

  const InvalidRequestMessage: string := "Invalid request type: Expected ProductTrackingIdGenerationException."
  const NoCounterValueMessage: string := "Unable to generate Id from redis"
  const SaveFailurePrefix: string := "Failed to save tracking ID to database: "
  const PublishFailurePrefix: string := "Failed to publish tracking ID to Kafka: "
  /** The counter store's reply to an increment that would overflow. */
  const OverflowMessage: string := "ERR increment or decrement would overflow"
  /** The record store's reply to an insert that breaks a unique index. */
  const DuplicateKeyMessage: string := "E11000 duplicate key error"

  /** What the counter store's increment call yields: it performed the
      increment, it completed with no value, or it failed. */
  datatype CounterReply = Incremented | EmptyReply | CounterUnavailable(cause: string)

  /** What the record store's insert yields when the unique index allows
      it: the primary key it assigned, or an error. */
  datatype SaveReply = Saved(assignedId: string) | SaveFailed(cause: string)

  /** Whether the broker acknowledges a send. */
  datatype SendReply = Acknowledged | SendFailed(cause: string)

  /** The external state: the counter under `CounterKey`, the stored
      records in insertion order, and the messages published. */
  datatype Store = Store(counter: int, records: seq<ProductTrackingId>, published: seq<Message>)

  /** The state after one call of `generateId` and what the call returned. */
  datatype Run = Run(after: Store, result: Result<Json, Exception>)

  datatype Allocation = Allocated(value: int) | NoValue | AllocationError(cause: string)

  // ---------------------------------------------------------------------
  // The steps.

  /** The counter store's atomic increment-and-get on `CounterKey`. */
  function Increment(counter: int, reply: CounterReply): Allocation
  {
    match reply
    case Incremented => if counter < MaxLong then Allocated(counter + 1) else AllocationError(OverflowMessage)
    case EmptyReply => NoValue
    case CounterUnavailable(cause) => AllocationError(cause)
  }

  /** The counter after the increment call. */
  function CounterAfter(counter: int, reply: CounterReply): (c: int)
    ensures c == counter || (c == counter + 1 && reply.Incremented?)
  {
    match Increment(counter, reply)
    case Allocated(v) => v
    case _ => counter
  }

  /** `generateTrackingId`: allocate a value and format it. An empty reply
      becomes a `ProductTrackingIdGenerationException`; an error of the
      counter store is passed on unchanged. */
  function GenerateTrackingId(p: QueryParams, counter: int, reply: CounterReply): (r: Result<string, Exception>)
    ensures r.Success? <==> CounterAfter(counter, reply) == counter + 1
    ensures r.Success? ==> r.value == TF.Format(p.originCountryId, counter + 1)
    ensures r.Success? && |p.originCountryId| == TF.PrefixLength ==>
      TF.Decode(r.value) == Some(TF.Decoded(p.originCountryId, counter + 1))
    ensures reply.EmptyReply? <==> r == Failure(ProductTrackingIdGenerationException(NoCounterValueMessage))
  {
    match Increment(counter, reply)
    case Allocated(v) =>
      if |p.originCountryId| == TF.PrefixLength then TF.DecodeFormat(p.originCountryId, v); Success(TF.Format(p.originCountryId, v))
      else Success(TF.Format(p.originCountryId, v))
    case NoValue => Failure(ProductTrackingIdGenerationException(NoCounterValueMessage))
    case AllocationError(cause) => Failure(CounterStoreException(cause))
  }

  /** The record `saveTrackingIdToDatabase` hands to the store. */
  function NewRecord(p: QueryParams, trackingId: string): ProductTrackingId
  {
    ProductTrackingId(None, p.originCountryId, p.destinationCountryId, p.weight,
                      p.createdAt, UuidText(p.customerId), p.customerName, p.customerSlug, trackingId)
  }

  predicate HasTrackingId(records: seq<ProductTrackingId>, trackingId: string)
  {
    exists i :: 0 <= i < |records| && records[i].trackingId == trackingId
  }

  /** `saveTrackingIdToDatabase`: the store's insert under its unique index
      on `trackingId`, with every error wrapped. */
  function Save(records: seq<ProductTrackingId>, r: ProductTrackingId, reply: SaveReply): (res: Result<ProductTrackingId, Exception>)
    ensures res.Success? ==> !HasTrackingId(records, r.trackingId) && reply.Saved?
    ensures res.Success? ==> res.value == r.(id := Some(reply.assignedId))
    ensures !HasTrackingId(records, r.trackingId) && reply.Saved? ==> res.Success?
    ensures !HasTrackingId(records, r.trackingId) && reply.SaveFailed? ==>
      res == Failure(ProductTrackingIdGenerationException(SaveFailurePrefix + reply.cause))
    ensures HasTrackingId(records, r.trackingId) ==>
      res == Failure(ProductTrackingIdGenerationException(SaveFailurePrefix + DuplicateKeyMessage))
    ensures res.Failure? ==> res.error.ProductTrackingIdGenerationException?
    ensures res.Failure? ==> |res.error.message| >= |SaveFailurePrefix| &&
                             res.error.message[..|SaveFailurePrefix|] == SaveFailurePrefix
  {
    if HasTrackingId(records, r.trackingId) then
      Failure(ProductTrackingIdGenerationException(SaveFailurePrefix + DuplicateKeyMessage))
    else
      match reply
      case Saved(id) => Success(r.(id := Some(id)))
      case SaveFailed(cause) => Failure(ProductTrackingIdGenerationException(SaveFailurePrefix + cause))
  }

  /** `publishProductTrackingIdToKafka`: send the record's JSON to the topic,
      wrapping a failed send. */
  function Publish(r: ProductTrackingId, reply: SendReply): (o: Outcome<Exception>)
    ensures o.Pass? <==> reply.Acknowledged?
  {
    match reply
    case Acknowledged => Pass
    case SendFailed(cause) => Fail(ProductTrackingIdGenerationException(PublishFailurePrefix + cause))
  }

  /** The message a successful publish appends. */
  function MessageOf(r: ProductTrackingId): Message
  {
    Message(KafkaTopic, ToJson(r))
  }

  /** `generateId`: dispatch on the request shape, then allocate, save and
      publish, each step running only when the previous one succeeded. */
  function Generate(s: Store, request: Request, counterReply: CounterReply,
                    saveReply: SaveReply, sendReply: SendReply): Run
  {
    match request
    case ByQueryParams(p) =>
      var counter := CounterAfter(s.counter, counterReply);
      (match GenerateTrackingId(p, s.counter, counterReply)
       case Failure(e) => Run(s.(counter := counter), Failure(e))
       case Success(trackingId) =>
         match Save(s.records, NewRecord(p, trackingId), saveReply)
         case Failure(e) => Run(s.(counter := counter), Failure(e))
         case Success(saved) =>
           var stored := Store(counter, s.records + [saved], s.published);
           match Publish(saved, sendReply)
           case Fail(e) => Run(stored, Failure(e))
           case Pass => Run(stored.(published := s.published + [MessageOf(saved)]), Success(ToJson(saved))))
    case _ => Run(s, Failure(ProductTrackingIdGenerationException(InvalidRequestMessage)))
  }

  // ---------------------------------------------------------------------
  // The invariant of the external state.

  /** What the request validation guarantees before `generateId` runs. */
  predicate ValidParams(p: QueryParams)
  {
    TF.IsCountryCode(p.originCountryId) && TF.IsCountryCode(p.destinationCountryId)
  }

  predicate ValidRequest(request: Request)
  {
    request.ByQueryParams? ==> ValidParams(request.params)
  }

  /** A stored record is backed by a counter value: it has a primary key,
      its tracking ID is its origin code and the rendering of a value in
      1..counter. */
  predicate Backed(r: ProductTrackingId, counter: int)
  {
    && r.id.Some?
    && TF.IsCountryCode(r.originCountryId)
    && 1 <= TF.ValueOf(r.trackingId) <= counter
    && r.trackingId == TF.Format(r.originCountryId, TF.ValueOf(r.trackingId))
  }

  /** A message on the topic whose payload a consumer decodes to a stored
      record. */
  predicate FromStore(m: Message, records: seq<ProductTrackingId>)
  {
    m.topic == KafkaTopic && FromJson(m.payload).Some? && FromJson(m.payload).value in records
  }

  predicate Valid(s: Store)
  {
    && 0 <= s.counter <= MaxLong
    && (forall i :: 0 <= i < |s.records| ==> Backed(s.records[i], s.counter))
    && (forall i, j :: 0 <= i < j < |s.records| ==>
          TF.ValueOf(s.records[i].trackingId) < TF.ValueOf(s.records[j].trackingId))
    && (forall k :: 0 <= k < |s.published| ==> FromStore(s.published[k], s.records))
  }

  function Initial(): Store
  {
    Store(0, [], [])
  }

  lemma InitialValid()
    ensures Valid(Initial())
  {
  }

  // ---------------------------------------------------------------------
  // Properties of one call.

  /** A request of any other shape, null included, fails with "Invalid
      request type" and touches nothing. */
  lemma InvalidRequestChangesNothing(s: Store, request: Request, counterReply: CounterReply,
                                     saveReply: SaveReply, sendReply: SendReply)
    requires !request.ByQueryParams?
    ensures Generate(s, request, counterReply, saveReply, sendReply)
            == Run(s, Failure(ProductTrackingIdGenerationException(InvalidRequestMessage)))
  {
  }

  /** One call makes at most one allocation: the counter never decreases
      and rises by one exactly when the store performed the increment. */
  lemma CounterAdvancesAtMostOnce(s: Store, request: Request, counterReply: CounterReply,
                                  saveReply: SaveReply, sendReply: SendReply)
    ensures var c := Generate(s, request, counterReply, saveReply, sendReply).after.counter;
            (c == s.counter + 1 <==> request.ByQueryParams? && counterReply.Incremented? && s.counter < MaxLong)
            && (c == s.counter || c == s.counter + 1)
  {
  }

  /** When the counter yields no value nothing is saved and nothing is
      published; an empty reply fails with "Unable to generate Id from
      redis", an error of the store is passed on. */
  lemma NoPersistWithoutAllocation(s: Store, p: QueryParams, counterReply: CounterReply,
                                   saveReply: SaveReply, sendReply: SendReply)
    requires !Increment(s.counter, counterReply).Allocated?
    ensures var run := Generate(s, ByQueryParams(p), counterReply, saveReply, sendReply);
            && run.after == s
            && run.result.Failure?
            && (counterReply.EmptyReply? ==>
                  run.result.error == ProductTrackingIdGenerationException(NoCounterValueMessage))
            && (counterReply.CounterUnavailable? ==>
                  run.result.error == CounterStoreException(counterReply.cause))
  {
  }

  /** A record the call stores is the one built from the request: the
      primary key the store assigned, the formatted tracking ID of the
      freshly allocated value, the customer id as its UUID renders, and
      every other field copied from the request. */
  lemma StoredRecordCopiesRequest(s: Store, p: QueryParams, counterReply: CounterReply,
                                  saveReply: SaveReply, sendReply: SendReply)
    requires |Generate(s, ByQueryParams(p), counterReply, saveReply, sendReply).after.records| != |s.records|
    ensures var records := Generate(s, ByQueryParams(p), counterReply, saveReply, sendReply).after.records;
            && |records| == |s.records| + 1
            && saveReply.Saved?
            && var r := records[|s.records|];
               && r.id == Some(saveReply.assignedId)
               && r.trackingId == p.originCountryId + Radix36.Render(s.counter + 1)
               && r.originCountryId == p.originCountryId
               && r.destinationCountryId == p.destinationCountryId
               && r.weight == p.weight
               && r.createdAt == p.createdAt
               && r.customerId == UuidText(p.customerId)
               && r.customerName == p.customerName
               && r.customerSlug == p.customerSlug
  {
  }

  /** When the save fails nothing is published and the allocated counter
      value stays consumed. */
  lemma NoPublishWithoutPersist(s: Store, p: QueryParams, saveReply: SaveReply, sendReply: SendReply)
    requires Increment(s.counter, Incremented).Allocated?
    requires Save(s.records, NewRecord(p, TF.Format(p.originCountryId, s.counter + 1)), saveReply).Failure?
    ensures var run := Generate(s, ByQueryParams(p), Incremented, saveReply, sendReply);
            && run.after == s.(counter := s.counter + 1)
            && run.result.Failure?
            && run.result.error.ProductTrackingIdGenerationException?
            && run.result.error.message[..|SaveFailurePrefix|] == SaveFailurePrefix
  {
  }

  /** A failed publish after a successful save fails the call, yet the saved
      record remains in the store (the orphan-success state). */
  lemma PublishFailureKeepsRecord(s: Store, p: QueryParams, assignedId: string, cause: string)
    requires s.counter < MaxLong
    requires !HasTrackingId(s.records, TF.Format(p.originCountryId, s.counter + 1))
    ensures var run := Generate(s, ByQueryParams(p), Incremented, Saved(assignedId), SendFailed(cause));
            && run.after.counter == s.counter + 1
            && run.after.records == s.records + [NewRecord(p, TF.Format(p.originCountryId, s.counter + 1)).(id := Some(assignedId))]
            && run.after.published == s.published
            && run.result == Failure(ProductTrackingIdGenerationException(PublishFailurePrefix + cause))
  {
  }

  /** A successful call saved one record with the next tracking ID, published
      its JSON to the topic, and returns that JSON. */
  lemma SuccessPublishesSavedRecord(s: Store, request: Request, counterReply: CounterReply,
                                    saveReply: SaveReply, sendReply: SendReply)
    requires Generate(s, request, counterReply, saveReply, sendReply).result.Success?
    ensures var run := Generate(s, request, counterReply, saveReply, sendReply);
            && request.ByQueryParams?
            && counterReply.Incremented? && saveReply.Saved? && sendReply.Acknowledged?
            && run.after.counter == s.counter + 1
            && |run.after.records| == |s.records| + 1
            && run.after.records[..|s.records|] == s.records
            && var saved := run.after.records[|s.records|];
               && saved == NewRecord(request.params, TF.Format(request.params.originCountryId, s.counter + 1))
                           .(id := Some(saveReply.assignedId))
               && run.after.published == s.published + [Message(KafkaTopic, run.result.value)]
               && FromJson(run.result.value) == Some(saved)
  {
    var run := Generate(s, request, counterReply, saveReply, sendReply);
    FromToJson(run.after.records[|s.records|]);
    assert (s.records + [run.after.records[|s.records|]])[..|s.records|] == s.records;
  }

  // ---------------------------------------------------------------------
  // Uniqueness.

  /** The next tracking ID is not yet in the store: under the invariant the
      unique index never rejects it. */
  lemma FreshTrackingIdNotStored(s: Store, origin: string)
    requires Valid(s) && s.counter < MaxLong
    requires TF.IsCountryCode(origin)
    ensures !HasTrackingId(s.records, TF.Format(origin, s.counter + 1))
  {
    var t := TF.Format(origin, s.counter + 1);
    TF.DecodeFormat(origin, s.counter + 1);
    assert TF.ValueOf(t) == s.counter + 1;
    forall i | 0 <= i < |s.records|
      ensures s.records[i].trackingId != t
    {
      assert Backed(s.records[i], s.counter);
    }
  }

  /** Stored tracking IDs are pairwise distinct. */
  lemma TrackingIdsUnique(s: Store)
    requires Valid(s)
    ensures forall i, j :: 0 <= i < j < |s.records| ==> s.records[i].trackingId != s.records[j].trackingId
  {
  }

  /** Consuming a counter value keeps the invariant. */
  lemma BumpPreservesValid(s: Store)
    requires Valid(s) && s.counter < MaxLong
    ensures Valid(s.(counter := s.counter + 1))
  {
    forall i | 0 <= i < |s.records|
      ensures Backed(s.records[i], s.counter + 1)
    {
      assert Backed(s.records[i], s.counter);
    }
  }

  /** Storing a record backed by the freshly consumed value, and publishing
      it or not, keeps the invariant. */
  lemma StorePreservesValid(s: Store, saved: ProductTrackingId, publish: bool)
    requires Valid(s) && s.counter < MaxLong
    requires Backed(saved, s.counter + 1) && TF.ValueOf(saved.trackingId) == s.counter + 1
    ensures Valid(Store(s.counter + 1, s.records + [saved],
                        if publish then s.published + [MessageOf(saved)] else s.published))
  {
    var v := s.counter + 1;
    var records := s.records + [saved];
    var published := if publish then s.published + [MessageOf(saved)] else s.published;
    forall i | 0 <= i < |records|
      ensures Backed(records[i], v)
    {
      if i < |s.records| {
        assert Backed(s.records[i], s.counter);
      }
    }
    forall i, j | 0 <= i < j < |records|
      ensures TF.ValueOf(records[i].trackingId) < TF.ValueOf(records[j].trackingId)
    {
      assert Backed(records[i], s.counter);
    }
    forall k | 0 <= k < |published|
      ensures FromStore(published[k], records)
    {
      if k < |s.published| {
        assert FromStore(s.published[k], s.records);
      } else {
        FromToJson(saved);
      }
    }
  }

  /** Every call on validated input keeps the invariant. */
  lemma GeneratePreservesValid(s: Store, request: Request, counterReply: CounterReply,
                               saveReply: SaveReply, sendReply: SendReply)
    requires Valid(s) && ValidRequest(request)
    ensures Valid(Generate(s, request, counterReply, saveReply, sendReply).after)
  {
    var run := Generate(s, request, counterReply, saveReply, sendReply);
    if request.ByQueryParams? && Increment(s.counter, counterReply).Allocated? {
      var p := request.params;
      var v := s.counter + 1;
      var t := TF.Format(p.originCountryId, v);
      FreshTrackingIdNotStored(s, p.originCountryId);
      if saveReply.Saved? {
        TF.DecodeFormat(p.originCountryId, v);
        var saved := NewRecord(p, t).(id := Some(saveReply.assignedId));
        StorePreservesValid(s, saved, sendReply.Acknowledged?);
      } else {
        BumpPreservesValid(s);
      }
    }
  }

  /** Two successive calls whose increments the counter store performed
      format different tracking IDs, whatever became of the first call's
      save and send: its counter value stays consumed. */
  lemma SuccessiveCallsIssueDistinctIds(s: Store, p1: QueryParams, p2: QueryParams,
                                        saveReply1: SaveReply, sendReply1: SendReply)
    requires ValidParams(p1) && ValidParams(p2)
    ensures var s1 := Generate(s, ByQueryParams(p1), Incremented, saveReply1, sendReply1).after;
            var id1 := GenerateTrackingId(p1, s.counter, Incremented);
            var id2 := GenerateTrackingId(p2, s1.counter, Incremented);
            && (s.counter + 1 < MaxLong ==> id1.Success? && id2.Success?)
            && (id1.Success? && id2.Success? ==> id1.value != id2.value)
  {
    var s1 := Generate(s, ByQueryParams(p1), Incremented, saveReply1, sendReply1).after;
    var id1 := GenerateTrackingId(p1, s.counter, Incremented);
    var id2 := GenerateTrackingId(p2, s1.counter, Incremented);
    if id1.Success? && id2.Success? {
      assert s1.counter == s.counter + 1;
      if id1.value == id2.value {
        TF.FormatInjective(p1.originCountryId, s.counter + 1, p2.originCountryId, s1.counter + 1);
      }
    }
  }

  /** When every adapter succeeds on a valid state below the counter's
      limit, the call succeeds: the unique index never rejects the fresh
      tracking ID, the record is stored and published, and its JSON is
      returned. */
  lemma AllRepliesSucceed(s: Store, p: QueryParams, assignedId: string)
    requires Valid(s) && ValidParams(p) && s.counter < MaxLong
    ensures var saved := NewRecord(p, TF.Format(p.originCountryId, s.counter + 1)).(id := Some(assignedId));
            Generate(s, ByQueryParams(p), Incremented, Saved(assignedId), Acknowledged)
            == Run(Store(s.counter + 1, s.records + [saved], s.published + [MessageOf(saved)]),
                   Success(ToJson(saved)))
  {
    FreshTrackingIdNotStored(s, p.originCountryId);
  }

  /** The first call on a fresh counter with origin "LK", when every
      adapter succeeds, issues "LK1" and returns the saved record's JSON. */
  lemma FirstLkCallIssuesLk1(p: QueryParams, assignedId: string)
    requires p.originCountryId == "LK"
    ensures var run := Generate(Initial(), ByQueryParams(p), Incremented, Saved(assignedId), Acknowledged);
            && run.result.Success?
            && StringMember(run.result.value, "trackingId") == Some("LK1")
            && run.after.counter == 1
            && run.after.published == [Message(KafkaTopic, run.result.value)]
  {
    TF.FirstLkTrackingId();
    var saved := NewRecord(p, "LK1").(id := Some(assignedId));
    MembersOfToJson(saved);
  }
}
