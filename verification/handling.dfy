/**
  `HandleMessage` and its side channels (`sendDeadLetter`,
  `updatePayloadTracker`) in consumer/processing.go: the outcome of
  `processMessage` is routed to the counters, the consumer-error record, the
  dead-letter queue and the payload tracker, whose failures are absorbed.
 */
module Handling {
  import opened Wrappers
  import opened Message
  import opened Effects
  import opened Parsing
  import opened Policy
  import opened Processing

  /**
    The consumer: configuration, library codecs, store, and the optional
    dead-letter and payload-tracker producers (`None` when not configured).
    Each producer answers whether its send succeeded.
   */
  datatype Consumer = Consumer(
    config: Config,
    codecs: Codecs,
    store: Store,
    deadLetterProducer: Option<KafkaMessage -> bool>,
    payloadTrackerProducer: Option<TrackRequest -> bool>)

  /**
    The counters `HandleMessage` maintains: the consumed-messages and
    consuming-errors metrics, and the consumer's own error and success counts.
   */
  datatype Counters = Counters(
    consumedMessages: nat,
    consumingErrors: nat,
    numberOfErrors: nat,
    numberOfSuccesses: nat)

  /** What handling one message did and returned. */
  datatype Handled = Handled(trace: seq<Effect>, counters: Counters, error: Option<ConsumerError>)

  /** `updatePayloadTracker`: one notification when a tracker is configured; a failed one is only logged. */
  function UpdatePayloadTracker(
    consumer: Consumer, requestId: RequestId, org: Option<OrgId>, account: Option<Account>,
    status: TrackerStatus)
    : (t: seq<Effect>)
    ensures Tracked(t) == (if consumer.payloadTrackerProducer.Some? then [status] else [])
    ensures consumer.payloadTrackerProducer.Some? ==> t[0] == TrackPayload(TrackRequest(requestId, org, account, status))
    ensures DataWrites(t) == []
    ensures CountKind(t, ErrorRecordKind) == 0 && CountKind(t, DeadLetterKind) == 0
  {
    match consumer.payloadTrackerProducer
    case None => []
    case Some(track) =>
      var request := TrackRequest(requestId, org, account, status);
      if track(request) then [TrackPayload(request)]
      else
        var t := [TrackPayload(request), Log(TrackerNotUpdated(status))];
        assert t[1..] == [Log(TrackerNotUpdated(status))];
        LogInvisible(TrackerNotUpdated(status));
        t
  }

  /** `sendDeadLetter`: one send when a producer is configured; a failed send is only logged. */
  function SendDeadLetter(consumer: Consumer, msg: KafkaMessage): (t: seq<Effect>)
    ensures CountKind(t, DeadLetterKind) == (if consumer.deadLetterProducer.Some? then 1 else 0)
    ensures consumer.deadLetterProducer.Some? ==> t[0] == DeadLetter(msg)
    ensures DataWrites(t) == [] && Tracked(t) == [] && CountKind(t, ErrorRecordKind) == 0
  {
    match consumer.deadLetterProducer
    case None => []
    case Some(send) =>
      if send(msg) then [DeadLetter(msg)]
      else
        var t := [DeadLetter(msg), Log(DeadLetterNotSent)];
        assert t[1..] == [Log(DeadLetterNotSent)];
        LogInvisible(DeadLetterNotSent);
        t
  }

  /** The consumer-error record of a failed message; a failure to store it is only logged. */
  function WriteConsumerError(consumer: Consumer, msg: KafkaMessage, err: ConsumerError): (t: seq<Effect>)
    ensures CountKind(t, ErrorRecordKind) == 1
    ensures t[0] == RecordConsumerError(msg, err)
    ensures DataWrites(t) == [] && Tracked(t) == [] && CountKind(t, DeadLetterKind) == 0
  {
    if consumer.store.writeConsumerError(msg, err) then [RecordConsumerError(msg, err)]
    else
      var t := [RecordConsumerError(msg, err), Log(ConsumerErrorNotStored)];
      assert t[1..] == [Log(ConsumerErrorNotStored)];
      LogInvisible(ConsumerErrorNotStored);
      t
  }

  /**
    The part of `HandleMessage` after processing returned `p`: the tracker is
    told the message was received and processed, then the outcome is routed.
   */
  function RouteOutcome(consumer: Consumer, counters: Counters, msg: KafkaMessage, p: Processed)
    : (h: Handled)
    ensures h.error == p.error
    ensures h.error.Some? ==> h.counters == counters.(
      consumedMessages := counters.consumedMessages + 1,
      consumingErrors := counters.consumingErrors + 1,
      numberOfErrors := counters.numberOfErrors + 1)
    ensures h.error.None? ==> h.counters == counters.(
      consumedMessages := counters.consumedMessages + 1,
      numberOfSuccesses := counters.numberOfSuccesses + 1)
  {
    var m := p.message;
    var consumed := counters.(consumedMessages := counters.consumedMessages + 1);
    var notified :=
      UpdatePayloadTracker(consumer, p.requestId, m.organization, m.account, Received)
      + UpdatePayloadTracker(consumer, p.requestId, m.organization, m.account, MessageProcessed);
    match p.error
    case Some(err) =>
      Handled(
        p.trace + notified + WriteConsumerError(consumer, msg, err) + SendDeadLetter(consumer, msg)
          + UpdatePayloadTracker(consumer, p.requestId, m.organization, m.account, Error),
        consumed.(consumingErrors := counters.consumingErrors + 1, numberOfErrors := counters.numberOfErrors + 1),
        p.error)
    case None =>
      Handled(
        p.trace + notified + UpdatePayloadTracker(consumer, p.requestId, m.organization, m.account, Success),
        consumed.(numberOfSuccesses := counters.numberOfSuccesses + 1),
        None)
  }

  /**
    `HandleMessage`: processes the message and routes the outcome. It returns
    the error of processing unchanged; a failure adds one to the error counts
    and a success one to the success count, and every message one to the
    consumed count.
   */
  function HandleMessage(consumer: Consumer, now: Time, counters: Counters, msg: KafkaMessage)
    : (h: Handled)
    ensures h.error == ProcessMessage(consumer.config, consumer.codecs, consumer.store, now, msg).error
    ensures h.error.Some? ==> h.counters == counters.(
      consumedMessages := counters.consumedMessages + 1,
      consumingErrors := counters.consumingErrors + 1,
      numberOfErrors := counters.numberOfErrors + 1)
    ensures h.error.None? ==> h.counters == counters.(
      consumedMessages := counters.consumedMessages + 1,
      numberOfSuccesses := counters.numberOfSuccesses + 1)
  {
    RouteOutcome(consumer, counters, msg, ProcessMessage(consumer.config, consumer.codecs, consumer.store, now, msg))
  }
}

module HandlingProperties {
  import opened Wrappers
  import opened Message
  import opened Effects
  import opened Parsing
  import opened Policy
  import opened Processing
  import opened ProcessingProperties
  import opened Handling

  /** The same consumer with other consumer-error, dead-letter and tracker behaviour. */
  function WithSideChannels(
    consumer: Consumer, recordError: (KafkaMessage, ConsumerError) -> bool,
    deadLetter: Option<KafkaMessage -> bool>, tracker: Option<TrackRequest -> bool>)
    : Consumer
  {
    consumer.(store := consumer.store.(writeConsumerError := recordError),
              deadLetterProducer := deadLetter,
              payloadTrackerProducer := tracker)
  }

  /** Processing reads only the store's answers to data writes. */
  lemma ProcessingIgnoresErrorRecording(
    config: Config, codecs: Codecs, store: Store, now: Time, msg: KafkaMessage,
    recordError: (KafkaMessage, ConsumerError) -> bool)
    ensures ProcessMessage(config, codecs, store.(writeConsumerError := recordError), now, msg)
      == ProcessMessage(config, codecs, store, now, msg)
  {
  }

  /**
    Failures of the consumer-error record, the dead-letter send or the tracker
    never change what is returned, the counters, or the data written.
   */
  lemma SideChannelsNeverDecide(
    consumer: Consumer, now: Time, counters: Counters, msg: KafkaMessage,
    recordError: (KafkaMessage, ConsumerError) -> bool,
    deadLetter: Option<KafkaMessage -> bool>, tracker: Option<TrackRequest -> bool>)
    ensures var h1 := HandleMessage(consumer, now, counters, msg);
      var h2 := HandleMessage(WithSideChannels(consumer, recordError, deadLetter, tracker), now, counters, msg);
      && h1.error == h2.error && h1.counters == h2.counters
      && DataWrites(h1.trace) == DataWrites(h2.trace)
  {
    ProcessingIgnoresErrorRecording(consumer.config, consumer.codecs, consumer.store, now, msg, recordError);
    RoutingWritesNoData(consumer, now, counters, msg);
    RoutingWritesNoData(WithSideChannels(consumer, recordError, deadLetter, tracker), now, counters, msg);
  }

  /** Effects processing can cause: data writes and log lines only. */
  ghost predicate ProcessingEffectsOnly(p: Processed) {
    forall i :: 0 <= i < |p.trace| ==> p.trace[i].StoreWrite? || p.trace[i].Log?
  }

  ghost function Notified(consumer: Consumer, p: Processed, status: TrackerStatus): seq<Effect> {
    UpdatePayloadTracker(consumer, p.requestId, p.message.organization, p.message.account, status)
  }

  lemma RouteShapeOnFailure(consumer: Consumer, counters: Counters, msg: KafkaMessage, p: Processed)
    requires p.error.Some?
    ensures RouteOutcome(consumer, counters, msg, p).trace ==
      p.trace + (Notified(consumer, p, Received) + Notified(consumer, p, MessageProcessed))
        + WriteConsumerError(consumer, msg, p.error.value) + SendDeadLetter(consumer, msg)
        + Notified(consumer, p, Error)
  {
  }

  lemma RouteShapeOnSuccess(consumer: Consumer, counters: Counters, msg: KafkaMessage, p: Processed)
    requires p.error.None?
    ensures RouteOutcome(consumer, counters, msg, p).trace ==
      p.trace + (Notified(consumer, p, Received) + Notified(consumer, p, MessageProcessed))
        + Notified(consumer, p, Success)
  {
  }

  /** Processing effects contain no consumer-error record and no dead-letter send. */
  lemma ProcessingRoutesNothing(p: Processed)
    requires ProcessingEffectsOnly(p)
    ensures CountKind(p.trace, ErrorRecordKind) == 0 && CountKind(p.trace, DeadLetterKind) == 0
  {
    CountKindZero(p.trace, ErrorRecordKind);
    CountKindZero(p.trace, DeadLetterKind);
  }

  /** The first effect of each non-empty piece of a routed trace occurs in it. */
  lemma HeadsInRoute(a: seq<Effect>, r: seq<Effect>, q: seq<Effect>, c: seq<Effect>, d: seq<Effect>, e: seq<Effect>)
    ensures r != [] ==> r[0] in a + (r + q) + c + d + e
    ensures q != [] ==> q[0] in a + (r + q) + c + d + e
    ensures c != [] ==> c[0] in a + (r + q) + c + d + e
    ensures d != [] ==> d[0] in a + (r + q) + c + d + e
    ensures e != [] ==> e[0] in a + (r + q) + c + d + e
  {
    var t := a + (r + q) + c + d + e;
    if r != [] { assert t[|a|] == r[0]; }
    if q != [] { assert t[|a| + |r|] == q[0]; }
    if c != [] { assert t[|a| + |r| + |q|] == c[0]; }
    if d != [] { assert t[|a| + |r| + |q| + |c|] == d[0]; }
    if e != [] { assert t[|a| + |r| + |q| + |c| + |d|] == e[0]; }
  }

  /** The first effect of each non-empty piece of a routed trace without error routing occurs in it. */
  lemma HeadsInSuccessRoute(a: seq<Effect>, r: seq<Effect>, q: seq<Effect>, e: seq<Effect>)
    ensures r != [] ==> r[0] in a + (r + q) + e
    ensures q != [] ==> q[0] in a + (r + q) + e
    ensures e != [] ==> e[0] in a + (r + q) + e
  {
    var t := a + (r + q) + e;
    if r != [] { assert t[|a|] == r[0]; }
    if q != [] { assert t[|a| + |r|] == q[0]; }
    if e != [] { assert t[|a| + |r| + |q|] == e[0]; }
  }

  /** A routed trace counts the kinds its processing effects and its error-routing pieces `c` and `d` count. */
  lemma {:induction false} CountOfFailureRoute(a: seq<Effect>, r: seq<Effect>, q: seq<Effect>, c: seq<Effect>,
                                               d: seq<Effect>, e: seq<Effect>, k: EffectKind)
    requires CountKind(r, k) == 0 && CountKind(q, k) == 0 && CountKind(e, k) == 0
    ensures CountKind(a + (r + q) + c + d + e, k) == CountKind(a, k) + CountKind(c, k) + CountKind(d, k)
  {
    CountKindAppend(r, q, k);
    CountKindAppend(a, r + q, k);
    CountKindAppend(a + (r + q), c, k);
    CountKindAppend(a + (r + q) + c, d, k);
    CountKindAppend(a + (r + q) + c + d, e, k);
  }

  lemma RoutedFailureRecordedOnce(consumer: Consumer, counters: Counters, msg: KafkaMessage, p: Processed)
    requires ProcessingEffectsOnly(p) && p.error.Some?
    ensures var h := RouteOutcome(consumer, counters, msg, p);
      && CountKind(h.trace, ErrorRecordKind) == 1
      && CountKind(h.trace, DeadLetterKind) == (if consumer.deadLetterProducer.Some? then 1 else 0)
  {
    var received := Notified(consumer, p, Received);
    var processed := Notified(consumer, p, MessageProcessed);
    var recorded := WriteConsumerError(consumer, msg, p.error.value);
    var sent := SendDeadLetter(consumer, msg);
    var last := Notified(consumer, p, Error);
    RouteShapeOnFailure(consumer, counters, msg, p);
    ProcessingRoutesNothing(p);
    CountOfFailureRoute(p.trace, received, processed, recorded, sent, last, ErrorRecordKind);
    CountOfFailureRoute(p.trace, received, processed, recorded, sent, last, DeadLetterKind);
  }

  lemma RoutedFailureCarriesError(consumer: Consumer, counters: Counters, msg: KafkaMessage, p: Processed)
    requires p.error.Some?
    ensures var t := RouteOutcome(consumer, counters, msg, p).trace;
      && RecordConsumerError(msg, p.error.value) in t
      && (consumer.deadLetterProducer.Some? ==> DeadLetter(msg) in t)
  {
    RouteShapeOnFailure(consumer, counters, msg, p);
    HeadsInRoute(p.trace, Notified(consumer, p, Received), Notified(consumer, p, MessageProcessed),
                 WriteConsumerError(consumer, msg, p.error.value), SendDeadLetter(consumer, msg),
                 Notified(consumer, p, Error));
  }

  /** A routed trace with no error-routing pieces counts only the kinds its processing effects count. */
  lemma {:induction false} CountOfSuccessRoute(a: seq<Effect>, r: seq<Effect>, q: seq<Effect>, e: seq<Effect>,
                                               k: EffectKind)
    requires CountKind(r, k) == 0 && CountKind(q, k) == 0 && CountKind(e, k) == 0
    ensures CountKind(a + (r + q) + e, k) == CountKind(a, k)
  {
    CountKindAppend(r, q, k);
    CountKindAppend(a, r + q, k);
    CountKindAppend(a + (r + q), e, k);
  }

  lemma RoutedSuccessNotRecorded(consumer: Consumer, counters: Counters, msg: KafkaMessage, p: Processed)
    requires ProcessingEffectsOnly(p) && p.error.None?
    ensures var h := RouteOutcome(consumer, counters, msg, p);
      CountKind(h.trace, ErrorRecordKind) == 0 && CountKind(h.trace, DeadLetterKind) == 0
  {
    var received := Notified(consumer, p, Received);
    var processed := Notified(consumer, p, MessageProcessed);
    var last := Notified(consumer, p, Success);
    RouteShapeOnSuccess(consumer, counters, msg, p);
    ProcessingRoutesNothing(p);
    CountOfSuccessRoute(p.trace, received, processed, last, ErrorRecordKind);
    CountOfSuccessRoute(p.trace, received, processed, last, DeadLetterKind);
  }

  /**
    The notifications of a routed trace: the processing effects `a`, the
    received and processed notifications `r` and `q`, the error-routing
    pieces `c` and `d`, and the final notification `e`.
   */
  lemma {:induction false} TrackedOfRoute(a: seq<Effect>, r: seq<Effect>, q: seq<Effect>, c: seq<Effect>,
                                          d: seq<Effect>, e: seq<Effect>, on: bool, last: TrackerStatus)
    requires Tracked(a) == [] && Tracked(c) == [] && Tracked(d) == []
    requires Tracked(r) == (if on then [Received] else [])
    requires Tracked(q) == (if on then [MessageProcessed] else [])
    requires Tracked(e) == (if on then [last] else [])
    ensures Tracked(a + (r + q) + c + d + e) == if on then [Received, MessageProcessed, last] else []
  {
    TrackedAppend(r, q);
    TrackedAppend(a, r + q);
    TrackedAppend(a + (r + q), c);
    TrackedAppend(a + (r + q) + c, d);
    TrackedAppend(a + (r + q) + c + d, e);
  }

  /** The notifications of a routed trace with no error-routing pieces. */
  lemma {:induction false} TrackedOfSuccessRoute(a: seq<Effect>, r: seq<Effect>, q: seq<Effect>, e: seq<Effect>,
                                                 on: bool)
    requires Tracked(a) == []
    requires Tracked(r) == (if on then [Received] else [])
    requires Tracked(q) == (if on then [MessageProcessed] else [])
    requires Tracked(e) == (if on then [Success] else [])
    ensures Tracked(a + (r + q) + e) == if on then [Received, MessageProcessed, Success] else []
  {
    TrackedAppend(r, q);
    TrackedAppend(a, r + q);
    TrackedAppend(a + (r + q), e);
  }

  lemma RoutedFailureTrackerOrder(consumer: Consumer, counters: Counters, msg: KafkaMessage, p: Processed)
    requires ProcessingEffectsOnly(p) && p.error.Some?
    ensures Tracked(RouteOutcome(consumer, counters, msg, p).trace) ==
      if consumer.payloadTrackerProducer.None? then [] else [Received, MessageProcessed, Error]
  {
    RouteShapeOnFailure(consumer, counters, msg, p);
    NothingTracked(p.trace);
    TrackedOfRoute(p.trace, Notified(consumer, p, Received), Notified(consumer, p, MessageProcessed),
                   WriteConsumerError(consumer, msg, p.error.value), SendDeadLetter(consumer, msg),
                   Notified(consumer, p, Error), consumer.payloadTrackerProducer.Some?, Error);
  }

  lemma RoutedSuccessTrackerOrder(consumer: Consumer, counters: Counters, msg: KafkaMessage, p: Processed)
    requires ProcessingEffectsOnly(p) && p.error.None?
    ensures Tracked(RouteOutcome(consumer, counters, msg, p).trace) ==
      if consumer.payloadTrackerProducer.None? then [] else [Received, MessageProcessed, Success]
  {
    RouteShapeOnSuccess(consumer, counters, msg, p);
    NothingTracked(p.trace);
    TrackedOfSuccessRoute(p.trace, Notified(consumer, p, Received), Notified(consumer, p, MessageProcessed),
                          Notified(consumer, p, Success), consumer.payloadTrackerProducer.Some?);
  }

  /** The tracker request for `status` about the message processing returned. */
  ghost function RequestAbout(p: Processed, status: TrackerStatus): TrackRequest {
    TrackRequest(p.requestId, p.message.organization, p.message.account, status)
  }

  lemma RoutedFailureNotifications(consumer: Consumer, counters: Counters, msg: KafkaMessage, p: Processed)
    requires p.error.Some? && consumer.payloadTrackerProducer.Some?
    ensures var t := RouteOutcome(consumer, counters, msg, p).trace;
      && TrackPayload(RequestAbout(p, Received)) in t
      && TrackPayload(RequestAbout(p, MessageProcessed)) in t
      && TrackPayload(RequestAbout(p, Error)) in t
  {
    RouteShapeOnFailure(consumer, counters, msg, p);
    HeadsInRoute(p.trace, Notified(consumer, p, Received), Notified(consumer, p, MessageProcessed),
                 WriteConsumerError(consumer, msg, p.error.value), SendDeadLetter(consumer, msg),
                 Notified(consumer, p, Error));
  }

  lemma RoutedSuccessNotifications(consumer: Consumer, counters: Counters, msg: KafkaMessage, p: Processed)
    requires p.error.None? && consumer.payloadTrackerProducer.Some?
    ensures var t := RouteOutcome(consumer, counters, msg, p).trace;
      && TrackPayload(RequestAbout(p, Received)) in t
      && TrackPayload(RequestAbout(p, MessageProcessed)) in t
      && TrackPayload(RequestAbout(p, Success)) in t
  {
    RouteShapeOnSuccess(consumer, counters, msg, p);
    HeadsInSuccessRoute(p.trace, Notified(consumer, p, Received), Notified(consumer, p, MessageProcessed),
                        Notified(consumer, p, Success));
  }

  /** The data writes of a routed trace whose notification and error-routing pieces write no data. */
  lemma {:induction false} DataWritesOfRoute(a: seq<Effect>, r: seq<Effect>, q: seq<Effect>, c: seq<Effect>,
                                             d: seq<Effect>, e: seq<Effect>)
    requires DataWrites(r) == [] && DataWrites(q) == [] && DataWrites(c) == []
    requires DataWrites(d) == [] && DataWrites(e) == []
    ensures DataWrites(a + (r + q) + c + d + e) == DataWrites(a)
    ensures DataWrites(a + (r + q) + e) == DataWrites(a)
  {
    DataWritesAppend(r, q);
    DataWritesAppend(a, r + q);
    DataWritesAppend(a + (r + q), c);
    DataWritesAppend(a + (r + q) + c, d);
    DataWritesAppend(a + (r + q) + c + d, e);
    DataWritesAppend(a + (r + q), e);
  }

  lemma RoutedDataWrites(consumer: Consumer, counters: Counters, msg: KafkaMessage, p: Processed)
    ensures DataWrites(RouteOutcome(consumer, counters, msg, p).trace) == DataWrites(p.trace)
  {
    var received := Notified(consumer, p, Received);
    var processed := Notified(consumer, p, MessageProcessed);
    if p.error.Some? {
      RouteShapeOnFailure(consumer, counters, msg, p);
      DataWritesOfRoute(p.trace, received, processed, WriteConsumerError(consumer, msg, p.error.value),
                        SendDeadLetter(consumer, msg), Notified(consumer, p, Error));
    } else {
      RouteShapeOnSuccess(consumer, counters, msg, p);
      DataWritesOfRoute(p.trace, received, processed, [], [], Notified(consumer, p, Success));
    }
  }

  /** Routing a success adds no data write, no record and no dead-letter send, and counts one success. */
  lemma RoutedSuccess(consumer: Consumer, counters: Counters, msg: KafkaMessage, p: Processed)
    requires ProcessingEffectsOnly(p) && p.error.None?
    ensures var h := RouteOutcome(consumer, counters, msg, p);
      && h.error.None?
      && DataWrites(h.trace) == DataWrites(p.trace)
      && CountKind(h.trace, ErrorRecordKind) == 0
      && CountKind(h.trace, DeadLetterKind) == 0
      && h.counters == counters.(consumedMessages := counters.consumedMessages + 1,
                                 numberOfSuccesses := counters.numberOfSuccesses + 1)
  {
    RoutedDataWrites(consumer, counters, msg, p);
    RoutedSuccessNotRecorded(consumer, counters, msg, p);
  }

  /**
    A failed message is recorded as a consumer error exactly once, with the
    returned error, and sent to the dead-letter queue once when a producer is
    configured and never otherwise.
   */
  lemma FailureIsRecordedAndDeadLettered(consumer: Consumer, now: Time, counters: Counters, msg: KafkaMessage)
    ensures var h := HandleMessage(consumer, now, counters, msg);
      h.error.Some? ==>
        && CountKind(h.trace, ErrorRecordKind) == 1
        && RecordConsumerError(msg, h.error.value) in h.trace
        && CountKind(h.trace, DeadLetterKind) == (if consumer.deadLetterProducer.Some? then 1 else 0)
        && (consumer.deadLetterProducer.Some? ==> DeadLetter(msg) in h.trace)
  {
    var p := ProcessMessage(consumer.config, consumer.codecs, consumer.store, now, msg);
    if p.error.Some? {
      RoutedFailureRecordedOnce(consumer, counters, msg, p);
      RoutedFailureCarriesError(consumer, counters, msg, p);
    }
  }

  /** A successful message is neither recorded as a consumer error nor sent to the dead-letter queue. */
  lemma SuccessIsNotRouted(consumer: Consumer, now: Time, counters: Counters, msg: KafkaMessage)
    ensures var h := HandleMessage(consumer, now, counters, msg);
      h.error.None? ==>
        CountKind(h.trace, ErrorRecordKind) == 0 && CountKind(h.trace, DeadLetterKind) == 0
  {
    var p := ProcessMessage(consumer.config, consumer.codecs, consumer.store, now, msg);
    if p.error.None? {
      RoutedSuccessNotRecorded(consumer, counters, msg, p);
    }
  }

  /**
    With a tracker configured, it is told "received", then "processed", then
    "error" or "success" according to the outcome; without one, nothing is sent.
   */
  lemma TrackerNotifiedInOrder(consumer: Consumer, now: Time, counters: Counters, msg: KafkaMessage)
    ensures var h := HandleMessage(consumer, now, counters, msg);
      Tracked(h.trace) ==
        if consumer.payloadTrackerProducer.None? then []
        else [Received, MessageProcessed, if h.error.Some? then Error else Success]
  {
    var p := ProcessMessage(consumer.config, consumer.codecs, consumer.store, now, msg);
    if p.error.Some? {
      RoutedFailureTrackerOrder(consumer, counters, msg, p);
    } else {
      RoutedSuccessTrackerOrder(consumer, counters, msg, p);
    }
  }

  /**
    Every notification is about the consumed message: it carries the request
    id, organization and account the parser read from it.
   */
  lemma TrackerNotificationsCarryTheMessage(consumer: Consumer, now: Time, counters: Counters, msg: KafkaMessage)
    requires consumer.payloadTrackerProducer.Some?
    ensures var h := HandleMessage(consumer, now, counters, msg);
      var m := ParseMessage(consumer.codecs, msg.value).message;
      forall status | status in [Received, MessageProcessed, if h.error.Some? then Error else Success] ::
        TrackPayload(TrackRequest(m.requestId, m.organization, m.account, status)) in h.trace
  {
    var p := ProcessMessage(consumer.config, consumer.codecs, consumer.store, now, msg);
    if p.error.Some? {
      RoutedFailureNotifications(consumer, counters, msg, p);
    } else {
      RoutedSuccessNotifications(consumer, counters, msg, p);
    }
  }

  /** Routing adds no data write: the store sees exactly the writes of processing. */
  lemma RoutingWritesNoData(consumer: Consumer, now: Time, counters: Counters, msg: KafkaMessage)
    ensures DataWrites(HandleMessage(consumer, now, counters, msg).trace)
      == DataWrites(ProcessMessage(consumer.config, consumer.codecs, consumer.store, now, msg).trace)
  {
    RoutedDataWrites(consumer, counters, msg,
      ProcessMessage(consumer.config, consumer.codecs, consumer.store, now, msg));
  }

  // ---------------------------------------------------------------------------
  // The counters over many messages handled by one consumer.

  /**
    One message handed to the consumer, with the clock reading it is processed
    at and the store and producers as they answer at that moment. The store's
    answers may thus depend on what came before: a report replayed after it
    was stored can be answered `Ok` once and `Stale` the next time.
   */
  datatype Delivery = Delivery(
    now: Time,
    store: Store,
    deadLetterProducer: Option<KafkaMessage -> bool>,
    payloadTrackerProducer: Option<TrackRequest -> bool>,
    msg: KafkaMessage)

  /** The consumer as it handles delivery `d`: its configuration and codecs, with the collaborators of the moment. */
  function Serving(consumer: Consumer, d: Delivery): (c: Consumer)
    ensures c.config == consumer.config && c.codecs == consumer.codecs
    ensures c.store == d.store
    ensures c.deadLetterProducer == d.deadLetterProducer && c.payloadTrackerProducer == d.payloadTrackerProducer
  {
    consumer.(store := d.store, deadLetterProducer := d.deadLetterProducer,
              payloadTrackerProducer := d.payloadTrackerProducer)
  }

  /** The counters after handling `ds` in order. */
  function HandleMessages(consumer: Consumer, counters: Counters, ds: seq<Delivery>): Counters
    decreases |ds|
  {
    if ds == [] then counters
    else
      var d := ds[0];
      HandleMessages(consumer, HandleMessage(Serving(consumer, d), d.now, counters, d.msg).counters, ds[1..])
  }

  /** How many of `ds` fail processing. */
  function Failures(consumer: Consumer, ds: seq<Delivery>): (n: nat)
    ensures n <= |ds|
    decreases |ds|
  {
    if ds == [] then 0
    else
      var d := ds[0];
      (if ProcessMessage(consumer.config, consumer.codecs, d.store, d.now, d.msg).error.Some? then 1 else 0)
        + Failures(consumer, ds[1..])
  }

  /**
    Every handled message is counted as consumed and as exactly one of failed
    or successful; the consuming-errors metric moves with the error count.
   */
  lemma {:induction false} CountersAccumulate(consumer: Consumer, counters: Counters, ds: seq<Delivery>)
    ensures var c := HandleMessages(consumer, counters, ds);
      && c.consumedMessages == counters.consumedMessages + |ds|
      && c.numberOfErrors == counters.numberOfErrors + Failures(consumer, ds)
      && c.consumingErrors == counters.consumingErrors + Failures(consumer, ds)
      && c.numberOfSuccesses == counters.numberOfSuccesses + |ds| - Failures(consumer, ds)
    decreases |ds|
  {
    if ds != [] {
      var d := ds[0];
      var next := HandleMessage(Serving(consumer, d), d.now, counters, d.msg).counters;
      CountersAccumulate(consumer, next, ds[1..]);
    }
  }

  // ---------------------------------------------------------------------------
  // End-to-end outcomes of one message.

  /**
    A message that fails to parse (missing attribute, cluster name that is
    not a UUID, improper report, ...) is returned with the parse error, writes
    no data, is recorded once as a consumer error, reaches the dead-letter
    queue once when a producer is configured, and is not counted as a success.
   */
  lemma UnparsableMessageIsDeadLettered(consumer: Consumer, now: Time, counters: Counters, msg: KafkaMessage)
    requires ParseMessage(consumer.codecs, msg.value).error.Some?
    ensures var h := HandleMessage(consumer, now, counters, msg);
      && h.error == ParseMessage(consumer.codecs, msg.value).error
      && DataWrites(h.trace) == []
      && CountKind(h.trace, ErrorRecordKind) == 1
      && CountKind(h.trace, DeadLetterKind) == (if consumer.deadLetterProducer.Some? then 1 else 0)
      && h.counters.numberOfSuccesses == counters.numberOfSuccesses
      && h.counters.numberOfErrors == counters.numberOfErrors + 1
  {
    FailureIsRecordedAndDeadLettered(consumer, now, counters, msg);
    RoutingWritesNoData(consumer, now, counters, msg);
  }

  /**
    A message that passes every check, against a store that accepts every
    write, completes: report, recommendations and info report are written in
    that order, nothing is recorded or dead-lettered, and the success count
    goes up by one.
   */
  lemma AcceptedMessageCompletes(consumer: Consumer, now: Time, counters: Counters, msg: KafkaMessage)
    requires ReachesStore(consumer.config, consumer.codecs, msg)
    requires forall w :: consumer.store.write(w) == Ok
    ensures var h := HandleMessage(consumer, now, counters, msg);
      && h.error.None?
      && Steps(DataWrites(h.trace)) == WriteOrder
      && CountKind(h.trace, ErrorRecordKind) == 0
      && CountKind(h.trace, DeadLetterKind) == 0
      && h.counters == counters.(consumedMessages := counters.consumedMessages + 1,
                                 numberOfSuccesses := counters.numberOfSuccesses + 1)
  {
    var p := ProcessMessage(consumer.config, consumer.codecs, consumer.store, now, msg);
    AcceptingStoreStoresAll(consumer.config, consumer.codecs, consumer.store, now, msg);
    RoutedSuccess(consumer, counters, msg, p);
  }
}
