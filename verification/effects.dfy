/**
  The observable effects of processing one message, recorded as a trace, and
  the views of a trace the properties are stated in: the data writes issued to
  the store, and how many effects of each kind occurred.
 */
module Effects {
  import opened Wrappers
  import opened Message

  /** The three data writes, in the order the pipeline issues them. */
  datatype WriteStep = ReportStep | RecommendationsStep | InfoStep

  const WriteOrder: seq<WriteStep> := [ReportStep, RecommendationsStep, InfoStep]

  /** A data write request sent to the store. Wall-clock timestamps are not modelled. */
  datatype Write =
    | ReportWrite(org: OrgId, cluster: ClusterName, report: Bytes, hits: seq<ReportItem>,
                  lastChecked: Time, gatheredAt: Time, offset: int)
    | RecommendationsWrite(org: OrgId, cluster: ClusterName, report: Bytes)
    | InfoReportWrite(org: OrgId, cluster: ClusterName, info: seq<InfoItem>)
  {
    function Step(): WriteStep {
      match this
      case ReportWrite(_, _, _, _, _, _, _) => ReportStep
      case RecommendationsWrite(_, _, _) => RecommendationsStep
      case InfoReportWrite(_, _, _) => InfoStep
    }
  }

  /** Lifecycle states reported to the payload tracker. */
  datatype TrackerStatus = Received | MessageProcessed | Success | Error

  /** Log lines that carry a decision of the pipeline. */
  datatype Notice =
    | UnexpectedVersion
    | MessageFromFuture
    | ReportSkippedAsOld
    | InfoReportSkippedAsOld
    | ConsumerErrorNotStored
    | DeadLetterNotSent
    | TrackerNotUpdated(status: TrackerStatus)

  /** A request to the payload tracker (the timestamp is not modelled). */
  datatype TrackRequest = TrackRequest(
    requestId: RequestId, org: Option<OrgId>, account: Option<Account>, status: TrackerStatus)

  datatype Effect =
    | StoreWrite(write: Write)
    | RecordConsumerError(msg: KafkaMessage, err: ConsumerError)
    | DeadLetter(msg: KafkaMessage)
    | TrackPayload(request: TrackRequest)
    | Log(notice: Notice)

  datatype EffectKind = DataWriteKind | ErrorRecordKind | DeadLetterKind | TrackingKind | LogKind

  function KindOf(e: Effect): EffectKind {
    match e
    case StoreWrite(_) => DataWriteKind
    case RecordConsumerError(_, _) => ErrorRecordKind
    case DeadLetter(_) => DeadLetterKind
    case TrackPayload(_) => TrackingKind
    case Log(_) => LogKind
  }

  /** The data writes of a trace, in trace order. */
  function DataWrites(t: seq<Effect>): seq<Write>
  {
    if t == [] then []
    else (if t[0].StoreWrite? then [t[0].write] else []) + DataWrites(t[1..])
  }

  /** The steps of the data writes of a trace, in trace order. */
  function Steps(ws: seq<Write>): (ss: seq<WriteStep>)
    ensures |ss| == |ws|
    ensures forall i :: 0 <= i < |ws| ==> ss[i] == ws[i].Step()
  {
    if ws == [] then [] else [ws[0].Step()] + Steps(ws[1..])
  }

  /** Number of effects of kind `k` in `t`. */
  function CountKind(t: seq<Effect>, k: EffectKind): nat
  {
    if t == [] then 0
    else (if KindOf(t[0]) == k then 1 else 0) + CountKind(t[1..], k)
  }

  lemma {:induction false} DataWritesAppend(a: seq<Effect>, b: seq<Effect>)
    ensures DataWrites(a + b) == DataWrites(a) + DataWrites(b)
    decreases |a|
  {
    if a == [] {
      assert a + b == b;
    } else {
      assert (a + b)[0] == a[0];
      assert (a + b)[1..] == a[1..] + b;
      DataWritesAppend(a[1..], b);
    }
  }

  lemma {:induction false} CountKindAppend(a: seq<Effect>, b: seq<Effect>, k: EffectKind)
    ensures CountKind(a + b, k) == CountKind(a, k) + CountKind(b, k)
    decreases |a|
  {
    if a == [] {
      assert a + b == b;
    } else {
      assert (a + b)[0] == a[0];
      assert (a + b)[1..] == a[1..] + b;
      CountKindAppend(a[1..], b, k);
    }
  }

  /** The statuses sent to the payload tracker, in trace order. */
  function Tracked(t: seq<Effect>): seq<TrackerStatus>
  {
    if t == [] then []
    else (if t[0].TrackPayload? then [t[0].request.status] else []) + Tracked(t[1..])
  }

  lemma {:induction false} TrackedAppend(a: seq<Effect>, b: seq<Effect>)
    ensures Tracked(a + b) == Tracked(a) + Tracked(b)
    decreases |a|
  {
    if a == [] {
      assert a + b == b;
    } else {
      assert (a + b)[0] == a[0];
      assert (a + b)[1..] == a[1..] + b;
      TrackedAppend(a[1..], b);
    }
  }

  /** A trace without data writes writes no data. */
  lemma {:induction false} NoDataWrites(t: seq<Effect>)
    requires forall i :: 0 <= i < |t| ==> !t[i].StoreWrite?
    ensures DataWrites(t) == []
    decreases |t|
  {
    if t != [] {
      NoDataWrites(t[1..]);
    }
  }

  /** A trace without tracker notifications notifies no status. */
  lemma {:induction false} NothingTracked(t: seq<Effect>)
    requires forall i :: 0 <= i < |t| ==> !t[i].TrackPayload?
    ensures Tracked(t) == []
    decreases |t|
  {
    if t != [] {
      NothingTracked(t[1..]);
    }
  }

  /** No effect of kind `k` occurs in `t` exactly when `t` counts none of them. */
  lemma {:induction false} CountKindZero(t: seq<Effect>, k: EffectKind)
    ensures CountKind(t, k) == 0 <==> forall i :: 0 <= i < |t| ==> KindOf(t[i]) != k
    decreases |t|
  {
    if t != [] {
      CountKindZero(t[1..], k);
      assert forall i :: 1 <= i < |t| ==> t[i] == t[1..][i - 1];
    }
  }

  /** A log line is no data write, no notification, and no routed effect. */
  lemma LogInvisible(n: Notice)
    ensures DataWrites([Log(n)]) == [] && Tracked([Log(n)]) == []
    ensures CountKind([Log(n)], ErrorRecordKind) == 0 && CountKind([Log(n)], DeadLetterKind) == 0
  {
    assert [Log(n)][1..] == [];
  }
}
