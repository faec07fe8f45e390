/**
  `processMessage` and the two write helpers of consumer/processing.go: the
  sequence parse, version check, allow list, report encoding, timestamp check,
  then the three ordered store writes with the staleness rule.
 */
module Processing {
  import opened Wrappers
  import opened Message
  import opened Effects
  import opened Parsing
  import opened Policy

  /**
    The store as seen by the consumer while it handles one message: its reply
    to each data write, and whether recording a consumer error succeeded. Both
    are arbitrary functions of the request. A store whose answers depend on
    earlier messages is a different `Store` for each message.
   */
  datatype Store = Store(
    write: Write -> StoreReply,
    writeConsumerError: (KafkaMessage, ConsumerError) -> bool)

  /** The effects and error of one stage. */
  datatype StepResult = StepResult(trace: seq<Effect>, error: Option<ConsumerError>)

  /** What `processMessage` returns, with the effects it caused. */
  datatype Processed = Processed(
    trace: seq<Effect>,
    requestId: RequestId,
    message: IncomingMessage,
    error: Option<ConsumerError>)

  /** `writeRecommendations`: any non-`Ok` reply, staleness included, is an error. */
  function WriteRecommendations(store: Store, org: OrgId, cluster: ClusterName, report: Bytes)
    : (s: StepResult)
    ensures DataWrites(s.trace) == [RecommendationsWrite(org, cluster, report)]
    ensures s.error.None? <==> store.write(RecommendationsWrite(org, cluster, report)) == Ok
    ensures s.error.Some? ==>
      s.error == Some(StorageError(FaultOf(store.write(RecommendationsWrite(org, cluster, report)))))
    ensures forall i :: 0 <= i < |s.trace| ==> s.trace[i].StoreWrite?
  {
    var w := RecommendationsWrite(org, cluster, report);
    var reply := store.write(w);
    StepResult([StoreWrite(w)], if reply == Ok then None else Some(StorageError(FaultOf(reply))))
  }

  /** `writeInfoReport`: a stale reply is success (the write is skipped), any other failure is an error. */
  function WriteInfoReport(store: Store, org: OrgId, cluster: ClusterName, info: seq<InfoItem>)
    : (s: StepResult)
    ensures DataWrites(s.trace) == [InfoReportWrite(org, cluster, info)]
    ensures s.error.None? <==> !store.write(InfoReportWrite(org, cluster, info)).Err?
    ensures s.error.Some? ==>
      s.error == Some(StorageError(Fault(store.write(InfoReportWrite(org, cluster, info)).reason)))
    ensures forall i :: 0 <= i < |s.trace| ==>
      s.trace[i].StoreWrite? || s.trace[i] == Log(InfoReportSkippedAsOld)
  {
    var w := InfoReportWrite(org, cluster, info);
    match store.write(w)
    case Ok => StepResult([StoreWrite(w)], None)
    case Stale =>
      assert DataWrites([StoreWrite(w), Log(InfoReportSkippedAsOld)]) == [w] + DataWrites([Log(InfoReportSkippedAsOld)]);
      StepResult([StoreWrite(w), Log(InfoReportSkippedAsOld)], None)
    case Err(reason) => StepResult([StoreWrite(w)], Some(StorageError(Fault(reason))))
  }

  /** The reply the store gives to the last write of a non-empty list. */
  function LastReply(store: Store, ws: seq<Write>): StoreReply
    requires ws != []
  {
    store.write(ws[|ws| - 1])
  }

  /**
    The three store writes of processing.go:243-273. They are issued in the
    order report, recommendations, info; each one only after the previous one
    was answered `Ok`; the first hard failure is returned and nothing after it
    is written (nothing earlier is undone). A stale answer to the report write
    ends the sequence successfully; a stale answer to the info write is
    success too.
   */
  function PersistReport(
    store: Store, org: OrgId, cluster: ClusterName, report: Bytes, hits: seq<ReportItem>,
    info: seq<InfoItem>, lastChecked: Time, gatheredAt: Time, offset: int)
    : (s: StepResult)
    ensures var ws := DataWrites(s.trace);
      && 1 <= |ws| <= 3
      && Steps(ws) == WriteOrder[..|ws|]
      && ws[0] == ReportWrite(org, cluster, report, hits, lastChecked, gatheredAt, offset)
      && (|ws| > 1 ==> ws[1] == RecommendationsWrite(org, cluster, report))
      && (|ws| > 2 ==> ws[2] == InfoReportWrite(org, cluster, info))
      && (forall i :: 0 <= i < |ws| - 1 ==> store.write(ws[i]) == Ok)
      && (s.error.Some? ==> LastReply(store, ws) != Ok
                            && s.error == Some(StorageError(FaultOf(LastReply(store, ws)))))
      && (s.error.None? <==> (|ws| == 1 && LastReply(store, ws) == Stale)
                             || (|ws| == 3 && !LastReply(store, ws).Err?))
    ensures forall i :: 0 <= i < |s.trace| ==>
      s.trace[i].StoreWrite? || s.trace[i] in {Log(ReportSkippedAsOld), Log(InfoReportSkippedAsOld)}
  {
    var w := ReportWrite(org, cluster, report, hits, lastChecked, gatheredAt, offset);
    match store.write(w)
    case Stale =>
      assert DataWrites([StoreWrite(w), Log(ReportSkippedAsOld)]) == [w] + DataWrites([Log(ReportSkippedAsOld)]);
      StepResult([StoreWrite(w), Log(ReportSkippedAsOld)], None)
    case Err(reason) => StepResult([StoreWrite(w)], Some(StorageError(Fault(reason))))
    case Ok =>
      var recommendations := WriteRecommendations(store, org, cluster, report);
      DataWritesAppend([StoreWrite(w)], recommendations.trace);
      if recommendations.error.Some? then
        StepResult([StoreWrite(w)] + recommendations.trace, recommendations.error)
      else
        var infoReport := WriteInfoReport(store, org, cluster, info);
        DataWritesAppend([StoreWrite(w)] + recommendations.trace, infoReport.trace);
        StepResult([StoreWrite(w)] + recommendations.trace + infoReport.trace, infoReport.error)
  }

  /** The lag check: a LastChecked later than `now` is logged and nothing more. */
  function CheckLag(now: Time, lastChecked: Time): (t: seq<Effect>)
    ensures t != [] <==> now - lastChecked < 0
    ensures forall i :: 0 <= i < |t| ==> t[i] == Log(MessageFromFuture)
  {
    if now - lastChecked < 0 then [Log(MessageFromFuture)] else []
  }

  /**
    `processMessage`: parse, version check, allow list, report encoding,
    timestamp parsing and lag check, then the store writes. `now` is the clock
    reading the lag is computed from.
   */
  function ProcessMessage(config: Config, codecs: Codecs, store: Store, now: Time, msg: KafkaMessage)
    : (p: Processed)
    ensures p.message == ParseMessage(codecs, msg.value).message
    ensures p.requestId == p.message.requestId
    ensures ParseMessage(codecs, msg.value).error.Some? ==>
      p.error == ParseMessage(codecs, msg.value).error && p.trace == []
    ensures forall i :: 0 <= i < |p.trace| ==> p.trace[i].StoreWrite? || p.trace[i].Log?
  {
    var parsed := ParseMessage(codecs, msg.value);
    var m := parsed.message;
    if parsed.error.Some? then Processed([], m.requestId, m, parsed.error)
    else
      var versionChecked := CheckMessageVersion(config, m);
      match CheckMessageOrgInAllowList(config, m.organization.value)
      case Some(err) => Processed(versionChecked, m.requestId, m, Some(err))
      case None =>
        match codecs.marshal(m.report.value)
        case None => Processed(versionChecked, m.requestId, m, Some(MarshalFailed))
        case Some(reportBytes) =>
          match codecs.parseTime(m.lastChecked)
          case None => Processed(versionChecked, m.requestId, m, Some(BadLastChecked))
          case Some(lastChecked) =>
            var timeChecked := versionChecked + CheckLag(now, lastChecked);
            var persisted := PersistReport(
              store, m.organization.value, m.clusterName.value, reportBytes, m.parsedHits,
              m.parsedInfo, lastChecked, m.metadata.gatheredAt, msg.offset);
            Processed(timeChecked + persisted.trace, m.requestId, m, persisted.error)
  }
}

module ProcessingProperties {
  import opened Wrappers
  import opened Message
  import opened Effects
  import opened Parsing
  import opened Policy
  import opened Processing

  /** Every check before the first store write passes. */
  ghost predicate ReachesStore(config: Config, codecs: Codecs, msg: KafkaMessage) {
    var parsed := ParseMessage(codecs, msg.value);
    && parsed.error.None?
    && CheckMessageOrgInAllowList(config, parsed.message.organization.value).None?
    && codecs.marshal(parsed.message.report.value).Some?
    && codecs.parseTime(parsed.message.lastChecked).Some?
  }

  /** The store writes a message that reaches the store leads to. */
  ghost function Persisted(config: Config, codecs: Codecs, store: Store, msg: KafkaMessage): StepResult
    requires ReachesStore(config, codecs, msg)
  {
    var m := ParseMessage(codecs, msg.value).message;
    PersistReport(
      store, m.organization.value, m.clusterName.value, codecs.marshal(m.report.value).value,
      m.parsedHits, m.parsedInfo, codecs.parseTime(m.lastChecked).value, m.metadata.gatheredAt,
      msg.offset)
  }

  /**
    Nothing is written unless every check passes, and then the writes and the
    outcome are exactly those of the store sequence.
   */
  lemma WritesOnlyAfterAllChecks(config: Config, codecs: Codecs, store: Store, now: Time, msg: KafkaMessage)
    ensures var p := ProcessMessage(config, codecs, store, now, msg);
      !ReachesStore(config, codecs, msg) ==> DataWrites(p.trace) == [] && p.error.Some?
    ensures var p := ProcessMessage(config, codecs, store, now, msg);
      ReachesStore(config, codecs, msg) ==>
        && DataWrites(p.trace) == DataWrites(Persisted(config, codecs, store, msg).trace)
        && p.error == Persisted(config, codecs, store, msg).error
  {
    var p := ProcessMessage(config, codecs, store, now, msg);
    if ReachesStore(config, codecs, msg) {
      var m := ParseMessage(codecs, msg.value).message;
      var lastChecked := codecs.parseTime(m.lastChecked).value;
      var timeChecked := CheckMessageVersion(config, m) + CheckLag(now, lastChecked);
      var persisted := Persisted(config, codecs, store, msg);
      assert p.trace == timeChecked + persisted.trace;
      DataWritesAppend(timeChecked, persisted.trace);
    }
  }

  /** Every write of the store sequence concerns the given cluster; both report-carrying writes carry the same bytes. */
  lemma PersistConcernsOneCluster(
    store: Store, org: OrgId, cluster: ClusterName, report: Bytes, hits: seq<ReportItem>,
    info: seq<InfoItem>, lastChecked: Time, gatheredAt: Time, offset: int)
    ensures var ws := DataWrites(PersistReport(store, org, cluster, report, hits, info, lastChecked, gatheredAt, offset).trace);
      && (forall i :: 0 <= i < |ws| ==> ws[i].org == org && ws[i].cluster == cluster)
      && (|ws| > 1 ==> ws[1].report == ws[0].report == report)
  {
  }

  /**
    The store writes of one message: in the order report, recommendations,
    info; each issued only after the previous one succeeded. Once a write was
    issued, a failure can only be the store's answer to the last write.
   */
  lemma StoreWritesInOrder(config: Config, codecs: Codecs, store: Store, now: Time, msg: KafkaMessage)
    ensures var p := ProcessMessage(config, codecs, store, now, msg);
      var ws := DataWrites(p.trace);
      && |ws| <= 3
      && Steps(ws) == WriteOrder[..|ws|]
      && (forall i :: 0 <= i < |ws| - 1 ==> store.write(ws[i]) == Ok)
      && (ws != [] && p.error.Some? ==>
            LastReply(store, ws) != Ok && p.error == Some(StorageError(FaultOf(LastReply(store, ws)))))
  {
    WritesOnlyAfterAllChecks(config, codecs, store, now, msg);
  }

  /** All writes of one message are for that message's organization and cluster. */
  lemma StoreWritesConcernTheMessage(config: Config, codecs: Codecs, store: Store, now: Time, msg: KafkaMessage)
    ensures var p := ProcessMessage(config, codecs, store, now, msg);
      var ws := DataWrites(p.trace);
      && (forall i :: 0 <= i < |ws| ==>
            ws[i].org == p.message.organization.value && ws[i].cluster == p.message.clusterName.value)
      && (|ws| > 1 ==> ws[0].ReportWrite? && ws[1].RecommendationsWrite? && ws[1].report == ws[0].report)
  {
    WritesOnlyAfterAllChecks(config, codecs, store, now, msg);
    if ReachesStore(config, codecs, msg) {
      var m := ParseMessage(codecs, msg.value).message;
      PersistConcernsOneCluster(
        store, m.organization.value, m.clusterName.value, codecs.marshal(m.report.value).value,
        m.parsedHits, m.parsedInfo, codecs.parseTime(m.lastChecked).value, m.metadata.gatheredAt,
        msg.offset);
    }
  }

  /** An organization the enabled allow list does not admit (no list admits nobody) is rejected before any write. */
  lemma RejectedOrganizationWritesNothing(
    config: Config, codecs: Codecs, store: Store, now: Time, msg: KafkaMessage)
    requires ParseMessage(codecs, msg.value).error.None?
    requires config.orgAllowlistEnabled
    requires config.orgAllowlist.Some? ==>
      ParseMessage(codecs, msg.value).message.organization.value !in config.orgAllowlist.value
    ensures ProcessMessage(config, codecs, store, now, msg).error == Some(OrgNotInAllowList)
    ensures DataWrites(ProcessMessage(config, codecs, store, now, msg).trace) == []
  {
    WritesOnlyAfterAllChecks(config, codecs, store, now, msg);
  }

  /**
    With allow listing disabled no organization is rejected, and an admitted
    organization is processed exactly as with allow listing disabled.
   */
  lemma AdmittedOrganizationUnaffected(
    config: Config, codecs: Codecs, store: Store, now: Time, msg: KafkaMessage)
    ensures ProcessMessage(config.(orgAllowlistEnabled := false), codecs, store, now, msg).error
      != Some(OrgNotInAllowList)
    ensures var m := ParseMessage(codecs, msg.value).message;
      m.organization.Some? && config.orgAllowlist.Some? && m.organization.value in config.orgAllowlist.value ==>
        ProcessMessage(config, codecs, store, now, msg)
          == ProcessMessage(config.(orgAllowlistEnabled := false), codecs, store, now, msg)
  {
  }

  /** The schema version never decides anything: the accepted version changes neither the outcome nor the writes. */
  lemma VersionNeverDecides(
    config: Config, codecs: Codecs, store: Store, now: Time, msg: KafkaMessage, accepted: SchemaVersion)
    ensures var p1 := ProcessMessage(config, codecs, store, now, msg);
      var p2 := ProcessMessage(config.(currentSchemaVersion := accepted), codecs, store, now, msg);
      p1.error == p2.error && DataWrites(p1.trace) == DataWrites(p2.trace)
  {
    WritesOnlyAfterAllChecks(config, codecs, store, now, msg);
    WritesOnlyAfterAllChecks(config.(currentSchemaVersion := accepted), codecs, store, now, msg);
  }

  /** The trace of a parsed message: the version warning, then, once every check passes, the lag log and the writes. */
  lemma ParsedTraceShape(config: Config, codecs: Codecs, store: Store, now: Time, msg: KafkaMessage)
    requires ParseMessage(codecs, msg.value).error.None?
    ensures var m := ParseMessage(codecs, msg.value).message;
      var v := CheckMessageVersion(config, m);
      ProcessMessage(config, codecs, store, now, msg).trace ==
        if ReachesStore(config, codecs, msg)
        then v + CheckLag(now, codecs.parseTime(m.lastChecked).value) + Persisted(config, codecs, store, msg).trace
        else v
  {
  }

  /** Lag logs followed by the effects of the writes hold no version warning. */
  lemma NoVersionWarningAfterChecks(lag: seq<Effect>, writes: StepResult)
    requires forall i :: 0 <= i < |lag| ==> lag[i] == Log(MessageFromFuture)
    requires forall i :: 0 <= i < |writes.trace| ==>
      writes.trace[i].StoreWrite? || writes.trace[i] in {Log(ReportSkippedAsOld), Log(InfoReportSkippedAsOld)}
    ensures Log(UnexpectedVersion) !in lag + writes.trace
  {
    var t := lag + writes.trace;
    forall i | 0 <= i < |t|
      ensures t[i] != Log(UnexpectedVersion)
    {
      if i >= |lag| {
        assert t[i] == writes.trace[i - |lag|];
      }
    }
  }

  /** A parsed message whose schema version is not the current one leads the trace with a warning. */
  lemma MismatchedVersionWarned(config: Config, codecs: Codecs, store: Store, now: Time, msg: KafkaMessage)
    requires ParseMessage(codecs, msg.value).error.None?
    requires ParseMessage(codecs, msg.value).message.version != config.currentSchemaVersion
    ensures ProcessMessage(config, codecs, store, now, msg).trace[0] == Log(UnexpectedVersion)
  {
    ParsedTraceShape(config, codecs, store, now, msg);
  }

  /** Any other message leads to a trace without the version warning. */
  lemma MatchingVersionNotWarned(config: Config, codecs: Codecs, store: Store, now: Time, msg: KafkaMessage)
    requires ParseMessage(codecs, msg.value).error.Some?
      || ParseMessage(codecs, msg.value).message.version == config.currentSchemaVersion
    ensures Log(UnexpectedVersion) !in ProcessMessage(config, codecs, store, now, msg).trace
  {
    var parsed := ParseMessage(codecs, msg.value);
    if parsed.error.None? {
      var m := parsed.message;
      ParsedTraceShape(config, codecs, store, now, msg);
      if ReachesStore(config, codecs, msg) {
        NoVersionWarningAfterChecks(CheckLag(now, codecs.parseTime(m.lastChecked).value),
                                    Persisted(config, codecs, store, msg));
      }
    }
  }

  /** A parsed message of another schema version is warned about, and only such a message. */
  lemma VersionMismatchWarns(config: Config, codecs: Codecs, store: Store, now: Time, msg: KafkaMessage)
    ensures var parsed := ParseMessage(codecs, msg.value);
      Log(UnexpectedVersion) in ProcessMessage(config, codecs, store, now, msg).trace <==>
        parsed.error.None? && parsed.message.version != config.currentSchemaVersion
  {
    var parsed := ParseMessage(codecs, msg.value);
    if parsed.error.None? && parsed.message.version != config.currentSchemaVersion {
      MismatchedVersionWarned(config, codecs, store, now, msg);
    } else {
      MatchingVersionNotWarned(config, codecs, store, now, msg);
    }
  }

  /** The clock reading never decides anything: a LastChecked in the future changes neither outcome nor writes. */
  lemma ClockNeverDecides(config: Config, codecs: Codecs, store: Store, now1: Time, now2: Time, msg: KafkaMessage)
    ensures var p1 := ProcessMessage(config, codecs, store, now1, msg);
      var p2 := ProcessMessage(config, codecs, store, now2, msg);
      p1.error == p2.error && DataWrites(p1.trace) == DataWrites(p2.trace)
  {
    WritesOnlyAfterAllChecks(config, codecs, store, now1, msg);
    WritesOnlyAfterAllChecks(config, codecs, store, now2, msg);
  }

  /** A message that reaches the store is logged as coming from the future exactly when its LastChecked is after `now`. */
  lemma FutureLastCheckedOnlyLogged(config: Config, codecs: Codecs, store: Store, now: Time, msg: KafkaMessage)
    requires ReachesStore(config, codecs, msg)
    ensures var m := ParseMessage(codecs, msg.value).message;
      Log(MessageFromFuture) in ProcessMessage(config, codecs, store, now, msg).trace <==>
        codecs.parseTime(m.lastChecked).value > now
  {
    var p := ProcessMessage(config, codecs, store, now, msg);
    var m := ParseMessage(codecs, msg.value).message;
    var v := CheckMessageVersion(config, m);
    var lag := CheckLag(now, codecs.parseTime(m.lastChecked).value);
    var persisted := Persisted(config, codecs, store, msg);
    assert p.trace == v + lag + persisted.trace;
    if lag != [] {
      assert p.trace[|v|] == Log(MessageFromFuture);
    } else {
      assert forall i :: 0 <= i < |p.trace| ==> p.trace[i] != Log(MessageFromFuture) by {
        forall i | 0 <= i < |p.trace|
          ensures p.trace[i] != Log(MessageFromFuture)
        {
          if i >= |v| {
            assert p.trace[i] == persisted.trace[i - |v|];
          }
        }
      }
    }
  }

  /**
    A report that cannot be encoded fails the message before any write; the
    only effect is the version warning, if any.
   */
  lemma MarshalFailureWritesNothing(config: Config, codecs: Codecs, store: Store, now: Time, msg: KafkaMessage)
    requires ParseMessage(codecs, msg.value).error.None?
    requires CheckMessageOrgInAllowList(config, ParseMessage(codecs, msg.value).message.organization.value).None?
    requires codecs.marshal(ParseMessage(codecs, msg.value).message.report.value).None?
    ensures ProcessMessage(config, codecs, store, now, msg).error == Some(MarshalFailed)
    ensures var t := ProcessMessage(config, codecs, store, now, msg).trace;
      && DataWrites(t) == []
      && forall i :: 0 <= i < |t| ==> t[i] == Log(UnexpectedVersion)
  {
    var t := ProcessMessage(config, codecs, store, now, msg).trace;
    assert t == CheckMessageVersion(config, ParseMessage(codecs, msg.value).message);
    NoDataWrites(t);
  }

  /** A LastChecked that does not parse fails the message before any write. */
  lemma BadLastCheckedWritesNothing(config: Config, codecs: Codecs, store: Store, now: Time, msg: KafkaMessage)
    requires ParseMessage(codecs, msg.value).error.None?
    requires CheckMessageOrgInAllowList(config, ParseMessage(codecs, msg.value).message.organization.value).None?
    requires codecs.marshal(ParseMessage(codecs, msg.value).message.report.value).Some?
    requires codecs.parseTime(ParseMessage(codecs, msg.value).message.lastChecked).None?
    ensures ProcessMessage(config, codecs, store, now, msg).error == Some(BadLastChecked)
    ensures DataWrites(ProcessMessage(config, codecs, store, now, msg).trace) == []
  {
    WritesOnlyAfterAllChecks(config, codecs, store, now, msg);
  }

  /**
    When the store answers the report write as stale, the message succeeds
    and neither the recommendations nor the info report is written.
   */
  lemma StaleReportSkipsTheRest(config: Config, codecs: Codecs, store: Store, now: Time, msg: KafkaMessage)
    ensures var p := ProcessMessage(config, codecs, store, now, msg);
      var ws := DataWrites(p.trace);
      ws != [] && store.write(ws[0]) == Stale ==> p.error.None? && |ws| == 1 && ws[0].ReportWrite?
  {
    WritesOnlyAfterAllChecks(config, codecs, store, now, msg);
  }

  /**
    A failing recommendations write fails the message after the report write
    succeeded; the report write stands and no info report is written.
   */
  lemma RecommendationsFailureKeepsReport(
    config: Config, codecs: Codecs, store: Store, now: Time, msg: KafkaMessage)
    ensures var p := ProcessMessage(config, codecs, store, now, msg);
      var ws := DataWrites(p.trace);
      |ws| >= 2 && store.write(ws[1]) != Ok ==>
        && p.error == Some(StorageError(FaultOf(store.write(ws[1]))))
        && |ws| == 2
        && ws[0].ReportWrite? && store.write(ws[0]) == Ok
  {
    WritesOnlyAfterAllChecks(config, codecs, store, now, msg);
  }

  /** A stale answer to the info-report write is success. */
  lemma StaleInfoReportIsSuccess(config: Config, codecs: Codecs, store: Store, now: Time, msg: KafkaMessage)
    ensures var p := ProcessMessage(config, codecs, store, now, msg);
      var ws := DataWrites(p.trace);
      |ws| == 3 && store.write(ws[2]) == Stale ==> p.error.None? && ws[2].InfoReportWrite?
  {
    WritesOnlyAfterAllChecks(config, codecs, store, now, msg);
  }

  /** A message that passes every check, against a store that accepts every write, is written three times and succeeds. */
  lemma AcceptingStoreStoresAll(config: Config, codecs: Codecs, store: Store, now: Time, msg: KafkaMessage)
    requires ReachesStore(config, codecs, msg)
    requires forall w :: store.write(w) == Ok
    ensures var p := ProcessMessage(config, codecs, store, now, msg);
      p.error.None? && Steps(DataWrites(p.trace)) == WriteOrder
  {
    WritesOnlyAfterAllChecks(config, codecs, store, now, msg);
  }
}
