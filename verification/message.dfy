/**
  Data model of one consumed message: the broker record, the decoded
  `incomingMessage` structure with its nil-able fields, the report map, and the
  error values the pipeline can return.
 */
module Message {
  import opened Wrappers

  newtype byte = x: int | 0 <= x < 256
  type Bytes = seq<byte>

  /** Tenant identifier (an unsigned integer upstream; its width plays no role here). */
  type OrgId = nat
  /** Account number (`uint32` upstream). */
  type Account = nat
  /** Cluster name; valid ones are UUID strings such as c8590f31-e97e-4b85-b506-c45ce1911a12. */
  type ClusterName = string
  /** Request identifier; the empty string stands for a missing one. */
  type RequestId = string
  type SchemaVersion = int
  /** A point in time, in nanoseconds since the epoch. */
  type Time = int

  /** The bytes of one raw JSON sub-document of a report. */
  datatype RawJson = RawJson(bytes: Bytes)

  /**
    The report carried by a message: sub-document by key. A key mapped to `None`
    is present in the JSON with the literal `null`, which decodes to a nil
    raw-message pointer.
   */
  type Report = map<string, Option<RawJson>>

  /** One rule hit of the "reports" sub-document; its contents are opaque here. */
  datatype ReportItem = ReportItem(payload: Bytes)

  /** One informational item of the "info" sub-document. */
  datatype InfoItem = InfoItem(infoId: string, key: string, details: map<string, string>)

  datatype Metadata = Metadata(gatheredAt: Time)

  /**
    The decoded message. The `Option` fields are the nil-able pointer fields;
    `parsedHits` and `parsedInfo` are filled in after validation.
   */
  datatype IncomingMessage = IncomingMessage(
    organization: Option<OrgId>,
    account: Option<Account>,
    clusterName: Option<ClusterName>,
    report: Option<Report>,
    lastChecked: string,
    version: SchemaVersion,
    requestId: RequestId,
    metadata: Metadata,
    parsedHits: seq<ReportItem>,
    parsedInfo: seq<InfoItem>)

  /** A record consumed from the broker: coordinates plus the raw payload. */
  datatype KafkaMessage = KafkaMessage(topic: string, partition: int, offset: int, value: Bytes)

  /**
    Outcome of decoding a payload into an `IncomingMessage`: the (possibly
    partially) filled structure and the decoder's error, if it reported one.
   */
  datatype Decoded = Decoded(message: IncomingMessage, error: Option<string>)

  /** The three attributes a message must carry, in the order they are checked. */
  datatype Field = OrgIdField | ClusterNameField | ReportField

  /** A store's answer to a write: done, skipped because newer data exists, or failed. */
  datatype StoreReply = Ok | Stale | Err(reason: string)

  /** The error value a failed store write hands back to the pipeline. */
  datatype StoreFault = OldReport | Fault(reason: string)

  /** Every error the per-message pipeline can return. */
  datatype ConsumerError =
    | MalformedPayload(reason: string)
    | MissingAttribute(field: Field)
    | ClusterNameNotUuid
    | ImproperReportStructure(missingKey: string)
    | MalformedSubsection(key: string)
    | OrgNotInAllowList
    | MarshalFailed
    | BadLastChecked
    | StorageError(fault: StoreFault)

  /** The error a non-`Ok` store reply is returned as. */
  function FaultOf(reply: StoreReply): (f: StoreFault)
    requires reply != Ok
    ensures f == OldReport <==> reply == Stale
    ensures reply.Err? ==> f == Fault(reply.reason)
  {
    match reply
    case Stale => OldReport
    case Err(reason) => Fault(reason)
  }

  /**
    The conversions the pipeline delegates to libraries: JSON decoding of the
    payload and of the two sub-documents, UUID syntax, JSON encoding of the
    report, and RFC 3339 timestamp parsing. Each is an arbitrary total function.
   */
  datatype Codecs = Codecs(
    decode: Bytes -> Decoded,
    isUuid: string -> bool,
    decodeHits: RawJson -> Option<seq<ReportItem>>,
    decodeInfo: RawJson -> Option<seq<InfoItem>>,
    marshal: Report -> Option<Bytes>,
    parseTime: string -> Option<Time>)
}
