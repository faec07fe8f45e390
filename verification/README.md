# Per-message pipeline of the results-aggregator consumer

This project models, in Dafny, how the aggregator's broker consumer handles one
consumed message (consumer/processing.go). It covers:

- parsing and validating the message: the required attributes `OrgID`,
  `ClusterName` and `Report`, a UUID cluster name, the report keys
  `fingerprints`, `info`, `reports` and `system`, and decoding of the
  `reports` and `info` sub-documents;
- the policy checks: the schema version, which only warns, and the
  organization allow list, which fails closed;
- the three ordered store writes (report, recommendations, info report) with
  the store's "old report" staleness answer;
- routing of the outcome: the counters, the consumer-error record, the
  dead-letter queue and the payload tracker.

Every function is pure. Its observable behaviour is a trace of `Effect`s plus
the returned error.

Libraries and collaborators are arbitrary total functions held in datatypes,
so every property holds for every behaviour they could have:

- `Codecs`: JSON decoding of the payload and of the two sub-documents, UUID
  syntax, JSON encoding of the report, and RFC 3339 timestamp parsing.
- `Store`: the reply to each data write, `Ok | Stale | Err(reason)`, and
  whether recording a consumer error succeeded, as the store answers while
  one message is handled. Over a sequence of messages each `Delivery` carries
  its own store and producers, so answers may depend on history.
- `Consumer`: the optional dead-letter and payload-tracker producers.

The clock is a parameter `now`. Only its comparison with LastChecked matters.

Modules: `Message` (data model), `Effects` (trace and its views), `Parsing`,
`Policy`, `Processing` with `ProcessingProperties`, and `Handling` with
`HandlingProperties`.

Three points of the code that the model keeps:

- Extra report keys such as `skips` are allowed; only the four required keys
  are looked up (consumer/processing.go lines 304-316).
- The "received" tracker notification is sent after `processMessage` returns
  (line 65).
- A stale reply to the recommendations write is an error like any other
  store error (line 162).

## Model

| member | source | states |
|---|---|---|
| Parsing.FirstMissing | consumer/processing.go:310-317 | gives the first key in list order that the report lacks, and `None` exactly when all keys are present |
| Parsing.CheckReportStructure | consumer/processing.go:301-318 | the check passes iff all four keys are present; otherwise it names a required key that is absent, and every key before it in the order fingerprints, info, reports, system is present |
| Parsing.ReportStructureIgnoresOtherKeys | consumer/processing.go:302-318 | two reports that agree on which required keys they have get the same verdict, so `skips` or any other extra key never matters |
| Parsing.ValidateMessage | consumer/processing.go:324-349 | gives no error iff the payload decoded, all three attributes are present, the cluster name is a UUID and the report has the required keys; a decode error is returned as the payload error; the not-a-UUID error comes exactly when the three attributes are present and the name is no UUID; the structure error comes exactly when the name is a UUID and a required key is absent, and names the first absent key in the order fingerprints, info, reports, system |
| Parsing.DecodeSubsections | consumer/processing.go:351-361 | succeeds iff both sub-documents are non-null and decode; on success the message carries exactly the decoded hit and info lists; on failure it names `reports` exactly when that sub-document is null or does not decode, and `info` exactly when `reports` decoded and `info` is null or does not decode; no other field changes |
| Parsing.ParseMessage | consumer/processing.go:320-362 | succeeds iff the decoded payload is acceptable; on success OrgID, ClusterName and Report are present, ClusterName is a UUID, the four keys are present, and both sub-documents decoded into the message; a payload failing the checks before decoding gets the validation error, and one passing them fails only with a sub-document error, naming `reports` when that fails to decode and otherwise `info`; the rest of the decoded message is returned unchanged |
| Parsing.MissingAttributeIsFirstAbsent | consumer/processing.go:329-337 | a missing-attribute error names field f exactly when the payload decoded, f is absent and every field before f in the order OrgID, ClusterName, Report is present |
| Parsing.DecodeSubsectionsAsWritten | consumer/processing.go:351-361 | as written, it stops on a nil dereference exactly when `reports` is JSON null, or when `reports` decodes and `info` is JSON null; whenever it returns, it returns what the corrected decoder returns, error label included |
| Parsing.ParseMessageAsWritten | consumer/processing.go:320-362 | whenever the code as written returns, it returns what the corrected parser returns |
| Parsing.NullReportsSectionCrashesAsWritten | consumer/processing.go:345-353 | a structurally valid payload whose `reports` entry is null crashes as written; the corrected parser rejects it with a sub-document error |
| Parsing.ParseMessageCorrectsOnlyTheCrash | consumer/processing.go:345-361 | as written, the parser crashes exactly on structurally valid payloads with a null sub-document reached by the code; the corrected parser rejects each of these with a sub-document error |
| Parsing.NullReportsWitness | consumer/processing.go:351-353 | the concrete payload with `"reports": null` and every other field proper crashes as written and is rejected by the corrected parser |
| Policy.CheckMessageVersion | consumer/processing.go:127-133 | emits a single unexpected-version warning iff the version differs from the accepted one, and nothing else |
| Policy.OrganizationAllowed | consumer/processing.go:289-299 | an organization is admitted iff an allow list is configured and contains it |
| Policy.CheckMessageOrgInAllowList | consumer/processing.go:135-151 | always passes when allow listing is disabled; when it is enabled, passes iff a list is configured and contains the organization; the only failure is "not in allow list" |
| Processing.WriteRecommendations | consumer/processing.go:153-170 | issues exactly one recommendations write for the organization, cluster and report bytes; succeeds iff the store answers `Ok`; any other answer, staleness included, is returned as the store's error |
| Processing.WriteInfoReport | consumer/processing.go:172-190 | issues exactly one info-report write; a stale answer is success; only a hard store failure is an error, returned with the store's reason |
| Processing.PersistReport | consumer/processing.go:243-273 | issues 1 to 3 writes in the order report, recommendations, info; each write is issued only after the previous one answered `Ok`; an error is the store's answer to the last write issued; success iff the report write was stale (one write) or all three were issued and the info write did not fail hard |
| Processing.CheckLag | consumer/processing.go:230-233 | logs "message from the future" iff LastChecked is later than the clock reading; that log line is its only effect |
| Processing.ProcessMessage | consumer/processing.go:192-287 | returns the parsed message and its request id; a parse error is returned as is, with no effect; otherwise its only effects are data writes and log lines |
| ProcessingProperties.WritesOnlyAfterAllChecks | consumer/processing.go:197-273 | no data is written and an error is returned unless parsing, the allow list, report encoding and timestamp parsing all pass; when they pass, writes and outcome are exactly those of the store sequence |
| ProcessingProperties.StoreWritesInOrder | consumer/processing.go:243-273 | the writes of one message are a prefix of report, recommendations, info; each one follows an `Ok`; once a write was issued, an error is exactly the store's answer to the last write |
| ProcessingProperties.PersistConcernsOneCluster | consumer/processing.go:243-273 | every write of the store sequence is for the given organization and cluster; the recommendations write carries the same report bytes as the report write |
| ProcessingProperties.StoreWritesConcernTheMessage | consumer/processing.go:243-273 | every write of a message is for that message's organization and cluster; the report bytes of the recommendations write equal those of the report write |
| ProcessingProperties.RejectedOrganizationWritesNothing | consumer/processing.go:208-211 | with allow listing enabled, an organization missing from the list, or any organization when there is no list, fails with "not in allow list" before any write |
| ProcessingProperties.AdmittedOrganizationUnaffected | consumer/processing.go:136-151 | with allow listing disabled nothing is rejected for its organization; an organization on the list is processed exactly as with allow listing disabled |
| ProcessingProperties.VersionNeverDecides | consumer/processing.go:127-133 | changing the accepted schema version changes neither the returned error nor the data writes |
| ProcessingProperties.VersionMismatchWarns | consumer/processing.go:128-133 | the unexpected-version warning appears iff the message parsed and its version differs from the accepted one |
| ProcessingProperties.MismatchedVersionWarned | consumer/processing.go:204-210 | a parsed message of another version has the warning as its first effect, before any check that could reject it |
| ProcessingProperties.ClockNeverDecides | consumer/processing.go:230-235 | the clock reading, and so a negative lag, changes neither the returned error nor the data writes |
| ProcessingProperties.FutureLastCheckedOnlyLogged | consumer/processing.go:230-233 | for a message that reaches the store, the future-message log line appears iff LastChecked is later than the clock reading |
| ProcessingProperties.MarshalFailureWritesNothing | consumer/processing.go:215-219 | a report that cannot be encoded, for an admitted message, fails with the encoding error before any write; the only effect is the version warning, if any |
| ProcessingProperties.BadLastCheckedWritesNothing | consumer/processing.go:224-228 | an unparseable LastChecked fails the message before any write |
| ProcessingProperties.StaleReportSkipsTheRest | consumer/processing.go:253-255 | a stale answer to the report write means success with that single write; neither recommendations nor info report is written |
| ProcessingProperties.RecommendationsFailureKeepsReport | consumer/processing.go:263-266 | a failing recommendations write is returned as the error; the report write before it was answered `Ok` and is kept; no info report is written |
| ProcessingProperties.StaleInfoReportIsSuccess | consumer/processing.go:181-183 | a stale answer to the info-report write leaves the message successful |
| ProcessingProperties.AcceptingStoreStoresAll | consumer/processing.go:240-287 | a message that passes every check, against a store that accepts everything, succeeds after writing report, recommendations and info report in that order |
| Handling.UpdatePayloadTracker | consumer/processing.go:102-116 | sends exactly one notification with the given status when a tracker is configured, and none otherwise; writes no data and routes nothing |
| Handling.SendDeadLetter | consumer/processing.go:118-125 | sends the message to the dead-letter queue once when a producer is configured, and never otherwise; a failed send is only logged |
| Handling.WriteConsumerError | consumer/processing.go:82-84 | records the message with its error exactly once; a failure to store the record is only logged |
| Handling.RouteOutcome | consumer/processing.go:65-95 | returns the processing error unchanged; a failure adds one to the consumed count, the consuming-errors metric and the error count; a success adds one to the consumed count and the success count |
| Handling.HandleMessage | consumer/processing.go:49-100 | returns exactly the error `processMessage` produced, with the counter changes above |
| HandlingProperties.ProcessingIgnoresErrorRecording | consumer/processing.go:192-287 | how consumer-error recording behaves never changes processing |
| HandlingProperties.SideChannelsNeverDecide | consumer/processing.go:82-88 | replacing how consumer-error recording, the dead-letter producer and the tracker behave, failures included, changes neither the returned error, nor the counters, nor the data written |
| HandlingProperties.RoutedFailureRecordedOnce | consumer/processing.go:75-88 | routing a failure produces exactly one consumer-error record and one dead-letter send iff a producer is configured |
| HandlingProperties.RoutedFailureCarriesError | consumer/processing.go:82-86 | the consumer-error record of a routed failure carries the consumed record and the error processing returned, and with a producer configured the consumed record itself is dead-lettered |
| HandlingProperties.RoutedSuccessNotRecorded | consumer/processing.go:89-95 | routing a success produces no consumer-error record and no dead-letter send |
| HandlingProperties.RoutedSuccess | consumer/processing.go:58-94 | routing a success returns no error, adds no data write, record or dead-letter send, and raises only the consumed and success counts |
| HandlingProperties.RoutedFailureTrackerOrder | consumer/processing.go:65-88 | routing a failed message notifies received, processed, then error, or nothing without a tracker |
| HandlingProperties.RoutedSuccessTrackerOrder | consumer/processing.go:65-94 | routing a processed message notifies received, processed, then success, or nothing without a tracker |
| HandlingProperties.RoutedDataWrites | consumer/processing.go:65-95 | routing adds no data write to the trace |
| HandlingProperties.FailureIsRecordedAndDeadLettered | consumer/processing.go:75-88 | a failed message is recorded exactly once with its returned error, and the consumed record is dead-lettered once iff a producer is configured |
| HandlingProperties.SuccessIsNotRouted | consumer/processing.go:89-95 | a successful message is neither recorded as a consumer error nor dead-lettered |
| HandlingProperties.TrackerNotifiedInOrder | consumer/processing.go:65-94 | with a tracker configured, it is told received, processed, then error or success to match the outcome; without one, nothing is sent |
| HandlingProperties.TrackerNotificationsCarryTheMessage | consumer/processing.go:65-94 | with a tracker configured, each of the received, processed and final notifications carries the request id, organization and account the parser read from the message |
| HandlingProperties.RoutedFailureNotifications | consumer/processing.go:65-88 | routing a failure sends the received, processed and error requests about the message processing returned |
| HandlingProperties.RoutedSuccessNotifications | consumer/processing.go:65-94 | routing a success sends the received, processed and success requests about the message processing returned |
| HandlingProperties.RoutingWritesNoData | consumer/processing.go:49-100 | the data written while handling a message are exactly those written by processing it |
| HandlingProperties.CountersAccumulate | consumer/processing.go:58-95 | after any sequence of messages, each met by the store and producers of its moment, the consumed count grows by their number; the error count and the consuming-errors metric grow by the number that failed; the success count grows by the rest |
| HandlingProperties.UnparsableMessageIsDeadLettered | consumer/processing.go:75-88 | a message that fails to parse (a cluster name that is not a UUID, say) returns the parse error, writes no data, is recorded once, is dead-lettered once iff a producer is configured, and is not counted as a success |
| HandlingProperties.AcceptedMessageCompletes | consumer/processing.go:240-287 | a valid, admitted message against an accepting store completes with three ordered writes, nothing recorded or dead-lettered, and only the consumed and success counts incremented |

## Left out

- JSON decoding and encoding (`json.Unmarshal`, `json.Marshal`): these are the arbitrary functions in `Codecs`. The payload decoder may return a partially filled message together with its error, as the library can.
- UUID syntax (`uuid.Parse`): this is the arbitrary predicate `Codecs.isUuid`. The library is not part of this model and may accept more than the canonical 8-4-4-4-12 form of RFC 4122 section 3.
- RFC 3339 timestamp parsing: this is the arbitrary `Codecs.parseTime`.
- Wall-clock reads: the stored-at timestamps of the three writes, the timestamps sent to the tracker, and the recommendations write's formatted time are not carried by the effects. They are clock values with no decision attached.
- The lag in minutes: the lag is a float, so only its sign, from comparing LastChecked with `now`, is modelled. The lag histogram, duration logging (`logDuration`) and the processing-time histograms are telemetry without effect on the outcome.
- Logging: only the log lines that record a decision are effects, such as a version warning, a future timestamp, a skipped stale write or an absorbed side-channel failure.
- The broker client: a consumed record is its topic, partition, offset and payload, and only these are modelled.
- The package constant `CurrentSchemaVersion` is defined outside consumer/processing.go, so it is the configuration field `currentSchemaVersion`.
- Concurrency: one message is handled by one call, and no state is shared between calls other than the counters, which are passed explicitly.
- Processing.ProcessMessage, Handling.HandleMessage and every lemma of ProcessingProperties and HandlingProperties use the corrected parser `Parsing.ParseMessage`. As written, a `"reports"` or `"info"` sub-document that is JSON null panics at line 351 or 356, after the consumed-messages counter was raised (line 58), with no consumer-error record, dead-letter send or tracker notification. The pipeline model instead rejects the message with a sub-document error and routes it like any failure; `Parsing.ParseMessageAsWritten` is the as-written behaviour.
- Handling.UpdatePayloadTracker: the tracker request carries no timestamp, because that is a clock read.
- The data write requests carry no stored-at time, because that is a clock read.

## Findings

| source | as written | input that shows it | evidently intended | confidence | as-written member | corrected member |
|---|---|---|---|---|---|---|
| consumer/processing.go:345-356 | `checkReportStructure` only tests that each key is present. `"reports": null` decodes to a nil raw-message pointer under a present key, and line 351 dereferences it, which stops the consumer with a nil-pointer panic. `"info": null` has the same effect at line 356 | `{"OrgID":1,"ClusterName":"c8590f31-e97e-4b85-b506-c45ce1911a12","Report":{"fingerprints":[],"info":[],"reports":null,"system":{}},"LastChecked":"2021-01-01T00:00:00Z"}` | a null sub-document is rejected like one that does not decode, and the message goes to the dead-letter queue | medium, not executed; relies on the JSON library decoding `null` into a nil pointer | Parsing.ParseMessageAsWritten | Parsing.ParseMessage |
