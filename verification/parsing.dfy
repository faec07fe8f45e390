/**
  Validation of a consumed payload (`parseMessage` and `checkReportStructure`
  in consumer/processing.go): required attributes in a fixed order, UUID cluster
  name, the four required report keys, and the decoding of the "reports" and
  "info" sub-documents.
 */
module Parsing {
  import opened Wrappers
  import opened Message

  /** The report keys that must be present, in the order they are checked. */
  const ExpectedKeys: seq<string> := ["fingerprints", "info", "reports", "system"]

  /** The same keys as a set ("skips" is deliberately not among them). */
  const RequiredKeys: set<string> := {ExpectedKeys[0], ExpectedKeys[1], ExpectedKeys[2], ExpectedKeys[3]}

  /** Outcome of parsing: the decoded message (as far as it got) and the error, if any. */
  datatype Parsed = Parsed(message: IncomingMessage, error: Option<ConsumerError>)

  /** Index of the first key of `keys` that `r` lacks, if any. */
  function FirstMissing(keys: seq<string>, r: Report): (res: Option<nat>)
    ensures res.None? <==> forall i :: 0 <= i < |keys| ==> keys[i] in r
    ensures res.Some? ==> res.value < |keys| && keys[res.value] !in r
    ensures res.Some? ==> forall j :: 0 <= j < res.value ==> keys[j] in r
  {
    if keys == [] then None
    else if keys[0] !in r then Some(0)
    else match FirstMissing(keys[1..], r)
      case None => None
      case Some(i) => Some(i + 1)
  }

  /** The first required key missing from the report, or `None` when the structure is proper. */
  function CheckReportStructure(r: Report): (missing: Option<string>)
    ensures missing.None? <==> RequiredKeys <= r.Keys
    ensures missing.Some? ==> missing.value in RequiredKeys && missing.value !in r
    ensures missing.Some? ==>
      exists i :: 0 <= i < |ExpectedKeys| && ExpectedKeys[i] == missing.value
        && forall j :: 0 <= j < i ==> ExpectedKeys[j] in r
  {
    match FirstMissing(ExpectedKeys, r)
    case None =>
      assert forall k :: k in RequiredKeys ==>
        (k == ExpectedKeys[0] || k == ExpectedKeys[1] || k == ExpectedKeys[2] || k == ExpectedKeys[3]);
      None
    case Some(i) => Some(ExpectedKeys[i])
  }

  lemma {:induction false} FirstMissingOnlyReadsKeys(keys: seq<string>, r1: Report, r2: Report)
    requires forall i :: 0 <= i < |keys| ==> (keys[i] in r1 <==> keys[i] in r2)
    ensures FirstMissing(keys, r1) == FirstMissing(keys, r2)
    decreases |keys|
  {
    if keys != [] {
      FirstMissingOnlyReadsKeys(keys[1..], r1, r2);
    }
  }

  /**
    Only the presence of the four required keys matters: extra keys (such as
    the optional legacy "skips") and the sub-documents' contents never change
    the verdict.
   */
  lemma ReportStructureIgnoresOtherKeys(r1: Report, r2: Report)
    requires forall k :: k in RequiredKeys ==> (k in r1 <==> k in r2)
    ensures CheckReportStructure(r1) == CheckReportStructure(r2)
  {
    FirstMissingOnlyReadsKeys(ExpectedKeys, r1, r2);
  }

  function Present(m: IncomingMessage, f: Field): bool {
    match f
    case OrgIdField => m.organization.Some?
    case ClusterNameField => m.clusterName.Some?
    case ReportField => m.report.Some?
  }

  /** Everything checked before the sub-documents are decoded, as one condition. */
  ghost predicate StructurallyValid(codecs: Codecs, d: Decoded) {
    && d.error.None?
    && d.message.organization.Some?
    && d.message.clusterName.Some?
    && d.message.report.Some?
    && codecs.isUuid(d.message.clusterName.value)
    && RequiredKeys <= d.message.report.value.Keys
  }

  /** A sub-document that is present (not JSON null) and that the decoder accepts. */
  ghost predicate Decodes<T>(decoder: RawJson -> Option<T>, doc: Option<RawJson>) {
    doc.Some? && decoder(doc.value).Some?
  }

  /** The condition under which a decoded payload is accepted. */
  ghost predicate Acceptable(codecs: Codecs, d: Decoded) {
    && StructurallyValid(codecs, d)
    && Decodes(codecs.decodeHits, d.message.report.value["reports"])
    && Decodes(codecs.decodeInfo, d.message.report.value["info"])
  }

  /** The checks of processing.go:324-349, in source order; the first failing one names the error. */
  function ValidateMessage(codecs: Codecs, d: Decoded): (err: Option<ConsumerError>)
    ensures err.None? <==> StructurallyValid(codecs, d)
    ensures d.error.Some? ==> err == Some(MalformedPayload(d.error.value))
    ensures err == Some(ClusterNameNotUuid) <==>
      && d.error.None?
      && d.message.organization.Some?
      && d.message.clusterName.Some?
      && d.message.report.Some?
      && !codecs.isUuid(d.message.clusterName.value)
    ensures err.Some? && err.value.ImproperReportStructure? <==>
      && d.error.None?
      && d.message.organization.Some?
      && d.message.clusterName.Some?
      && d.message.report.Some?
      && codecs.isUuid(d.message.clusterName.value)
      && !(RequiredKeys <= d.message.report.value.Keys)
    ensures err.Some? && err.value.ImproperReportStructure? ==>
      && d.message.report.Some?
      && err.value.missingKey !in d.message.report.value
      && exists i :: 0 <= i < |ExpectedKeys| && ExpectedKeys[i] == err.value.missingKey
           && forall j :: 0 <= j < i ==> ExpectedKeys[j] in d.message.report.value
  {
    var m := d.message;
    if d.error.Some? then Some(MalformedPayload(d.error.value))
    else if m.organization.None? then Some(MissingAttribute(OrgIdField))
    else if m.clusterName.None? then Some(MissingAttribute(ClusterNameField))
    else if m.report.None? then Some(MissingAttribute(ReportField))
    else if !codecs.isUuid(m.clusterName.value) then Some(ClusterNameNotUuid)
    else
      match CheckReportStructure(m.report.value)
      case Some(key) => Some(ImproperReportStructure(key))
      case None => None
  }

  /**
    Decodes "reports" into the hit list and then "info" into the info list
    (processing.go:351-361). A sub-document that is JSON null is rejected like
    one the decoder refuses.
   */
  function DecodeSubsections(codecs: Codecs, m: IncomingMessage): (p: Parsed)
    requires m.report.Some? && RequiredKeys <= m.report.value.Keys
    ensures p.error.None? <==>
      Decodes(codecs.decodeHits, m.report.value["reports"])
      && Decodes(codecs.decodeInfo, m.report.value["info"])
    ensures p.error.Some? ==>
      p.error == Some(MalformedSubsection("reports")) || p.error == Some(MalformedSubsection("info"))
    ensures p.error == Some(MalformedSubsection("reports")) <==> !Decodes(codecs.decodeHits, m.report.value["reports"])
    ensures p.error == Some(MalformedSubsection("info")) <==>
      Decodes(codecs.decodeHits, m.report.value["reports"]) && !Decodes(codecs.decodeInfo, m.report.value["info"])
    ensures p.error.None? ==>
      && p.message.parsedHits == codecs.decodeHits(m.report.value["reports"].value).value
      && p.message.parsedInfo == codecs.decodeInfo(m.report.value["info"].value).value
    ensures p.message.(parsedHits := m.parsedHits, parsedInfo := m.parsedInfo) == m
  {
    var report := m.report.value;
    match report["reports"]
    case None => Parsed(m, Some(MalformedSubsection("reports")))
    case Some(rawHits) =>
      match codecs.decodeHits(rawHits)
      case None => Parsed(m, Some(MalformedSubsection("reports")))
      case Some(hits) =>
        var withHits := m.(parsedHits := hits);
        match report["info"]
        case None => Parsed(withHits, Some(MalformedSubsection("info")))
        case Some(rawInfo) =>
          match codecs.decodeInfo(rawInfo)
          case None => Parsed(withHits, Some(MalformedSubsection("info")))
          case Some(info) => Parsed(withHits.(parsedInfo := info), None)
  }

  /**
    Parses a payload (`parseMessage`). It succeeds exactly when the payload is
    acceptable; on success every required attribute is present, the cluster
    name is a UUID, the report has the required keys and the decoded
    sub-documents are stored in the message; nothing else of the decoded
    message is altered.
   */
  function ParseMessage(codecs: Codecs, value: Bytes): (p: Parsed)
    ensures p.error.None? <==> Acceptable(codecs, codecs.decode(value))
    ensures p.error.None? ==>
      && p.message.organization.Some?
      && p.message.clusterName.Some?
      && p.message.report.Some?
      && codecs.isUuid(p.message.clusterName.value)
      && RequiredKeys <= p.message.report.value.Keys
      && Decodes(codecs.decodeHits, p.message.report.value["reports"])
      && Decodes(codecs.decodeInfo, p.message.report.value["info"])
      && p.message.parsedHits == codecs.decodeHits(p.message.report.value["reports"].value).value
      && p.message.parsedInfo == codecs.decodeInfo(p.message.report.value["info"].value).value
    ensures !StructurallyValid(codecs, codecs.decode(value)) ==>
      p.error == ValidateMessage(codecs, codecs.decode(value))
    ensures StructurallyValid(codecs, codecs.decode(value)) && p.error.Some? ==>
      p.error == Some(MalformedSubsection("reports")) || p.error == Some(MalformedSubsection("info"))
    ensures var d := codecs.decode(value);
      StructurallyValid(codecs, d) ==>
        (p.error == Some(MalformedSubsection("reports")) <==>
           !Decodes(codecs.decodeHits, d.message.report.value["reports"]))
    ensures var d := codecs.decode(value);
      StructurallyValid(codecs, d) ==>
        (p.error == Some(MalformedSubsection("info")) <==>
           Decodes(codecs.decodeHits, d.message.report.value["reports"])
           && !Decodes(codecs.decodeInfo, d.message.report.value["info"]))
    ensures var m := codecs.decode(value).message;
      p.message.(parsedHits := m.parsedHits, parsedInfo := m.parsedInfo) == m
  {
    var d := codecs.decode(value);
    match ValidateMessage(codecs, d)
    case Some(err) => Parsed(d.message, Some(err))
    case None => DecodeSubsections(codecs, d.message)
  }

  function Rank(f: Field): nat {
    match f
    case OrgIdField => 0
    case ClusterNameField => 1
    case ReportField => 2
  }

  /**
    A missing attribute is reported exactly when the payload decoded and that
    attribute is the first absent one in the order OrgID, ClusterName, Report.
   */
  lemma MissingAttributeIsFirstAbsent(codecs: Codecs, value: Bytes, f: Field)
    ensures var d := codecs.decode(value);
      ParseMessage(codecs, value).error == Some(MissingAttribute(f)) <==>
        && d.error.None?
        && !Present(d.message, f)
        && forall g :: Rank(g) < Rank(f) ==> Present(d.message, g)
  {
    var d := codecs.decode(value);
    if d.error.None? && !Present(d.message, f) && forall g :: Rank(g) < Rank(f) ==> Present(d.message, g) {
      match f
      case OrgIdField =>
      case ClusterNameField => assert Rank(OrgIdField) < Rank(f);
      case ReportField => assert Rank(OrgIdField) < Rank(f) && Rank(ClusterNameField) < Rank(f);
    }
  }

  // ---------------------------------------------------------------------------
  // The sub-document decoding as written, where a JSON null sub-document is a
  // nil pointer that is dereferenced.

  /** An execution that either returns a value or stops on a nil dereference. */
  datatype Run<T> = Returned(value: T) | NilDereference

  function DecodeSubsectionsAsWritten(codecs: Codecs, m: IncomingMessage): (run: Run<Parsed>)
    requires m.report.Some? && RequiredKeys <= m.report.value.Keys
    ensures run.NilDereference? <==>
      || m.report.value["reports"].None?
      || (Decodes(codecs.decodeHits, m.report.value["reports"]) && m.report.value["info"].None?)
    ensures run.Returned? ==> run.value == DecodeSubsections(codecs, m)
  {
    var report := m.report.value;
    match report["reports"]
    case None => NilDereference
    case Some(rawHits) =>
      match codecs.decodeHits(rawHits)
      case None => Returned(Parsed(m, Some(MalformedSubsection("reports"))))
      case Some(hits) =>
        var withHits := m.(parsedHits := hits);
        match report["info"]
        case None => NilDereference
        case Some(rawInfo) =>
          match codecs.decodeInfo(rawInfo)
          case None => Returned(Parsed(withHits, Some(MalformedSubsection("info"))))
          case Some(info) => Returned(Parsed(withHits.(parsedInfo := info), None))
  }

  /** `parseMessage` as written: only key presence is checked before the sub-documents are dereferenced. */
  function ParseMessageAsWritten(codecs: Codecs, value: Bytes): (run: Run<Parsed>)
    ensures run.Returned? ==> run.value == ParseMessage(codecs, value)
  {
    var d := codecs.decode(value);
    match ValidateMessage(codecs, d)
    case Some(err) => Returned(Parsed(d.message, Some(err)))
    case None => DecodeSubsectionsAsWritten(codecs, d.message)
  }

  /**
    A report whose "reports" entry is JSON null passes the structure check
    (the key is present) and is then dereferenced: the code as written stops
    on a nil dereference, while the corrected parser rejects the message with
    a sub-document error that the pipeline can route to the dead-letter queue.
   */
  lemma NullReportsSectionCrashesAsWritten(codecs: Codecs, value: Bytes)
    requires StructurallyValid(codecs, codecs.decode(value))
    requires codecs.decode(value).message.report.value["reports"].None?
    ensures ParseMessageAsWritten(codecs, value) == NilDereference
    ensures ParseMessage(codecs, value).error == Some(MalformedSubsection("reports"))
  {
  }

  /** The corrected parser never crashes and agrees with the code as written wherever the latter returns. */
  lemma ParseMessageCorrectsOnlyTheCrash(codecs: Codecs, value: Bytes)
    ensures ParseMessageAsWritten(codecs, value).NilDereference? <==>
      var d := codecs.decode(value);
      StructurallyValid(codecs, d)
      && (|| d.message.report.value["reports"].None?
          || (Decodes(codecs.decodeHits, d.message.report.value["reports"])
              && d.message.report.value["info"].None?))
    ensures ParseMessageAsWritten(codecs, value).NilDereference? ==>
      ParseMessage(codecs, value).error.value.MalformedSubsection?
  {
  }

  /** A concrete payload that decodes with `"reports": null` and otherwise proper fields. */
  function NullReportsPayload(): IncomingMessage {
    IncomingMessage(
      Some(1), Some(1), Some("c8590f31-e97e-4b85-b506-c45ce1911a12"),
      Some(map["fingerprints" := Some(RawJson([])), "info" := Some(RawJson([])),
               "reports" := None, "system" := Some(RawJson([]))]),
      "2021-01-01T00:00:00Z", 1, "", Metadata(0), [], [])
  }

  /** With codecs that accept everything, the payload above crashes the parser as written. */
  lemma NullReportsWitness()
    ensures var codecs := Codecs(_ => Decoded(NullReportsPayload(), None), _ => true,
                                 _ => Some([]), _ => Some([]), _ => Some([]), _ => Some(0));
      && ParseMessageAsWritten(codecs, []) == NilDereference
      && ParseMessage(codecs, []).error == Some(MalformedSubsection("reports"))
  {
    var codecs := Codecs(_ => Decoded(NullReportsPayload(), None), _ => true,
                         _ => Some([]), _ => Some([]), _ => Some([]), _ => Some(0));
    NullReportsSectionCrashesAsWritten(codecs, []);
  }
}
