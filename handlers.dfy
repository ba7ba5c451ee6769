/**
 * The four domain handlers: check results, acknowledgements, comments and
 * downtimes. Each reads its own schema and then decides which engine call
 * to make, on which kind of object, or to make none.
 */
module Handlers {
  import opened Json
  import opened Fields
  import opened Engine
  import opened Requests

  /** `process_status`: a check result is processed only when its host
      resolves and, if it names a service, that service resolves too; the
      result is then tagged with the NagMQ engine and marked as a service
      check exactly when it names a service. Otherwise one warning. */
  function ProcessStatus(doc: Document, dir: Directory): (o: Outcome)
    ensures AtMostOneWarning(o.log)
    ensures o.call.Some? ==> Quiet(o.log) && AcceptsAll(doc, StatusSchema)
    ensures DecodeStatus(doc).None? ==> o == Warned(InvalidCheckResultParameters)
    ensures DecodeStatus(doc).Some? && !dir.Resolves(DecodeStatus(doc).value.hostName, DecodeStatus(doc).value.serviceDescription)
            ==> o == Warned(CheckResultForInvalidObject)
    ensures o.call.Some? <==> DecodeStatus(doc).Some? && dir.Resolves(DecodeStatus(doc).value.hostName, DecodeStatus(doc).value.serviceDescription)
    ensures o.call.Some? ==>
      var req := DecodeStatus(doc).value;
      && o.call.value.ProcessCheckResult?
      && o.call.value.result.engine == NagMQSourceName
      && o.call.value.result.hostName == req.hostName
      && o.call.value.result.serviceDescription == req.serviceDescription
      && (o.call.value.result.objectCheckType == ServiceCheck <==> req.serviceDescription.Some?)
      && o.call.value.result.output == req.output
      && o.call.value.result.data == req.data
      && o.log == [Debug(CheckResultReceived, req.hostName, req.serviceDescription)]
      && ActsWithin(o.call.value, req.hostName, req.serviceDescription)
  {
    match DecodeStatus(doc)
    case None => Warned(InvalidCheckResultParameters)
    case Some(req) =>
      var serviceFound := req.serviceDescription.Some? && dir.FindService(req.hostName, req.serviceDescription.value);
      if !dir.FindHost(req.hostName) || (req.serviceDescription.Some? && !serviceFound) then
        Warned(CheckResultForInvalidObject)
      else
        var result := CheckResult(
          req.hostName,
          if serviceFound then req.serviceDescription else None,
          if serviceFound then ServiceCheck else HostCheck,
          req.output,
          req.data,
          NagMQSourceName);
        Outcome([Debug(CheckResultReceived, result.hostName, result.serviceDescription)],
                Some(ProcessCheckResult(result)))
  }

  /** `process_acknowledgement`: the service is acknowledged when it
      resolves, otherwise the host when it resolves, otherwise nothing
      happens, silently. The debug line is written in all three cases. */
  function ProcessAcknowledgement(doc: Document, dir: Directory, icinga: bool): (o: Outcome)
    ensures AtMostOneWarning(o.log)
    ensures o.call.Some? ==> Quiet(o.log) && AcceptsAll(doc, AcknowledgementSchema(icinga))
    ensures DecodeAcknowledgement(doc, icinga).None? ==> o == Warned(InvalidAcknowledgementParameters)
    ensures DecodeAcknowledgement(doc, icinga).Some? ==>
      var req := DecodeAcknowledgement(doc, icinga).value;
      var serviceFound := req.serviceDescription.Some? && dir.FindService(req.hostName, req.serviceDescription.value);
      && o.log == [Debug(AcknowledgementReceived, req.hostName, req.serviceDescription)]
      && (serviceFound ==> o.call == Some(AcknowledgeServiceProblem(req.hostName, req.serviceDescription.value, req.ack)))
      && (!serviceFound && dir.FindHost(req.hostName) ==> o.call == Some(AcknowledgeHostProblem(req.hostName, req.ack)))
      && (!serviceFound && !dir.FindHost(req.hostName) ==> o.call.None?)
    ensures o.call.Some? ==> ActsWithin(o.call.value, Text(doc, "host_name").value, Text(doc, "service_description"))
  {
    match DecodeAcknowledgement(doc, icinga)
    case None => Warned(InvalidAcknowledgementParameters)
    case Some(req) =>
      var hostFound := dir.FindHost(req.hostName);
      var serviceFound := req.serviceDescription.Some? && dir.FindService(req.hostName, req.serviceDescription.value);
      var call :=
        if serviceFound then Some(AcknowledgeServiceProblem(req.hostName, req.serviceDescription.value, req.ack))
        else if hostFound then Some(AcknowledgeHostProblem(req.hostName, req.ack))
        else None;
      Outcome([Debug(AcknowledgementReceived, req.hostName, req.serviceDescription)], call)
  }

  /** `process_comment`: no directory lookup; the comment is a SERVICE
      comment exactly when a service description is given. */
  function ProcessComment(doc: Document): (o: Outcome)
    ensures AtMostOneWarning(o.log)
    ensures o.call.Some? ==> Quiet(o.log) && AcceptsAll(doc, CommentSchema)
    ensures DecodeComment(doc).None? ==> o == Warned(InvalidCommentParameters)
    ensures DecodeComment(doc).Some? ==>
      var req := DecodeComment(doc).value;
      && o.call.Some? && o.call.value.AddNewComment?
      && (o.call.value.commentKind == ServiceObject <==> req.serviceDescription.Some?)
      && ActsWithin(o.call.value, req.hostName, req.serviceDescription)
      && o.call.value.entryTime == req.timestamp.sec
      && o.call.value.authorName == req.authorName
      && o.call.value.commentData == req.commentData
      && o.call.value.persistent == req.persistent
      && o.call.value.expires == req.expires
      && o.call.value.expireTime == req.expireTime
      && o.log == [Debug(CommentReceived, req.hostName, req.serviceDescription)]
  {
    match DecodeComment(doc)
    case None => Warned(InvalidCommentParameters)
    case Some(req) =>
      var kind := if req.serviceDescription.None? then HostObject else ServiceObject;
      Outcome([Debug(CommentReceived, req.hostName, req.serviceDescription)],
              Some(AddNewComment(kind, req.hostName, req.serviceDescription, req.timestamp.sec,
                                 req.authorName, req.commentData, req.persistent, req.expires, req.expireTime)))
  }

  /** `process_downtime`: no directory lookup; the downtime is a SERVICE
      downtime exactly when a service description is given. */
  function ProcessDowntime(doc: Document): (o: Outcome)
    ensures AtMostOneWarning(o.log)
    ensures o.call.Some? ==> Quiet(o.log) && AcceptsAll(doc, DowntimeSchema)
    ensures DecodeDowntime(doc).None? ==> o == Warned(InvalidDowntimeParameters)
    ensures DecodeDowntime(doc).Some? ==>
      var req := DecodeDowntime(doc).value;
      && o.call.Some? && o.call.value.ScheduleDowntime?
      && (o.call.value.downtimeKind == ServiceObject <==> req.serviceDescription.Some?)
      && ActsWithin(o.call.value, req.hostName, req.serviceDescription)
      && o.call.value.entryTime == req.entryTime
      && o.call.value.downtimeAuthor == req.authorName
      && o.call.value.downtimeComment == req.commentData
      && o.call.value.startTime == req.startTime
      && o.call.value.endTime == req.endTime
      && o.call.value.fixed == req.fixed
      && o.call.value.triggeredBy == req.triggeredBy
      && o.call.value.duration == req.duration
      && o.log == [Debug(DowntimeReceived, req.hostName, req.serviceDescription)]
  {
    match DecodeDowntime(doc)
    case None => Warned(InvalidDowntimeParameters)
    case Some(req) =>
      var kind := if req.serviceDescription.Some? then ServiceObject else HostObject;
      Outcome([Debug(DowntimeReceived, req.hostName, req.serviceDescription)],
              Some(ScheduleDowntime(kind, req.hostName, req.serviceDescription, req.entryTime,
                                    req.authorName, req.commentData, req.startTime, req.endTime,
                                    req.fixed, req.triggeredBy, req.duration)))
  }
}
