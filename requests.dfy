/**
 * The field schemas passed to each `get_values` call, and the request each
 * handler reads out of the slots once extraction has succeeded. A request
 * exists exactly when the schema accepts the document; the contracts of the
 * smaller decoders and the lemmas beside the larger ones show that each of
 * its fields is the document's own value (or the caller's default when an
 * optional field is absent).
 */
module Requests {
  import opened Json
  import opened Fields
  import opened Engine

  const HostNameField: Field := Field("host_name", KString, true)
  const ServiceDescriptionField: Field := Field("service_description", KString, false)

  /** `type`, read before dispatch. */
  const TypeSchema: Schema := [Field("type", KString, true)]

  /** The message type, when the document has a string `type`. */
  function DecodeType(doc: Document): (t: Option<string>)
    ensures t.Some? <==> AcceptsAll(doc, TypeSchema)
    ensures t == Text(doc, "type")
  {
    var e := Extract(doc, TypeSchema);
    assert TypeSchema[0].key == "type";
    if e.Ok() then Text(e.slots, "type") else None
  }

  // ---------------------------------------------------------------- status

  /** A check result: `finish_time` is required and `start_time` is not. */
  const StatusSchema: Schema := [
    HostNameField,
    ServiceDescriptionField,
    Field("output", KString, true),
    Field("return_code", KInteger, true),
    Field("start_time", KTimeval, false),
    Field("finish_time", KTimeval, true),
    Field("check_type", KInteger, true),
    Field("check_options", KInteger, false),
    Field("scheduled_check", KInteger, false),
    Field("reschedule_check", KInteger, false),
    Field("latency", KReal, false),
    Field("early_timeout", KInteger, false),
    Field("exited_ok", KInteger, false)
  ]

  datatype StatusRequest = StatusRequest(
    hostName: string,
    serviceDescription: Option<string>,
    output: string,
    data: CheckData)

  function DecodeStatus(doc: Document): (r: Option<StatusRequest>)
    ensures r.Some? <==> AcceptsAll(doc, StatusSchema)
  {
    var e := Extract(doc, StatusSchema);
    if !e.Ok() then None
    else
      assert StatusSchema[0] == HostNameField && StatusSchema[2] == Field("output", KString, true)
        && StatusSchema[3] == Field("return_code", KInteger, true) && StatusSchema[5] == Field("finish_time", KTimeval, true)
        && StatusSchema[6] == Field("check_type", KInteger, true);
      SlotReads(doc, StatusSchema, 0); SlotReads(doc, StatusSchema, 2); SlotReads(doc, StatusSchema, 3);
      SlotReads(doc, StatusSchema, 5); SlotReads(doc, StatusSchema, 6);
      var s := e.slots;
      Some(StatusRequest(
        Text(s, "host_name").value,
        Text(s, "service_description"),
        Text(s, "output").value,
        CheckData(
          Integer(s, "return_code").value,
          Time(s, "start_time"),
          Time(s, "finish_time").value,
          Integer(s, "check_type").value,
          Integer(s, "check_options"),
          Integer(s, "scheduled_check"),
          Integer(s, "reschedule_check"),
          Number(s, "latency"),
          Integer(s, "early_timeout"),
          Integer(s, "exited_ok"))))
  }

  /** The object, the output and the return code are the document's. */
  lemma StatusTargetFromDocument(doc: Document)
    ensures var r := DecodeStatus(doc); r.Some? ==>
      && Text(doc, "host_name") == Some(r.value.hostName)
      && Text(doc, "service_description") == r.value.serviceDescription
      && Text(doc, "output") == Some(r.value.output)
      && Integer(doc, "return_code") == Some(r.value.data.returnCode)
  {
    if DecodeStatus(doc).Some? {
      SlotReads(doc, StatusSchema, 0); SlotReads(doc, StatusSchema, 1); SlotReads(doc, StatusSchema, 2);
      SlotReads(doc, StatusSchema, 3);
      assert StatusSchema[0].key == "host_name" && StatusSchema[1].key == "service_description"
        && StatusSchema[2].key == "output" && StatusSchema[3].key == "return_code";
    }
  }

  /** The times, the check type and the check options are the document's;
      an absent `start_time` or `check_options` is left as it was. */
  lemma StatusTimingFromDocument(doc: Document)
    ensures var r := DecodeStatus(doc); r.Some? ==>
      && Time(doc, "start_time") == r.value.data.startTime
      && Time(doc, "finish_time") == Some(r.value.data.finishTime)
      && Integer(doc, "check_type") == Some(r.value.data.checkType)
      && Integer(doc, "check_options") == r.value.data.checkOptions
  {
    if DecodeStatus(doc).Some? {
      SlotReads(doc, StatusSchema, 4); SlotReads(doc, StatusSchema, 5); SlotReads(doc, StatusSchema, 6);
      SlotReads(doc, StatusSchema, 7);
      assert StatusSchema[4].key == "start_time" && StatusSchema[5].key == "finish_time"
        && StatusSchema[6].key == "check_type" && StatusSchema[7].key == "check_options";
    }
  }

  /** The scheduling fields, the latency and the exit flags are the
      document's when present and left as they were otherwise. */
  lemma StatusFlagsFromDocument(doc: Document)
    ensures var r := DecodeStatus(doc); r.Some? ==>
      && Integer(doc, "scheduled_check") == r.value.data.scheduledCheck
      && Integer(doc, "reschedule_check") == r.value.data.rescheduleCheck
      && Number(doc, "latency") == r.value.data.latency
      && Integer(doc, "early_timeout") == r.value.data.earlyTimeout
      && Integer(doc, "exited_ok") == r.value.data.exitedOk
  {
    if DecodeStatus(doc).Some? {
      SlotReads(doc, StatusSchema, 8); SlotReads(doc, StatusSchema, 9); SlotReads(doc, StatusSchema, 10);
      SlotReads(doc, StatusSchema, 11); SlotReads(doc, StatusSchema, 12);
      assert StatusSchema[8].key == "scheduled_check" && StatusSchema[9].key == "reschedule_check"
        && StatusSchema[10].key == "latency" && StatusSchema[11].key == "early_timeout"
        && StatusSchema[12].key == "exited_ok";
    }
  }

  /** Conversely, the request is determined by the document: any request
      whose fields are the document's values is the decoded one. */
  lemma StatusDecodesTo(doc: Document, req: StatusRequest)
    requires AcceptsAll(doc, StatusSchema)
    requires Text(doc, "host_name") == Some(req.hostName)
    requires Text(doc, "service_description") == req.serviceDescription
    requires Text(doc, "output") == Some(req.output)
    requires Integer(doc, "return_code") == Some(req.data.returnCode)
    requires Time(doc, "start_time") == req.data.startTime
    requires Time(doc, "finish_time") == Some(req.data.finishTime)
    requires Integer(doc, "check_type") == Some(req.data.checkType)
    requires Integer(doc, "check_options") == req.data.checkOptions
    requires Integer(doc, "scheduled_check") == req.data.scheduledCheck
    requires Integer(doc, "reschedule_check") == req.data.rescheduleCheck
    requires Number(doc, "latency") == req.data.latency
    requires Integer(doc, "early_timeout") == req.data.earlyTimeout
    requires Integer(doc, "exited_ok") == req.data.exitedOk
    ensures DecodeStatus(doc) == Some(req)
  {
    StatusTargetFromDocument(doc);
    StatusTimingFromDocument(doc);
    StatusFlagsFromDocument(doc);
  }

  // ------------------------------------------------------- acknowledgement

  /** An acknowledgement; the Icinga build adds an optional `end_time`. */
  function AcknowledgementSchema(icinga: bool): Schema
  {
    [ HostNameField,
      ServiceDescriptionField,
      Field("author_name", KString, true),
      Field("comment_data", KString, true),
      Field("acknowledgement_type", KInteger, false),
      Field("notify_contacts", KBoolean, false),
      Field("persistent_comment", KBoolean, false) ]
    + (if icinga then [Field("end_time", KInteger, false)] else [])
  }

  datatype AcknowledgementRequest = AcknowledgementRequest(
    hostName: string,
    serviceDescription: Option<string>,
    ack: AckData)

  function DecodeAcknowledgement(doc: Document, icinga: bool): (r: Option<AcknowledgementRequest>)
    ensures r.Some? <==> AcceptsAll(doc, AcknowledgementSchema(icinga))
  {
    var schema := AcknowledgementSchema(icinga);
    var e := Extract(doc, schema);
    if !e.Ok() then None
    else
      assert schema[0] == HostNameField && schema[2] == Field("author_name", KString, true)
        && schema[3] == Field("comment_data", KString, true);
      SlotReads(doc, schema, 0); SlotReads(doc, schema, 2); SlotReads(doc, schema, 3);
      var s := e.slots;
      Some(AcknowledgementRequest(
        Text(s, "host_name").value,
        Text(s, "service_description"),
        AckData(
          Text(s, "author_name").value,
          Text(s, "comment_data").value,
          IntegerOr(s, "acknowledgement_type", 0),
          Flag(s, "notify_contacts"),
          Flag(s, "persistent_comment"),
          if icinga then Some(IntegerOr(s, "end_time", 0)) else None)))
  }

  /** The object, the author and the comment are the document's. */
  lemma AcknowledgementTargetFromDocument(doc: Document, icinga: bool)
    ensures var r := DecodeAcknowledgement(doc, icinga); r.Some? ==>
      && Text(doc, "host_name") == Some(r.value.hostName)
      && Text(doc, "service_description") == r.value.serviceDescription
      && Text(doc, "author_name") == Some(r.value.ack.authorName)
      && Text(doc, "comment_data") == Some(r.value.ack.commentData)
  {
    var schema := AcknowledgementSchema(icinga);
    if DecodeAcknowledgement(doc, icinga).Some? {
      SlotReads(doc, schema, 0); SlotReads(doc, schema, 1); SlotReads(doc, schema, 2);
      SlotReads(doc, schema, 3);
      assert schema[0].key == "host_name" && schema[1].key == "service_description"
        && schema[2].key == "author_name" && schema[3].key == "comment_data";
    }
  }

  /** The type and the two flags are the document's, 0 when absent; the end
      time exists only in the Icinga build, 0 when absent there. */
  lemma AcknowledgementOptionsFromDocument(doc: Document, icinga: bool)
    ensures var r := DecodeAcknowledgement(doc, icinga); r.Some? ==>
      && r.value.ack.acknowledgementType == IntegerOr(doc, "acknowledgement_type", 0)
      && r.value.ack.notifyContacts == Flag(doc, "notify_contacts")
      && r.value.ack.persistentComment == Flag(doc, "persistent_comment")
      && r.value.ack.endTime == (if icinga then Some(IntegerOr(doc, "end_time", 0)) else None)
  {
    var schema := AcknowledgementSchema(icinga);
    if DecodeAcknowledgement(doc, icinga).Some? {
      SlotReads(doc, schema, 4); SlotReads(doc, schema, 5); SlotReads(doc, schema, 6);
      assert schema[4].key == "acknowledgement_type" && schema[5].key == "notify_contacts"
        && schema[6].key == "persistent_comment";
      if icinga {
        SlotReads(doc, schema, 7);
        assert schema[7].key == "end_time";
      }
    }
  }

  /** Conversely, the request is determined by the document: any request
      whose fields are the document's values is the decoded one. */
  lemma AcknowledgementDecodesTo(doc: Document, icinga: bool, req: AcknowledgementRequest)
    requires AcceptsAll(doc, AcknowledgementSchema(icinga))
    requires Text(doc, "host_name") == Some(req.hostName)
    requires Text(doc, "service_description") == req.serviceDescription
    requires Text(doc, "author_name") == Some(req.ack.authorName)
    requires Text(doc, "comment_data") == Some(req.ack.commentData)
    requires IntegerOr(doc, "acknowledgement_type", 0) == req.ack.acknowledgementType
    requires Flag(doc, "notify_contacts") == req.ack.notifyContacts
    requires Flag(doc, "persistent_comment") == req.ack.persistentComment
    requires req.ack.endTime == (if icinga then Some(IntegerOr(doc, "end_time", 0)) else None)
    ensures DecodeAcknowledgement(doc, icinga) == Some(req)
  {
    AcknowledgementTargetFromDocument(doc, icinga);
    AcknowledgementOptionsFromDocument(doc, icinga);
  }

  // --------------------------------------------------------------- comment

  /** A comment: `persistent` and `expires` are required booleans. */
  const CommentSchema: Schema := [
    HostNameField,
    ServiceDescriptionField,
    Field("comment_data", KString, true),
    Field("author_name", KString, true),
    Field("timestamp", KTimeval, true),
    Field("persistent", KBoolean, true),
    Field("expires", KBoolean, true),
    Field("expire_time", KInteger, false)
  ]

  datatype CommentRequest = CommentRequest(
    hostName: string,
    serviceDescription: Option<string>,
    commentData: string,
    authorName: string,
    timestamp: TimeVal,
    persistent: bool,
    expires: bool,
    expireTime: int)

  function DecodeComment(doc: Document): (r: Option<CommentRequest>)
    ensures r.Some? <==> AcceptsAll(doc, CommentSchema)
  {
    var e := Extract(doc, CommentSchema);
    if !e.Ok() then None
    else
      assert CommentSchema[0] == HostNameField && CommentSchema[2] == Field("comment_data", KString, true)
        && CommentSchema[3] == Field("author_name", KString, true)
        && CommentSchema[4] == Field("timestamp", KTimeval, true);
      SlotReads(doc, CommentSchema, 0); SlotReads(doc, CommentSchema, 2); SlotReads(doc, CommentSchema, 3);
      SlotReads(doc, CommentSchema, 4);
      var s := e.slots;
      Some(CommentRequest(
        Text(s, "host_name").value,
        Text(s, "service_description"),
        Text(s, "comment_data").value,
        Text(s, "author_name").value,
        Time(s, "timestamp").value,
        Flag(s, "persistent"),
        Flag(s, "expires"),
        IntegerOr(s, "expire_time", 0)))
  }

  /** The object, the text, the author and the timestamp are the document's. */
  lemma CommentTargetFromDocument(doc: Document)
    ensures var r := DecodeComment(doc); r.Some? ==>
      && Text(doc, "host_name") == Some(r.value.hostName)
      && Text(doc, "service_description") == r.value.serviceDescription
      && Text(doc, "comment_data") == Some(r.value.commentData)
      && Text(doc, "author_name") == Some(r.value.authorName)
      && Time(doc, "timestamp") == Some(r.value.timestamp)
  {
    if DecodeComment(doc).Some? {
      SlotReads(doc, CommentSchema, 0); SlotReads(doc, CommentSchema, 1); SlotReads(doc, CommentSchema, 2);
      SlotReads(doc, CommentSchema, 3); SlotReads(doc, CommentSchema, 4);
      assert CommentSchema[0].key == "host_name" && CommentSchema[1].key == "service_description"
        && CommentSchema[2].key == "comment_data" && CommentSchema[3].key == "author_name"
        && CommentSchema[4].key == "timestamp";
    }
  }

  /** Both flags are the booleans the document holds (either value is
      accepted), and the expiry time is the document's, 0 when absent. */
  lemma CommentFlagsFromDocument(doc: Document)
    ensures var r := DecodeComment(doc); r.Some? ==>
      && "persistent" in doc && doc["persistent"] == JBool(r.value.persistent)
      && "expires" in doc && doc["expires"] == JBool(r.value.expires)
      && r.value.expireTime == IntegerOr(doc, "expire_time", 0)
  {
    if DecodeComment(doc).Some? {
      SlotReads(doc, CommentSchema, 5); SlotReads(doc, CommentSchema, 6); SlotReads(doc, CommentSchema, 7);
      assert CommentSchema[5] == Field("persistent", KBoolean, true)
        && CommentSchema[6] == Field("expires", KBoolean, true)
        && CommentSchema[7].key == "expire_time";
    }
  }

  /** Conversely, the request is determined by the document: any request
      whose fields are the document's values is the decoded one. */
  lemma CommentDecodesTo(doc: Document, req: CommentRequest)
    requires AcceptsAll(doc, CommentSchema)
    requires Text(doc, "host_name") == Some(req.hostName)
    requires Text(doc, "service_description") == req.serviceDescription
    requires Text(doc, "comment_data") == Some(req.commentData)
    requires Text(doc, "author_name") == Some(req.authorName)
    requires Time(doc, "timestamp") == Some(req.timestamp)
    requires "persistent" in doc && doc["persistent"] == JBool(req.persistent)
    requires "expires" in doc && doc["expires"] == JBool(req.expires)
    requires IntegerOr(doc, "expire_time", 0) == req.expireTime
    ensures DecodeComment(doc) == Some(req)
  {
    CommentTargetFromDocument(doc);
    CommentFlagsFromDocument(doc);
  }

  // -------------------------------------------------------------- downtime

  /** A downtime: author and comment are optional, `fixed` is a required boolean. */
  const DowntimeSchema: Schema := [
    HostNameField,
    ServiceDescriptionField,
    Field("entry_time", KInteger, true),
    Field("author_name", KString, false),
    Field("comment_data", KString, false),
    Field("start_time", KInteger, true),
    Field("end_time", KInteger, true),
    Field("fixed", KBoolean, true),
    Field("duration", KInteger, true),
    Field("triggered_by", KInteger, false)
  ]

  datatype DowntimeRequest = DowntimeRequest(
    hostName: string,
    serviceDescription: Option<string>,
    entryTime: int,
    authorName: Option<string>,
    commentData: Option<string>,
    startTime: int,
    endTime: int,
    fixed: bool,
    duration: int,
    triggeredBy: int)

  function DecodeDowntime(doc: Document): (r: Option<DowntimeRequest>)
    ensures r.Some? <==> AcceptsAll(doc, DowntimeSchema)
  {
    var e := Extract(doc, DowntimeSchema);
    if !e.Ok() then None
    else
      assert DowntimeSchema[0] == HostNameField && DowntimeSchema[2] == Field("entry_time", KInteger, true)
        && DowntimeSchema[5] == Field("start_time", KInteger, true)
        && DowntimeSchema[6] == Field("end_time", KInteger, true)
        && DowntimeSchema[8] == Field("duration", KInteger, true);
      SlotReads(doc, DowntimeSchema, 0); SlotReads(doc, DowntimeSchema, 2); SlotReads(doc, DowntimeSchema, 5);
      SlotReads(doc, DowntimeSchema, 6); SlotReads(doc, DowntimeSchema, 8);
      var s := e.slots;
      Some(DowntimeRequest(
        Text(s, "host_name").value,
        Text(s, "service_description"),
        Integer(s, "entry_time").value,
        Text(s, "author_name"),
        Text(s, "comment_data"),
        Integer(s, "start_time").value,
        Integer(s, "end_time").value,
        Flag(s, "fixed"),
        Integer(s, "duration").value,
        IntegerOr(s, "triggered_by", 0)))
  }

  /** The object, the entry time, the author and the comment are the
      document's; an absent author or comment stays unset. */
  lemma DowntimeTargetFromDocument(doc: Document)
    ensures var r := DecodeDowntime(doc); r.Some? ==>
      && Text(doc, "host_name") == Some(r.value.hostName)
      && Text(doc, "service_description") == r.value.serviceDescription
      && Integer(doc, "entry_time") == Some(r.value.entryTime)
      && Text(doc, "author_name") == r.value.authorName
      && Text(doc, "comment_data") == r.value.commentData
  {
    if DecodeDowntime(doc).Some? {
      SlotReads(doc, DowntimeSchema, 0); SlotReads(doc, DowntimeSchema, 1); SlotReads(doc, DowntimeSchema, 2);
      SlotReads(doc, DowntimeSchema, 3); SlotReads(doc, DowntimeSchema, 4);
      assert DowntimeSchema[0].key == "host_name" && DowntimeSchema[1].key == "service_description"
        && DowntimeSchema[2].key == "entry_time" && DowntimeSchema[3].key == "author_name"
        && DowntimeSchema[4].key == "comment_data";
    }
  }

  /** The window, `fixed` and the duration are the document's; the trigger
      is the document's, 0 when absent. */
  lemma DowntimeWindowFromDocument(doc: Document)
    ensures var r := DecodeDowntime(doc); r.Some? ==>
      && Integer(doc, "start_time") == Some(r.value.startTime)
      && Integer(doc, "end_time") == Some(r.value.endTime)
      && "fixed" in doc && doc["fixed"] == JBool(r.value.fixed)
      && Integer(doc, "duration") == Some(r.value.duration)
      && r.value.triggeredBy == IntegerOr(doc, "triggered_by", 0)
  {
    if DecodeDowntime(doc).Some? {
      SlotReads(doc, DowntimeSchema, 5); SlotReads(doc, DowntimeSchema, 6); SlotReads(doc, DowntimeSchema, 7);
      SlotReads(doc, DowntimeSchema, 8); SlotReads(doc, DowntimeSchema, 9);
      assert DowntimeSchema[5].key == "start_time" && DowntimeSchema[6].key == "end_time"
        && DowntimeSchema[7] == Field("fixed", KBoolean, true) && DowntimeSchema[8].key == "duration"
        && DowntimeSchema[9].key == "triggered_by";
    }
  }

  /** Conversely, the request is determined by the document: any request
      whose fields are the document's values is the decoded one. */
  lemma DowntimeDecodesTo(doc: Document, req: DowntimeRequest)
    requires AcceptsAll(doc, DowntimeSchema)
    requires Text(doc, "host_name") == Some(req.hostName)
    requires Text(doc, "service_description") == req.serviceDescription
    requires Integer(doc, "entry_time") == Some(req.entryTime)
    requires Text(doc, "author_name") == req.authorName
    requires Text(doc, "comment_data") == req.commentData
    requires Integer(doc, "start_time") == Some(req.startTime)
    requires Integer(doc, "end_time") == Some(req.endTime)
    requires "fixed" in doc && doc["fixed"] == JBool(req.fixed)
    requires Integer(doc, "duration") == Some(req.duration)
    requires IntegerOr(doc, "triggered_by", 0) == req.triggeredBy
    ensures DecodeDowntime(doc) == Some(req)
  {
    DowntimeTargetFromDocument(doc);
    DowntimeWindowFromDocument(doc);
  }

  // --------------------------------------------------------------- command

  /** A generic command: `host_name` is required even for global commands. */
  const CommandSchema: Schema := [
    HostNameField,
    ServiceDescriptionField,
    Field("command_name", KString, true)
  ]

  datatype CommandRequest = CommandRequest(
    hostName: string,
    serviceDescription: Option<string>,
    commandName: string)

  function DecodeCommand(doc: Document): (r: Option<CommandRequest>)
    ensures r.Some? <==> AcceptsAll(doc, CommandSchema)
    ensures r.Some? ==>
      && Text(doc, "host_name") == Some(r.value.hostName)
      && Text(doc, "service_description") == r.value.serviceDescription
      && Text(doc, "command_name") == Some(r.value.commandName)
    ensures Text(doc, "host_name").None? || Text(doc, "command_name").None? ==> r.None?
  {
    var e := Extract(doc, CommandSchema);
    if !e.Ok() then None
    else
      assert CommandSchema[0].key == "host_name" && CommandSchema[1].key == "service_description"
        && CommandSchema[2].key == "command_name";
      var s := e.slots;
      Some(CommandRequest(Text(s, "host_name").value, Text(s, "service_description"), Text(s, "command_name").value))
  }

  /** The extra fields of `schedule_host_check` / `schedule_service_check`. */
  const ScheduleCheckSchema: Schema := [
    Field("next_check", KInteger, true),
    Field("force_execution", KBoolean, false),
    Field("freshness_check", KBoolean, false),
    Field("orphan_check", KBoolean, false)
  ]

  datatype ScheduleRequest = ScheduleRequest(
    nextCheck: int,
    forceExecution: bool,
    freshnessCheck: bool,
    orphanCheck: bool)

  function DecodeSchedule(doc: Document): (r: Option<ScheduleRequest>)
    ensures r.Some? <==> AcceptsAll(doc, ScheduleCheckSchema)
    ensures Integer(doc, "next_check").None? ==> r.None?
    ensures r.Some? ==>
      && Integer(doc, "next_check") == Some(r.value.nextCheck)
      && r.value.forceExecution == Flag(doc, "force_execution")
      && r.value.freshnessCheck == Flag(doc, "freshness_check")
      && r.value.orphanCheck == Flag(doc, "orphan_check")
  {
    var e := Extract(doc, ScheduleCheckSchema);
    if !e.Ok() then None
    else
      assert ScheduleCheckSchema[0].key == "next_check" && ScheduleCheckSchema[1].key == "force_execution"
        && ScheduleCheckSchema[2].key == "freshness_check" && ScheduleCheckSchema[3].key == "orphan_check";
      var s := e.slots;
      Some(ScheduleRequest(
        Integer(s, "next_check").value,
        Flag(s, "force_execution"),
        Flag(s, "freshness_check"),
        Flag(s, "orphan_check")))
  }

  /** The extra fields of the two `*_and_propagate_notifications` commands;
      all optional, all defaulting to 0. */
  const PropagateSchema: Schema := [
    Field("affect_top_host", KBoolean, false),
    Field("affect_hosts", KBoolean, false),
    Field("affect_services", KBoolean, false),
    Field("level", KInteger, false)
  ]

  datatype PropagateRequest = PropagateRequest(
    affectTopHost: bool,
    affectHosts: bool,
    affectServices: bool,
    level: int)

  function DecodePropagate(doc: Document): (r: Option<PropagateRequest>)
    ensures r.Some? <==> AcceptsAll(doc, PropagateSchema)
    ensures r.Some? ==>
      && r.value.affectTopHost == Flag(doc, "affect_top_host")
      && r.value.affectHosts == Flag(doc, "affect_hosts")
      && r.value.affectServices == Flag(doc, "affect_services")
      && r.value.level == IntegerOr(doc, "level", 0)
  {
    var e := Extract(doc, PropagateSchema);
    if !e.Ok() then None
    else
      assert PropagateSchema[0].key == "affect_top_host" && PropagateSchema[1].key == "affect_hosts"
        && PropagateSchema[2].key == "affect_services" && PropagateSchema[3].key == "level";
      var s := e.slots;
      Some(PropagateRequest(
        Flag(s, "affect_top_host"),
        Flag(s, "affect_hosts"),
        Flag(s, "affect_services"),
        IntegerOr(s, "level", 0)))
  }

  /** The extra fields of `delete_downtime`; both optional. */
  const CommentField: Field := Field("comment", KString, false)
  const DeleteDowntimeSchema: Schema := [CommentField, Field("start_time", KInteger, false)]

  datatype DeleteDowntimeRequest = DeleteDowntimeRequest(comment: Option<string>, startTime: int)

  /** `delete_downtime` ignores the extractor's verdict and reads whatever
      slots were written: the comment is the document's when it is a string,
      and `start_time` is read only when the comment did not stop the walk. */
  function DecodeDeleteDowntime(doc: Document): (r: DeleteDowntimeRequest)
    ensures r.comment == Text(doc, "comment")
    ensures r.startTime == (if Accepts(doc, CommentField) then IntegerOr(doc, "start_time", 0) else 0)
  {
    var e := Extract(doc, DeleteDowntimeSchema);
    ExtractWritesAcceptedPrefix(doc, DeleteDowntimeSchema);
    assert DeleteDowntimeSchema[0].key == "comment" && DeleteDowntimeSchema[1].key == "start_time";
    DeleteDowntimeRequest(Text(e.slots, "comment"), IntegerOr(e.slots, "start_time", 0))
  }
}
