/**
 * Worked messages: concrete documents and the exact outcome the command
 * processor produces for them, against a directory that defines host
 * `hostA` and its service `svcB`. Each scenario shows the decoded request,
 * the handler's exact outcome, the handler the router picks, and the exact
 * outcome of the whole message through `ProcessPullMsg`.
 */
module Scenarios {
  import opened Json
  import opened Fields
  import opened Engine
  import opened Requests
  import opened Handlers
  import opened Commands
  import opened Router

  const Known: Directory := Directory({"hostA"}, {("hostA", "svcB")})
  const Plain: Features := Features(false, false)

  function Stamp(sec: int, usec: int): Json
  {
    JObject(map["sec" := JInt(sec), "usec" := JInt(usec)])
  }

  // ------------------------------------------------------ a host comment

  const CommentDoc: Document := map[
    "type" := JString("comment_add"),
    "host_name" := JString("hostA"),
    "comment_data" := JString("test"),
    "author_name" := JString("admin"),
    "timestamp" := Stamp(1000, 0),
    "persistent" := JBool(true),
    "expires" := JBool(false)]

  const CommentCall: EngineCall :=
    AddNewComment(HostObject, "hostA", None, 1000, "admin", "test", true, false, 0)

  lemma CommentDocAccepted()
    ensures AcceptsAll(CommentDoc, CommentSchema)
  {
    var doc := CommentDoc;
    assert doc["host_name"].JString? && doc["comment_data"].JString? && doc["author_name"].JString?;
    assert Time(doc, "timestamp").Some? && doc["persistent"].JBool? && doc["expires"].JBool?;
    assert CommentSchema[0].key == "host_name" && CommentSchema[1].key == "service_description"
      && CommentSchema[2].key == "comment_data" && CommentSchema[3].key == "author_name"
      && CommentSchema[4].key == "timestamp" && CommentSchema[5].key == "persistent"
      && CommentSchema[6].key == "expires" && CommentSchema[7].key == "expire_time";
  }

  lemma CommentDocDecodes()
    ensures DecodeComment(CommentDoc) == Some(CommentRequest("hostA", None, "test", "admin", TimeVal(1000, 0), true, false, 0))
  {
    var doc := CommentDoc;
    CommentDocAccepted();
    assert Text(doc, "host_name") == Some("hostA") && "service_description" !in doc;
    assert Text(doc, "comment_data") == Some("test") && Text(doc, "author_name") == Some("admin");
    assert Time(doc, "timestamp") == Some(TimeVal(1000, 0));
    assert doc["persistent"] == JBool(true) && doc["expires"] == JBool(false);
    assert "expire_time" !in doc;
    CommentDecodesTo(doc, CommentRequest("hostA", None, "test", "admin", TimeVal(1000, 0), true, false, 0));
  }

  /** One host-scoped comment call carrying the flags as sent. */
  lemma CommentHandled()
    ensures ProcessComment(CommentDoc) == Outcome([Debug(CommentReceived, "hostA", None)], Some(CommentCall))
  {
    CommentDocDecodes();
  }

  /** A `comment_add` message goes to CommentHandler. */
  lemma CommentRouted()
    ensures DecodeType(CommentDoc) == Some("comment_add") && HandlerTable["comment_add"] == CommentHandler
  {
    assert Text(CommentDoc, "type") == Some("comment_add");
  }

  /** The whole `comment_add` message: one debug line and the comment call. */
  lemma CommentMessage()
    ensures ProcessPullMsg(Parsed(CommentDoc), Known, Plain) == Outcome([Debug(CommentReceived, "hostA", None)], Some(CommentCall))
  {
    CommentRouted();
    CommentHandled();
  }

  // ------------------------- a service-scoped command without a service

  const EnableChecksDoc: Document := map[
    "type" := JString("command"),
    "host_name" := JString("hostA"),
    "command_name" := JString("enable_service_checks")]

  lemma EnableChecksDocDecodes()
    ensures DecodeCommand(EnableChecksDoc) == Some(CommandRequest("hostA", None, "enable_service_checks"))
  {
    var doc := EnableChecksDoc;
    assert Text(doc, "host_name") == Some("hostA") && "service_description" !in doc;
    assert Text(doc, "command_name") == Some("enable_service_checks");
    assert AcceptsAll(doc, CommandSchema) by {
      assert CommandSchema[0].key == "host_name" && CommandSchema[1].key == "service_description"
        && CommandSchema[2].key == "command_name";
    }
  }

  lemma EnableServiceChecksIsServiceScoped()
    ensures "enable_service_checks" in CommandTable
    ensures CommandTable["enable_service_checks"] == Descriptor(OnService, "enable_service_checks")
  {
  }

  /** The debug line, and nothing else: no call and no warning. */
  lemma EnableChecksHandled()
    ensures ProcessCmd(EnableChecksDoc, Known, Plain)
         == Outcome([Debug(CommandReceived("enable_service_checks"), "hostA", None)], None)
  {
    EnableChecksDocDecodes();
    EnableServiceChecksIsServiceScoped();
  }

  /** A `command` message goes to CommandHandler. */
  lemma EnableChecksRouted()
    ensures DecodeType(EnableChecksDoc) == Some("command") && HandlerTable["command"] == CommandHandler
  {
    assert Text(EnableChecksDoc, "type") == Some("command");
  }

  /** The whole message: the debug line, and nothing else. */
  lemma EnableChecksMessage()
    ensures ProcessPullMsg(Parsed(EnableChecksDoc), Known, Plain)
         == Outcome([Debug(CommandReceived("enable_service_checks"), "hostA", None)], None)
  {
    EnableChecksRouted();
    EnableChecksHandled();
  }

  // ------------------------------------------- a command for a missing host

  const MissingHostDoc: Document := map[
    "type" := JString("command"),
    "host_name" := JString("missing-host"),
    "command_name" := JString("disable_host_checks")]

  lemma MissingHostDocDecodes()
    ensures DecodeCommand(MissingHostDoc) == Some(CommandRequest("missing-host", None, "disable_host_checks"))
  {
    var doc := MissingHostDoc;
    assert Text(doc, "host_name") == Some("missing-host") && "service_description" !in doc;
    assert Text(doc, "command_name") == Some("disable_host_checks");
    assert AcceptsAll(doc, CommandSchema) by {
      assert CommandSchema[0].key == "host_name" && CommandSchema[1].key == "service_description"
        && CommandSchema[2].key == "command_name";
    }
  }

  /** The debug line, one warning, no call. */
  lemma MissingHostHandled()
    ensures ProcessCmd(MissingHostDoc, Known, Plain)
         == Outcome([Debug(CommandReceived("disable_host_checks"), "missing-host", None),
                     Warn(HostNotDefined("disable_host_checks", "missing-host"))], None)
  {
    MissingHostDocDecodes();
    assert !Known.FindHost("missing-host");
  }

  /** A `command` message goes to CommandHandler. */
  lemma MissingHostRouted()
    ensures DecodeType(MissingHostDoc) == Some("command") && HandlerTable["command"] == CommandHandler
  {
    assert Text(MissingHostDoc, "type") == Some("command");
  }

  /** The whole message: the debug line, one warning, no call. */
  lemma MissingHostMessage()
    ensures ProcessPullMsg(Parsed(MissingHostDoc), Known, Plain)
         == Outcome([Debug(CommandReceived("disable_host_checks"), "missing-host", None),
                     Warn(HostNotDefined("disable_host_checks", "missing-host"))], None)
  {
    MissingHostRouted();
    MissingHostHandled();
  }

  // ----------------------------------------------- a forced service check

  const ScheduleDoc: Document := map[
    "type" := JString("command"),
    "host_name" := JString("hostA"),
    "service_description" := JString("svcB"),
    "command_name" := JString("schedule_service_check"),
    "next_check" := JInt(1700000000),
    "force_execution" := JBool(true)]

  const ScheduleCall: EngineCall := ScheduleServiceCheck("hostA", "svcB", 1700000000, CheckOptionForceExecution)

  lemma ScheduleDocDecodes()
    ensures DecodeCommand(ScheduleDoc) == Some(CommandRequest("hostA", Some("svcB"), "schedule_service_check"))
  {
    var doc := ScheduleDoc;
    assert Text(doc, "host_name") == Some("hostA") && Text(doc, "service_description") == Some("svcB");
    assert Text(doc, "command_name") == Some("schedule_service_check");
    assert AcceptsAll(doc, CommandSchema) by {
      assert CommandSchema[0].key == "host_name" && CommandSchema[1].key == "service_description"
        && CommandSchema[2].key == "command_name";
    }
  }

  lemma ScheduleDocArguments()
    ensures DecodeSchedule(ScheduleDoc) == Some(ScheduleRequest(1700000000, true, false, false))
  {
    var doc := ScheduleDoc;
    assert Integer(doc, "next_check") == Some(1700000000);
    assert Flag(doc, "force_execution");
    assert "freshness_check" !in doc && "orphan_check" !in doc;
    assert AcceptsAll(doc, ScheduleCheckSchema) by {
      assert ScheduleCheckSchema[0].key == "next_check" && ScheduleCheckSchema[1].key == "force_execution"
        && ScheduleCheckSchema[2].key == "freshness_check" && ScheduleCheckSchema[3].key == "orphan_check";
    }
  }

  lemma ScheduleCommandRuns()
    ensures RunCommand(ScheduleDoc, Targets("hostA", Some("svcB")), "schedule_service_check", false) == Called(ScheduleCall)
  {
    ScheduleDocArguments();
    ScheduleNamesOutsideTable();
  }

  /** One service check scheduled, with the force-execution bit and no other. */
  lemma ScheduleCommandHandled()
    ensures ProcessCmd(ScheduleDoc, Known, Plain)
         == Outcome([Debug(CommandReceived("schedule_service_check"), "hostA", Some("svcB"))], Some(ScheduleCall))
  {
    ScheduleDocDecodes();
    ScheduleCommandRuns();
  }

  /** A `command` message goes to CommandHandler. */
  lemma ScheduleRouted()
    ensures DecodeType(ScheduleDoc) == Some("command") && HandlerTable["command"] == CommandHandler
  {
    assert Text(ScheduleDoc, "type") == Some("command");
  }

  /** The whole message: the debug line and the one scheduled check. */
  lemma ScheduleMessage()
    ensures ProcessPullMsg(Parsed(ScheduleDoc), Known, Plain)
         == Outcome([Debug(CommandReceived("schedule_service_check"), "hostA", Some("svcB"))], Some(ScheduleCall))
  {
    ScheduleRouted();
    ScheduleCommandHandled();
  }

  // -------------------------------------------------- a host check result

  const HostCheckDoc: Document := map[
    "type" := JString("host_check_processed"),
    "host_name" := JString("hostA"),
    "output" := JString("OK"),
    "return_code" := JInt(0),
    "start_time" := Stamp(1, 0),
    "finish_time" := Stamp(2, 0),
    "check_type" := JInt(0)]

  const HostCheckData: CheckData :=
    CheckData(0, Some(TimeVal(1, 0)), TimeVal(2, 0), 0, None, None, None, None, None, None)

  const HostCheckCall: EngineCall :=
    ProcessCheckResult(CheckResult("hostA", None, HostCheck, "OK", HostCheckData, NagMQSourceName))

  /** The object, the output and the return code as sent. */
  lemma HostCheckDocObject()
    ensures Text(HostCheckDoc, "host_name") == Some("hostA") && "service_description" !in HostCheckDoc
    ensures Text(HostCheckDoc, "output") == Some("OK") && Integer(HostCheckDoc, "return_code") == Some(0)
    ensures forall i :: 0 <= i < 4 ==> Accepts(HostCheckDoc, StatusSchema[i])
  {
    assert StatusSchema[0].key == "host_name" && StatusSchema[1].key == "service_description"
      && StatusSchema[2].key == "output" && StatusSchema[3].key == "return_code";
  }

  /** The two times and the check type as sent. */
  lemma HostCheckDocTiming()
    ensures Time(HostCheckDoc, "start_time") == Some(TimeVal(1, 0))
    ensures Time(HostCheckDoc, "finish_time") == Some(TimeVal(2, 0))
    ensures Integer(HostCheckDoc, "check_type") == Some(0)
    ensures forall i :: 4 <= i < 7 ==> Accepts(HostCheckDoc, StatusSchema[i])
  {
    assert StatusSchema[4].key == "start_time" && StatusSchema[5].key == "finish_time"
      && StatusSchema[6].key == "check_type";
  }

  /** None of the optional check fields is sent. */
  lemma HostCheckDocLacksOptional()
    ensures "check_options" !in HostCheckDoc && "scheduled_check" !in HostCheckDoc
    ensures "reschedule_check" !in HostCheckDoc && "latency" !in HostCheckDoc
    ensures "early_timeout" !in HostCheckDoc && "exited_ok" !in HostCheckDoc
    ensures forall i :: 7 <= i < |StatusSchema| ==> Accepts(HostCheckDoc, StatusSchema[i])
  {
    assert StatusSchema[7].key == "check_options"
      && StatusSchema[8].key == "scheduled_check" && StatusSchema[9].key == "reschedule_check"
      && StatusSchema[10].key == "latency" && StatusSchema[11].key == "early_timeout"
      && StatusSchema[12].key == "exited_ok";
  }

  lemma HostCheckDocDecodes()
    ensures DecodeStatus(HostCheckDoc) == Some(StatusRequest("hostA", None, "OK", HostCheckData))
  {
    HostCheckDocObject();
    HostCheckDocTiming();
    HostCheckDocLacksOptional();
    StatusDecodesTo(HostCheckDoc, StatusRequest("hostA", None, "OK", HostCheckData));
  }

  /** One check result, tagged NagMQ, with the fields as sent. */
  lemma HostCheckHandled()
    ensures ProcessStatus(HostCheckDoc, Known) == Outcome([Debug(CheckResultReceived, "hostA", None)], Some(HostCheckCall))
  {
    HostCheckDocDecodes();
  }

  /** A `host_check_processed` message goes to StatusHandler. */
  lemma HostCheckRouted()
    ensures DecodeType(HostCheckDoc) == Some("host_check_processed") && HandlerTable["host_check_processed"] == StatusHandler
  {
    assert Text(HostCheckDoc, "type") == Some("host_check_processed");
  }

  /** The whole `host_check_processed` message: the debug line and the check result. */
  lemma HostCheckMessage()
    ensures ProcessPullMsg(Parsed(HostCheckDoc), Known, Plain) == Outcome([Debug(CheckResultReceived, "hostA", None)], Some(HostCheckCall))
  {
    HostCheckRouted();
    HostCheckHandled();
  }
}
