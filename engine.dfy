/**
 * What the command processor sees of the monitoring engine: its object
 * directory (`find_host`, `find_service`), the engine calls a message can
 * turn into, and the log lines it can write.
 */
module Engine {
  import opened Json
  import opened Fields

  /** The engine's object directory: the defined hosts, and the defined
      services as (host name, service description) pairs. */
  datatype Directory = Directory(hosts: set<string>, services: set<(string, string)>)
  {
    /** `find_host(host) != NULL` */
    predicate FindHost(host: string) { host in hosts }

    /** `find_service(host, service) != NULL` */
    predicate FindService(host: string, service: string) { (host, service) in services }

    /** The host resolves and, when a service description is given, so does
        that service of the host. */
    predicate Resolves(host: string, service: Option<string>)
    {
      FindHost(host) && (service.Some? ==> FindService(host, service.value))
    }
  }

  /** The engine variant the module is built against: `HAVE_ICINGA` gives
      acknowledgements an end time, `HAVE_DELETE_DOWNTIME_LONGNAME` adds the
      `delete_downtime` command. */
  datatype Features = Features(icinga: bool, deleteDowntime: bool)

  /** The name of `nagmq_check_engine`, the source tag of every check result. */
  const NagMQSourceName: string := "NagMQ"

  /** `object_check_type` of a check result; HOST_CHECK is the value the
      engine's `init_check_result` leaves there. */
  datatype CheckObject = HostCheck | ServiceCheck

  /** The check-result fields that `get_values` writes straight into the
      engine's `check_result`; an absent optional one is None, meaning it keeps
      the value `init_check_result` gave it. */
  datatype CheckData = CheckData(
    returnCode: int,
    startTime: Option<TimeVal>,
    finishTime: TimeVal,
    checkType: int,
    checkOptions: Option<int>,
    scheduledCheck: Option<int>,
    rescheduleCheck: Option<int>,
    latency: Option<real>,
    earlyTimeout: Option<int>,
    exitedOk: Option<int>)

  /** The `check_result` handed to `process_check_result`. */
  datatype CheckResult = CheckResult(
    hostName: string,
    serviceDescription: Option<string>,
    objectCheckType: CheckObject,
    output: string,
    data: CheckData,
    engine: string)

  /** The arguments every acknowledge call shares; `endTime` exists only in
      the Icinga build. */
  datatype AckData = AckData(
    authorName: string,
    commentData: string,
    acknowledgementType: int,
    notifyContacts: bool,
    persistentComment: bool,
    endTime: Option<int>)

  /** HOST_COMMENT / SERVICE_COMMENT and HOST_DOWNTIME / SERVICE_DOWNTIME. */
  datatype ObjectKind = HostObject | ServiceObject

  /** The object a table command acts on. */
  datatype Target = NoTarget | HostTarget(host: string) | ServiceTarget(host: string, service: string)

  /** One call into the engine. Comments are always added as USER_COMMENT
      with source COMMENTSOURCE_EXTERNAL. */
  datatype EngineCall =
    | ProcessCheckResult(result: CheckResult)
    | AcknowledgeHostProblem(host: string, ack: AckData)
    | AcknowledgeServiceProblem(host: string, service: string, ack: AckData)
    | AddNewComment(commentKind: ObjectKind, host: string, serviceDescription: Option<string>,
                    entryTime: int, authorName: string, commentData: string,
                    persistent: bool, expires: bool, expireTime: int)
    | ScheduleDowntime(downtimeKind: ObjectKind, host: string, serviceDescription: Option<string>,
                       entryTime: int, downtimeAuthor: Option<string>, downtimeComment: Option<string>,
                       startTime: int, endTime: int, fixed: bool, triggeredBy: int, duration: int)
    | Invoke(action: string, target: Target)
    | ScheduleHostCheck(host: string, nextCheck: int, flags: bv32)
    | ScheduleServiceCheck(host: string, service: string, nextCheck: int, flags: bv32)
    | PropagateNotifications(enable: bool, host: string, level: int,
                             affectTopHost: bool, affectHosts: bool, affectServices: bool)
    | DeleteDowntime(host: string, serviceDescription: Option<string>, startTime: int, comment: Option<string>)

  /** The call touches no host other than `host` and no service other than
      the given one (none at all when no service is given). */
  predicate ActsWithin(call: EngineCall, host: string, service: Option<string>)
  {
    match call
    case ProcessCheckResult(cr) =>
      cr.hostName == host && (cr.serviceDescription.Some? ==> cr.serviceDescription == service)
    case AcknowledgeHostProblem(h, _) => h == host
    case AcknowledgeServiceProblem(h, s, _) => h == host && service == Some(s)
    case AddNewComment(_, h, s, _, _, _, _, _, _) => h == host && s == service
    case ScheduleDowntime(_, h, s, _, _, _, _, _, _, _, _) => h == host && s == service
    case Invoke(_, target) =>
      (match target
       case NoTarget => true
       case HostTarget(h) => h == host
       case ServiceTarget(h, s) => h == host && service == Some(s))
    case ScheduleHostCheck(h, _, _) => h == host
    case ScheduleServiceCheck(h, s, _, _) => h == host && service == Some(s)
    case PropagateNotifications(_, h, _, _, _, _) => h == host
    case DeleteDowntime(h, s, _, _) => h == host && s == service
  }

  /** The runtime warnings (`logit(NSLOG_RUNTIME_WARNING, ...)`), one per
      distinct message the module writes. */
  datatype Warning =
    | InvalidJson(reason: string, position: int)
    | MissingType
    | InvalidCheckResultParameters
    | CheckResultForInvalidObject
    | InvalidAcknowledgementParameters
    | InvalidCommentParameters
    | InvalidDowntimeParameters
    | InvalidCommandParameters
    | HostNotDefined(command: string, host: string)
    | ServiceNotDefined(command: string, host: string, service: string)
    | InvalidCommandArguments(command: string, host: string, serviceDescription: Option<string>)

  /** What a debug line (`log_debug_info`) reports receiving. */
  datatype Subject =
    | CheckResultReceived
    | AcknowledgementReceived
    | CommentReceived
    | DowntimeReceived
    | CommandReceived(command: string)

  /** A log line: a warning, or a debug trace naming the host and the service
      (None prints as "(n/a)"). */
  datatype LogEntry =
    | Warn(warning: Warning)
    | Debug(subject: Subject, host: string, service: Option<string>)

  /** Everything handling one message does: the lines it logs and the engine
      call it makes, if any. A message never makes more than one call. */
  datatype Outcome = Outcome(log: seq<LogEntry>, call: Option<EngineCall>)

  /** Nothing logged, nothing called. */
  const Silent: Outcome := Outcome([], None)

  /** Exactly one warning and no call. */
  function Warned(w: Warning): Outcome
  {
    Outcome([Warn(w)], None)
  }

  /** Exactly one call and no log line. */
  function Called(c: EngineCall): Outcome
  {
    Outcome([], Some(c))
  }

  /** Nothing logged, or a single warning and no call. */
  predicate NothingOrWarned(o: Outcome)
  {
    o.log == [] || (o.call.None? && |o.log| == 1 && o.log[0].Warn?)
  }

  /** No two warnings among the log lines. */
  predicate AtMostOneWarning(log: seq<LogEntry>)
  {
    forall i, j :: 0 <= i < j < |log| && log[i].Warn? ==> !log[j].Warn?
  }

  /** No warning among the log lines. */
  predicate Quiet(log: seq<LogEntry>)
  {
    forall i :: 0 <= i < |log| ==> log[i].Debug?
  }

  /** A debug line followed by the lines of an outcome that logged nothing
      or a single warning: still at most one warning, and none when the
      outcome made a call. */
  lemma TracedOutcome(trace: LogEntry, o: Outcome)
    requires trace.Debug? && NothingOrWarned(o)
    ensures AtMostOneWarning([trace] + o.log)
    ensures o.call.Some? ==> Quiet([trace] + o.log)
  {
    var log := [trace] + o.log;
    assert log[0] == trace;
    if o.log != [] {
      assert |log| == 2 && log[1] == o.log[0];
    }
  }
}
