/**
 * The generic `command` message: resolve the named host (and service),
 * then look the command name up in the table of engine commands and run
 * it when its scope is met. Two command families read extra fields of
 * their own; one more command exists only in some engine builds.
 */
module Commands {
  import opened Json
  import opened Fields
  import opened Engine
  import opened Requests

  /** What a table command needs resolved before it runs: nothing (a
      global toggle), the host, or a service of the host. */
  datatype Scope = Global | OnHost | OnService

  /** A command's scope and the engine function it calls. */
  datatype Descriptor = Descriptor(scope: Scope, action: string)

  /** The table commands of the `if`/`else` chain, keyed by the exact
      command name. Every name occurs once in the chain, so the chain is a
      lookup. Note the name `disable_all_notification`, whose engine
      function is `disable_all_notifications`. */
  const CommandTable: map<string, Descriptor> := map[
    "disable_service_checks"                 := Descriptor(OnService, "disable_service_checks"),
    "enable_service_checks"                  := Descriptor(OnService, "enable_service_checks"),
    "enable_all_notifications"               := Descriptor(Global, "enable_all_notifications"),
    "disable_all_notification"               := Descriptor(Global, "disable_all_notifications"),
    "enable_service_notifications"           := Descriptor(OnService, "enable_service_notifications"),
    "disable_service_notifications"          := Descriptor(OnService, "disable_service_notifications"),
    "enable_host_notifications"              := Descriptor(OnHost, "enable_host_notifications"),
    "disable_host_notifications"             := Descriptor(OnHost, "disable_host_notifications"),
    "remove_host_acknowledgement"            := Descriptor(OnHost, "remove_host_acknowledgement"),
    "remove_service_acknowledgement"         := Descriptor(OnService, "remove_service_acknowledgement"),
    "start_executing_service_checks"         := Descriptor(Global, "start_executing_service_checks"),
    "stop_executing_service_checks"          := Descriptor(Global, "stop_executing_service_checks"),
    "start_accepting_passive_service_checks" := Descriptor(Global, "start_accepting_passive_service_checks"),
    "stop_accepting_passive_service_checks"  := Descriptor(Global, "stop_accepting_passive_service_checks"),
    "enable_passive_service_checks"          := Descriptor(OnService, "enable_passive_service_checks"),
    "disable_passive_service_checks"         := Descriptor(OnService, "disable_passive_service_checks"),
    "start_using_event_handlers"             := Descriptor(Global, "start_using_event_handlers"),
    "stop_using_event_handlers"              := Descriptor(Global, "stop_using_event_handlers"),
    "enable_service_event_handler"           := Descriptor(OnService, "enable_service_event_handler"),
    "disable_service_event_handler"          := Descriptor(OnService, "disable_service_event_handler"),
    "enable_host_event_handler"              := Descriptor(OnHost, "enable_host_event_handler"),
    "disable_host_event_handler"             := Descriptor(OnHost, "disable_host_event_handler"),
    "enable_host_checks"                     := Descriptor(OnHost, "enable_host_checks"),
    "disable_host_checks"                    := Descriptor(OnHost, "disable_host_checks"),
    "enable_service_freshness_checks"        := Descriptor(Global, "enable_service_freshness_checks"),
    "start_obsessing_over_service"           := Descriptor(OnService, "start_obsessing_over_service"),
    "stop_obsessing_over_service"            := Descriptor(OnService, "stop_obsessing_over_service"),
    "start_obsessing_over_host"              := Descriptor(OnHost, "start_obsessing_over_host"),
    "stop_obsessing_over_host"               := Descriptor(OnHost, "stop_obsessing_over_host"),
    "enable_performance_data"                := Descriptor(Global, "enable_performance_data"),
    "disable_performance_data"               := Descriptor(Global, "disable_performance_data"),
    "start_executing_host_checks"            := Descriptor(Global, "start_executing_host_checks"),
    "stop_executing_host_checks"             := Descriptor(Global, "stop_executing_host_checks"),
    "start_accepting_passive_host_checks"    := Descriptor(Global, "start_accepting_passive_host_checks"),
    "stop_accepting_passive_host_checks"     := Descriptor(Global, "stop_accepting_passive_host_checks"),
    "enable_passive_host_checks"             := Descriptor(OnHost, "enable_passive_host_checks"),
    "disable_passive_host_checks"            := Descriptor(OnHost, "disable_passive_host_checks"),
    "enable_host_flap_detection"             := Descriptor(OnHost, "enable_host_flap_detection"),
    "disable_host_flap_detection"            := Descriptor(OnHost, "disable_host_flap_detection"),
    "enable_service_flap_detection"          := Descriptor(OnService, "enable_service_flap_detection"),
    "disable_service_flap_detection"         := Descriptor(OnService, "disable_service_flap_detection")
  ]

  const ScheduleHostCheckName: string := "schedule_host_check"
  const ScheduleServiceCheckName: string := "schedule_service_check"
  const DisableAndPropagateName: string := "disable_and_propagate_notifications"
  const EnableAndPropagateName: string := "enable_and_propagate_notifications"
  const DeleteDowntimeName: string := "delete_downtime"

  /** The commands with branches of their own are not table commands. */
  lemma ScheduleNamesOutsideTable()
    ensures ScheduleHostCheckName !in CommandTable && ScheduleServiceCheckName !in CommandTable
  {
  }

  lemma PropagateNamesOutsideTable()
    ensures DisableAndPropagateName !in CommandTable && EnableAndPropagateName !in CommandTable
  {
  }

  lemma DeleteDowntimeNameOutsideTable()
    ensures DeleteDowntimeName !in CommandTable
  {
  }

  /** Every command name the chain can act on in a given build. */
  predicate IsKnownCommand(name: string, deleteDowntime: bool)
  {
    || name in CommandTable
    || name == ScheduleHostCheckName
    || name == ScheduleServiceCheckName
    || name == DisableAndPropagateName
    || name == EnableAndPropagateName
    || (deleteDowntime && name == DeleteDowntimeName)
  }

  /** The targets once resolution has succeeded: the host always resolved
      (`host_name` is required), the service resolved exactly when a
      description was given. */
  datatype Targets = Targets(host: string, service: Option<string>)

  predicate Meets(scope: Scope, t: Targets)
  {
    match scope
    case Global => true
    case OnHost => true
    case OnService => t.service.Some?
  }

  function TargetOf(scope: Scope, t: Targets): Target
    requires Meets(scope, t)
  {
    match scope
    case Global => NoTarget
    case OnHost => HostTarget(t.host)
    case OnService => ServiceTarget(t.host, t.service.value)
  }

  /** The engine's check option bits. */
  const CheckOptionNone: bv32 := 0
  const CheckOptionForceExecution: bv32 := 1
  const CheckOptionFreshnessCheck: bv32 := 2
  const CheckOptionOrphanCheck: bv32 := 4

  /** The `flags |= ...` sequence: exactly the bits whose boolean is set. */
  function CheckOptions(forceExecution: bool, freshnessCheck: bool, orphanCheck: bool): (flags: bv32)
    ensures (flags & CheckOptionForceExecution != 0) <==> forceExecution
    ensures (flags & CheckOptionFreshnessCheck != 0) <==> freshnessCheck
    ensures (flags & CheckOptionOrphanCheck != 0) <==> orphanCheck
    ensures flags & !(CheckOptionForceExecution | CheckOptionFreshnessCheck | CheckOptionOrphanCheck) == 0
  {
    CheckOptionNone
    | (if forceExecution then CheckOptionForceExecution else CheckOptionNone)
    | (if freshnessCheck then CheckOptionFreshnessCheck else CheckOptionNone)
    | (if orphanCheck then CheckOptionOrphanCheck else CheckOptionNone)
  }

  /** `schedule_host_check` / `schedule_service_check` once their branch is
      taken: a missing or malformed `next_check` gives one warning; otherwise
      the service check is scheduled whenever a service resolved, whichever
      of the two names was used, and the host check otherwise. */
  function ScheduleCheck(doc: Document, t: Targets, name: string): (o: Outcome)
    ensures NothingOrWarned(o)
    ensures DecodeSchedule(doc).None? ==> o == Warned(InvalidCommandArguments(name, t.host, t.service))
    ensures DecodeSchedule(doc).Some? ==>
      var req := DecodeSchedule(doc).value;
      && o.log == [] && o.call.Some?
      && (o.call.value.ScheduleServiceCheck? <==> t.service.Some?)
      && (o.call.value.ScheduleHostCheck? <==> t.service.None?)
      && o.call.value.nextCheck == req.nextCheck
      && o.call.value.flags == CheckOptions(req.forceExecution, req.freshnessCheck, req.orphanCheck)
      && ActsWithin(o.call.value, t.host, t.service)
  {
    match DecodeSchedule(doc)
    case None => Warned(InvalidCommandArguments(name, t.host, t.service))
    case Some(req) =>
      var flags := CheckOptions(req.forceExecution, req.freshnessCheck, req.orphanCheck);
      if t.service.Some? then Called(ScheduleServiceCheck(t.host, t.service.value, req.nextCheck, flags))
      else Called(ScheduleHostCheck(t.host, req.nextCheck, flags))
  }

  /** `enable_and_propagate_notifications` / `disable_and_propagate_notifications`
      once their branch is taken: the name picks enable or disable, and the
      four optional fields reach the engine unchanged (0 when absent). */
  function Propagate(doc: Document, t: Targets, name: string): (o: Outcome)
    ensures NothingOrWarned(o)
    ensures DecodePropagate(doc).None? ==> o == Warned(InvalidCommandArguments(name, t.host, t.service))
    ensures DecodePropagate(doc).Some? ==> o.log == []
    ensures DecodePropagate(doc).Some? && (name == DisableAndPropagateName || name == EnableAndPropagateName) ==>
      && o.call.Some? && o.call.value.PropagateNotifications?
      && (o.call.value.enable <==> name == EnableAndPropagateName)
      && o.call.value.host == t.host
      && o.call.value.level == IntegerOr(doc, "level", 0)
      && o.call.value.affectTopHost == Flag(doc, "affect_top_host")
      && o.call.value.affectHosts == Flag(doc, "affect_hosts")
      && o.call.value.affectServices == Flag(doc, "affect_services")
    ensures name != DisableAndPropagateName && name != EnableAndPropagateName ==> o.call.None?
  {
    match DecodePropagate(doc)
    case None => Warned(InvalidCommandArguments(name, t.host, t.service))
    case Some(req) =>
      if name == DisableAndPropagateName then
        Called(PropagateNotifications(false, t.host, req.level, req.affectTopHost, req.affectHosts, req.affectServices))
      else if name == EnableAndPropagateName then
        Called(PropagateNotifications(true, t.host, req.level, req.affectTopHost, req.affectHosts, req.affectServices))
      else Silent
  }

  /** `delete_downtime`: always called, best effort, with whatever the
      extractor managed to write. */
  function DeleteDowntimeCommand(doc: Document, t: Targets): (o: Outcome)
    ensures NothingOrWarned(o)
    ensures o.log == [] && o.call.Some? && o.call.value.DeleteDowntime?
    ensures ActsWithin(o.call.value, t.host, t.service)
    ensures o.call.value.comment == Text(doc, "comment")
    ensures o.call.value.startTime == (if Accepts(doc, CommentField) then IntegerOr(doc, "start_time", 0) else 0)
  {
    var req := DecodeDeleteDowntime(doc);
    Called(DeleteDowntime(t.host, t.service, req.startTime, req.comment))
  }

  /** A table command once its name has matched: it runs exactly when its
      scope is met, on the resolved objects, and logs nothing. */
  function TableCommand(d: Descriptor, t: Targets): (o: Outcome)
    ensures NothingOrWarned(o)
    ensures o.log == []
    ensures o.call.Some? <==> Meets(d.scope, t)
    ensures o.call.Some? ==> o.call.value.Invoke? && o.call.value.action == d.action
    ensures o.call.Some? ==> ActsWithin(o.call.value, t.host, t.service)
    ensures o.call.Some? && d.scope == OnService ==> o.call.value.target == ServiceTarget(t.host, t.service.value)
    ensures o.call.Some? && d.scope == OnHost ==> o.call.value.target == HostTarget(t.host)
    ensures o.call.Some? && d.scope == Global ==> o.call.value.target == NoTarget
  {
    if Meets(d.scope, t) then Called(Invoke(d.action, TargetOf(d.scope, t))) else Silent
  }

  /** The branches of the chain after the table commands: the two check
      schedulers, the two propagating toggles and, in builds that have it,
      `delete_downtime`. Any other name does nothing and logs nothing. */
  function OtherCommand(doc: Document, t: Targets, name: string, deleteDowntime: bool): (o: Outcome)
    ensures name == ScheduleHostCheckName || (name == ScheduleServiceCheckName && t.service.Some?) ==>
      o == ScheduleCheck(doc, t, name)
    ensures name == ScheduleServiceCheckName && t.service.None? ==> o == Silent
    ensures name == DisableAndPropagateName || name == EnableAndPropagateName ==> o == Propagate(doc, t, name)
    ensures deleteDowntime && name == DeleteDowntimeName ==> o == DeleteDowntimeCommand(doc, t)
    ensures (name != ScheduleHostCheckName && name != ScheduleServiceCheckName
      && name != DisableAndPropagateName && name != EnableAndPropagateName
      && !(deleteDowntime && name == DeleteDowntimeName)) ==> o == Silent
    ensures o.call.Some? ==> ActsWithin(o.call.value, t.host, t.service)
    ensures NothingOrWarned(o)
  {
    if name == ScheduleHostCheckName || (name == ScheduleServiceCheckName && t.service.Some?) then
      ScheduleCheck(doc, t, name)
    else if name == DisableAndPropagateName || name == EnableAndPropagateName then
      Propagate(doc, t, name)
    else if deleteDowntime && name == DeleteDowntimeName then
      DeleteDowntimeCommand(doc, t)
    else
      Silent
  }

  /** The command chain after resolution: a table command when the name is
      in the table, one of the other branches otherwise. Only a known name
      can lead to a call, and every call stays within the resolved targets. */
  function RunCommand(doc: Document, t: Targets, name: string, deleteDowntime: bool): (o: Outcome)
    ensures o.call.Some? ==> IsKnownCommand(name, deleteDowntime)
    ensures o.call.Some? ==> ActsWithin(o.call.value, t.host, t.service)
    ensures NothingOrWarned(o)
  {
    if name in CommandTable then TableCommand(CommandTable[name], t)
    else OtherCommand(doc, t, name, deleteDowntime)
  }

  /** Which branch of the chain a name takes: the table decides first, so a
      table name never reaches the other branches, and none of the five
      names with branches of their own is in the table. An unknown name does
      nothing and logs nothing. */
  lemma RunCommandDispatch(doc: Document, t: Targets, name: string, deleteDowntime: bool)
    ensures name in CommandTable ==> RunCommand(doc, t, name, deleteDowntime) == TableCommand(CommandTable[name], t)
    ensures name !in CommandTable ==> RunCommand(doc, t, name, deleteDowntime) == OtherCommand(doc, t, name, deleteDowntime)
    ensures name == ScheduleHostCheckName || name == ScheduleServiceCheckName
         || name == DisableAndPropagateName || name == EnableAndPropagateName || name == DeleteDowntimeName
         ==> RunCommand(doc, t, name, deleteDowntime) == OtherCommand(doc, t, name, deleteDowntime)
    ensures !IsKnownCommand(name, deleteDowntime) ==> RunCommand(doc, t, name, deleteDowntime) == Silent
  {
    ScheduleNamesOutsideTable();
    PropagateNamesOutsideTable();
    DeleteDowntimeNameOutsideTable();
  }

  /** `process_cmd`. Invalid parameters give one warning; otherwise see
      `ProcessCmdOutcome`. A call only ever happens for a known name, on
      resolved objects named by the message, for a document the schema
      accepts, and with no warning logged. */
  function ProcessCmd(doc: Document, dir: Directory, features: Features): (o: Outcome)
    ensures AtMostOneWarning(o.log)
    ensures o.call.Some? ==> Quiet(o.log) && AcceptsAll(doc, CommandSchema)
    ensures DecodeCommand(doc).None? ==> o == Warned(InvalidCommandParameters)
    ensures o.call.Some? ==>
      && DecodeCommand(doc).Some?
      && IsKnownCommand(DecodeCommand(doc).value.commandName, features.deleteDowntime)
      && dir.Resolves(DecodeCommand(doc).value.hostName, DecodeCommand(doc).value.serviceDescription)
      && ActsWithin(o.call.value, DecodeCommand(doc).value.hostName, DecodeCommand(doc).value.serviceDescription)
  {
    match DecodeCommand(doc)
    case None => Warned(InvalidCommandParameters)
    case Some(req) =>
      var trace := Debug(CommandReceived(req.commandName), req.hostName, req.serviceDescription);
      if !dir.FindHost(req.hostName) then
        Outcome([trace, Warn(HostNotDefined(req.commandName, req.hostName))], None)
      else if req.serviceDescription.Some? && !dir.FindService(req.hostName, req.serviceDescription.value) then
        Outcome([trace, Warn(ServiceNotDefined(req.commandName, req.hostName, req.serviceDescription.value))], None)
      else
        var run := RunCommand(doc, Targets(req.hostName, req.serviceDescription), req.commandName, features.deleteDowntime);
        TracedOutcome(trace, run);
        Outcome([trace] + run.log, run.call)
  }

  /** A valid command first logs its debug line; an undefined host, or an
      undefined service of a defined host, then adds one warning and nothing
      runs, whatever the command (global ones included); when everything
      resolves the chain decides. */
  lemma ProcessCmdOutcome(doc: Document, dir: Directory, features: Features)
    requires DecodeCommand(doc).Some?
    ensures var o := ProcessCmd(doc, dir, features);
      var req := DecodeCommand(doc).value;
      var trace := Debug(CommandReceived(req.commandName), req.hostName, req.serviceDescription);
      && |o.log| >= 1 && o.log[0] == trace
      && (!dir.FindHost(req.hostName) ==>
            o == Outcome([trace, Warn(HostNotDefined(req.commandName, req.hostName))], None))
      && (dir.FindHost(req.hostName) && req.serviceDescription.Some?
          && !dir.FindService(req.hostName, req.serviceDescription.value) ==>
            o == Outcome([trace, Warn(ServiceNotDefined(req.commandName, req.hostName, req.serviceDescription.value))], None))
      && (dir.Resolves(req.hostName, req.serviceDescription) ==>
            var run := RunCommand(doc, Targets(req.hostName, req.serviceDescription), req.commandName, features.deleteDowntime);
            o == Outcome([trace] + run.log, run.call))
  {
  }
}
