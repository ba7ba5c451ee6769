# NagMQ command processor, modelled in Dafny

NagMQ is a Nagios/Icinga event broker module. Its command processor
(`mods/command_processor.c`) takes one message at a time off a ZeroMQ pull
socket. Each message is a JSON object. The processor reads its `type` and
hands it to one of five handlers:

- check results (`host_check_processed`, `service_check_processed`);
- acknowledgements;
- comments (`comment_add`);
- downtimes (`downtime_add`);
- generic commands (`command`): about forty engine toggles, check
  scheduling, notification propagation and, in some builds,
  `delete_downtime`.

Every handler first extracts its fields with `get_values`, against a schema
of (key, JSON kind, required) entries. The status, acknowledgement and
command handlers then resolve the named host and service; the comment and
downtime handlers pass the names on without a lookup. Each handler makes at
most one engine call, and logs runtime warnings and debug lines along the
way.

The C handlers are `void` functions that act through side effects. The
model captures their decision logic as Dafny functions from the parsed
document (and the engine's object directory) to an `Outcome`: the log lines
written and the engine call made, if any.

- `json.dfy` defines JSON values and documents.
- `fields.dfy` defines the extractor.
- `engine.dfy` defines the engine's directory, calls and log lines.
- `requests.dfy` holds each `get_values` schema and the request read from it.
- `handlers.dfy` holds the four domain handlers.
- `commands.dfy` holds `process_cmd` and its command chain.
- `router.dfy` holds `process_pull_msg`.
- `properties.dfy` holds cross-cutting lemmas.
- `scenarios.dfy` holds worked messages with their exact outcomes.

Two build switches are model parameters (`Engine.Features`):

- `HAVE_ICINGA` gives acknowledgements an `end_time`.
- `HAVE_DELETE_DOWNTIME_LONGNAME` adds `delete_downtime`.

Points where the code behaves in a way a reader might not expect:

- A check result's `start_time` is optional and its `finish_time` is required.
- A comment's `persistent` and `expires` are required booleans.
- Comments and downtimes are passed to the engine without any host or
  service lookup.
- The command `disable_all_notification` (no final `s`) calls
  `disable_all_notifications`.
- `schedule_host_check` schedules a *service* check whenever a service
  description was given and resolved.
- The acknowledgement debug line is written even when neither the host nor
  the service exists.
- A command such as `enable_service_checks` sent without a service still
  writes the "received command" debug line. It then makes no call and logs
  no warning (`Scenarios.EnableChecksHandled`).

## Model

| member | source | states |
|---|---|---|
| Fields.Extract | mods/command_processor.c:42-98 | `get_values` succeeds exactly when every schema entry is accepted: a present value has the requested JSON kind, and an absent one is optional. Every slot it writes holds the document's own value. On success, every declared key that is present has been written. |
| Fields.ExtractWritesAcceptedPrefix | mods/command_processor.c:577-588 | Even on failure, extraction writes exactly the present fields of the longest accepted prefix of the schema. It fails on the next entry and names that entry as missing or malformed. This matters for `delete_downtime`, which ignores the verdict. |
| Fields.SlotReads | mods/command_processor.c:42-98 | After a successful extraction, the slot of every declared entry holds what the document holds under that key. A required entry is present, and a present value has the requested shape. |
| Requests.DecodeType | mods/command_processor.c:611-617 | The `type` is read exactly when the document has a string under `type`, and it is that string. |
| Requests.DecodeStatus | mods/command_processor.c:42-98 | A check-result request exists exactly when the 13-entry schema accepts the document. `finish_time` is required and `start_time` is not. |
| Requests.StatusTargetFromDocument | mods/command_processor.c:42-58 | The decoded host name, service description, output and return code are the document's values. |
| Requests.StatusTimingFromDocument | mods/command_processor.c:59-74 | The start time (absent means untouched), finish time, check type and check options are the document's values. |
| Requests.StatusFlagsFromDocument | mods/command_processor.c:75-94 | The scheduling fields, the latency and the timeout/exit flags are the document's values when present, and untouched when absent. |
| Requests.StatusDecodesTo | mods/command_processor.c:42-98 | Conversely, an accepted document decodes to exactly the request whose fields are its values. |
| Requests.DecodeAcknowledgement | mods/command_processor.c:134-174 | An acknowledgement request exists exactly when its schema accepts the document. The Icinga build adds the optional `end_time` entry. |
| Requests.AcknowledgementTargetFromDocument | mods/command_processor.c:134-154 | The host, service, author and comment are the document's values. |
| Requests.AcknowledgementOptionsFromDocument | mods/command_processor.c:130-169 | The type is the document's value, 0 when absent. Each JSON_TRUE flag is true only when the document holds `true`. The end time exists only in the Icinga build, and is 0 when absent there. |
| Requests.AcknowledgementDecodesTo | mods/command_processor.c:134-174 | Conversely, an accepted document decodes to exactly the request built from its values. |
| Requests.DecodeComment | mods/command_processor.c:226-262 | A comment request exists exactly when the schema accepts the document, with `persistent` and `expires` required booleans. |
| Requests.CommentTargetFromDocument | mods/command_processor.c:226-246 | The host, service, text, author and timestamp are the document's values. |
| Requests.CommentFlagsFromDocument | mods/command_processor.c:223-259 | `persistent` and `expires` are the booleans the document holds. The expiry time is the document's value, 0 when absent. |
| Requests.CommentDecodesTo | mods/command_processor.c:226-262 | Conversely, an accepted document decodes to exactly the request built from its values. |
| Requests.DecodeDowntime | mods/command_processor.c:290-336 | A downtime request exists exactly when the schema accepts the document. Author and comment are optional, and `fixed` is a required boolean. |
| Requests.DowntimeTargetFromDocument | mods/command_processor.c:284-310 | The host, service and entry time are the document's values. An absent author or comment stays unset. |
| Requests.DowntimeWindowFromDocument | mods/command_processor.c:286-330 | The start, end, `fixed` and duration are the document's values. The trigger is the document's value, 0 when absent. |
| Requests.DowntimeDecodesTo | mods/command_processor.c:290-336 | Conversely, an accepted document decodes to exactly the request built from its values. |
| Requests.DecodeCommand | mods/command_processor.c:362-378 | A command request exists exactly when `host_name` and `command_name` are strings and any `service_description` is a string. Its fields are the document's values. |
| Requests.DecodeSchedule | mods/command_processor.c:495-523 | The scheduling arguments exist exactly when `next_check` is an integer and each flag present is a boolean. They are the document's values, and each flag is false unless the document sends `true`. |
| Requests.DecodePropagate | mods/command_processor.c:538-565 | The propagation arguments exist exactly when each present field has its kind. They are the document's values, each 0 when absent. |
| Requests.DecodeDeleteDowntime | mods/command_processor.c:575-588 | The comment is the document's string, if any. `start_time` is read only when the comment entry did not stop the extraction, and is 0 otherwise. |
| Handlers.ProcessStatus | mods/command_processor.c:34-126 | Invalid fields give one warning. An unknown host, or an unknown service of the host, gives another warning. Otherwise exactly one `process_check_result` is made, tagged with the NagMQ engine, on the named objects, and marked as a service check exactly when a service is named. A call is made exactly when the request decodes and resolves. At most one warning is logged, and none with a call. |
| Handlers.ProcessAcknowledgement | mods/command_processor.c:128-219 | Invalid fields give one warning. Otherwise the debug line is always logged. The service is acknowledged when it resolves; otherwise the host is acknowledged when it resolves; otherwise nothing happens. The call stays within the named objects. |
| Handlers.ProcessComment | mods/command_processor.c:221-281 | Invalid fields give one warning. Otherwise one comment is added without lookup. It is a service comment exactly when a service is named, its entry time is the timestamp's seconds, and all other fields are the request's. |
| Handlers.ProcessDowntime | mods/command_processor.c:283-355 | Invalid fields give one warning. Otherwise one downtime is scheduled without lookup. It is a service downtime exactly when a service is named, and its fields are the request's. |
| Commands.ScheduleNamesOutsideTable | mods/command_processor.c:411-494 | The two scheduling names are not plain table commands. |
| Commands.PropagateNamesOutsideTable | mods/command_processor.c:411-536 | The two propagation names are not plain table commands. |
| Commands.DeleteDowntimeNameOutsideTable | mods/command_processor.c:411-574 | `delete_downtime` is not a plain table command. |
| Commands.CheckOptions | mods/command_processor.c:524-530 | Each check-option bit is set exactly when its flag is, and no other bit is set. |
| Commands.ScheduleCheck | mods/command_processor.c:493-534 | Bad arguments give one warning naming the command and the objects. Otherwise one check is scheduled with the request's time and the bits of its flags. It is a service check exactly when a service resolved, whichever of the two names was used. |
| Commands.Propagate | mods/command_processor.c:535-572 | Bad arguments give one warning. Otherwise the name picks enable or disable, and the host, level and three flags reach the engine as sent. |
| Commands.DeleteDowntimeCommand | mods/command_processor.c:573-590 | The call is always made, on the named objects, with whatever the extraction wrote. No warning is logged. |
| Commands.TableCommand | mods/command_processor.c:411-492 | A matched table command runs exactly when its scope is met. It calls its engine function on the service, the host or nothing, according to its scope, and logs nothing. |
| Commands.OtherCommand | mods/command_processor.c:493-591 | The names after the table pick their branches. `schedule_service_check` without a service, and any unknown name, do nothing and log nothing. |
| Commands.RunCommand | mods/command_processor.c:411-591 | Only a known command name can lead to a call. The call stays within the resolved targets, and the chain logs nothing or a single warning. |
| Commands.RunCommandDispatch | mods/command_processor.c:411-591 | The table is consulted first, and none of the five special names is in it. An unknown name gives a silent outcome. |
| Commands.ProcessCmd | mods/command_processor.c:357-591 | Invalid fields give one warning. Any call is for a known command, on objects that resolved and that the message names, for a document the schema accepts, and with no warning logged. At most one warning is logged. |
| Commands.ProcessCmdOutcome | mods/command_processor.c:380-409 | The debug line comes first. An undefined host, or an undefined service of a defined host, adds one warning, and nothing runs, even for global commands. When everything resolves, the command chain decides. |
| Router.Handle | mods/command_processor.c:619-629 | Whatever the handler, at most one warning is logged. A call happens only for a document the handler's schema accepts, and then with no warning logged. |
| Router.ProcessPullMsg | mods/command_processor.c:593-632 | An empty frame is dropped silently. Invalid JSON and a missing `type` each give one warning. An unknown type is ignored silently, and a known type goes to its handler. A call implies a parsed, typed and fully accepted document, with no warning logged. |
| Properties.RejectsUnacceptedDocument | mods/command_processor.c:619-629 | A document that the handler's schema rejects gets that handler's single warning and no call. |
| Properties.MissingRequiredFieldRejected | mods/command_processor.c:611-629 | For every message type, a document lacking a field required by that type's schema gives exactly one warning and no call. |
| Properties.UnmatchedCommandOnlyTraced | mods/command_processor.c:380-591 | Once the targets resolve, an unknown command, or a table command whose scope is unmet, leaves only the debug line. |
| Properties.TableCommandsNeedTheirScope | mods/command_processor.c:387-492 | A table command calls the engine exactly when its objects resolve and its scope is met. |
| Scenarios.CommentDocDecodes | mods/command_processor.c:226-262 | A host comment message decodes to the expected request. |
| Scenarios.CommentHandled | mods/command_processor.c:264-281 | That message adds exactly one host comment carrying its flags, and logs one debug line. |
| Scenarios.CommentMessage | mods/command_processor.c:593-632 | The whole `comment_add` message, through `process_pull_msg`, logs one debug line and adds exactly that host comment. |
| Scenarios.EnableChecksHandled | mods/command_processor.c:380-413 | `enable_service_checks` without a service logs the debug line only. |
| Scenarios.EnableChecksMessage | mods/command_processor.c:593-632 | The whole `enable_service_checks` message without a service logs the debug line and nothing else. |
| Scenarios.MissingHostHandled | mods/command_processor.c:380-396 | A command for an undefined host logs the debug line and one warning, and makes no call. |
| Scenarios.MissingHostMessage | mods/command_processor.c:593-632 | The whole message for an undefined host logs the debug line and one warning, and makes no call. |
| Scenarios.ScheduleCommandRuns | mods/command_processor.c:493-534 | A forced `schedule_service_check` schedules the service check with only the force bit set. |
| Scenarios.ScheduleCommandHandled | mods/command_processor.c:357-534 | The same message, through `process_cmd`, gives the debug line and that single call. |
| Scenarios.ScheduleMessage | mods/command_processor.c:593-632 | The whole forced `schedule_service_check` message logs the debug line and schedules that one service check. |
| Scenarios.HostCheckDocDecodes | mods/command_processor.c:42-98 | A host check result decodes to the expected request. |
| Scenarios.HostCheckHandled | mods/command_processor.c:100-126 | That message makes one NagMQ-tagged host check result with the fields as sent. |
| Scenarios.HostCheckMessage | mods/command_processor.c:593-632 | The whole `host_check_processed` message logs the debug line and makes that single check-result call. |

## Left out

- The ZeroMQ socket and the message buffer are not modelled. A frame arrives already classified as empty, unparsable (with the parser's reason and position) or a parsed object.
- The jansson parser is not modelled. A parsed JSON text whose top level is not an object is not modelled either: a document is a map from keys to values.
- Key order and duplicate keys in a JSON object are not represented, because a document is a map.
- `get_values` is not part of this model's source. Its behaviour is an assumption:
  - fields are checked in schema order, and the first absent required or malformed entry stops the walk;
  - JSON_TRUE accepts any boolean;
  - JSON_TIMEVAL is an object with integer `sec` and `usec`.
- Log message texts, log levels and the debug verbosity switches are not modelled. A log line is a warning or debug entry with its arguments.
- The relative order of the log lines and the engine call is not modelled.
- Memory management (`strdup`, `free_check_result`, `json_decref`) is not modelled.
- The output-file fields of the check result are not modelled.
- The defaults `init_check_result` leaves in the check result are not modelled. An absent optional check-result field is `None`, meaning "left at the engine's default".
- The engine functions themselves are recorded only as calls: acknowledging, commenting, scheduling, the forty toggles and downtime deletion.
- The command chain is modelled as a lookup in a map from the 41 table names to their scope and engine function. This relies on every name occurring once in the chain.
- Requests.DecodeStatus: `latency` is an unbounded real, not a C `double`.
- All integers are unbounded: the conversions `get_values` makes into C integer types are not modelled. This covers:
  - the `int` fields of the check result (`return_code`, `check_type`, `check_options`, `scheduled_check`, `reschedule_check`, `early_timeout`, `exited_ok`);
  - the `int` acknowledgement type and end time;
  - the `time_t` fields (downtime `entry_time`, `start_time` and `end_time`, comment `expire_time`, scheduling `next_check`, `delete_downtime`'s `start_time`);
  - the `unsigned long` downtime `duration` and `triggered_by`;
  - the `int` propagation `level`.
