/**
 * The entry point for one message pulled off the command socket: drop an
 * empty frame, reject text that is not JSON, read the `type` field and hand
 * the document to the handler that type names.
 */
module Router {
  import opened Json
  import opened Fields
  import opened Engine
  import opened Requests
  import opened Handlers
  import opened Commands

  /** A frame as the JSON parser leaves it: empty, not JSON (with the
      parser's reason and position), or a parsed document. */
  datatype Frame = EmptyFrame | Unparsable(reason: string, position: int) | Parsed(doc: Document)

  datatype Handler = CommandHandler | StatusHandler | AcknowledgementHandler | CommentHandler | DowntimeHandler

  /** The `type` values the module understands; both check-result types go
      to the same handler. Any other type is ignored without a word. */
  const HandlerTable: map<string, Handler> := map[
    "command" := CommandHandler,
    "host_check_processed" := StatusHandler,
    "service_check_processed" := StatusHandler,
    "acknowledgement" := AcknowledgementHandler,
    "comment_add" := CommentHandler,
    "downtime_add" := DowntimeHandler
  ]

  function Handle(h: Handler, doc: Document, dir: Directory, features: Features): (o: Outcome)
    ensures AtMostOneWarning(o.log)
    ensures o.call.Some? ==> Quiet(o.log) && AcceptsAll(doc, SchemaOf(h, features))
  {
    match h
    case CommandHandler => ProcessCmd(doc, dir, features)
    case StatusHandler => ProcessStatus(doc, dir)
    case AcknowledgementHandler => ProcessAcknowledgement(doc, dir, features.icinga)
    case CommentHandler => ProcessComment(doc)
    case DowntimeHandler => ProcessDowntime(doc)
  }

  /** The schema each handler extracts before it does anything. */
  function SchemaOf(h: Handler, features: Features): Schema
  {
    match h
    case CommandHandler => CommandSchema
    case StatusHandler => StatusSchema
    case AcknowledgementHandler => AcknowledgementSchema(features.icinga)
    case CommentHandler => CommentSchema
    case DowntimeHandler => DowntimeSchema
  }

  /** `process_pull_msg`. An empty frame is dropped silently; text that is
      not JSON, and a document without a string `type`, each give one
      warning; an unknown type is ignored; a known type is handled by its
      handler. Whatever the message, it gives at most one warning and at
      most one engine call, never both, and a call is only ever made for a
      document its handler's schema fully accepts. */
  function ProcessPullMsg(frame: Frame, dir: Directory, features: Features): (o: Outcome)
    ensures frame.EmptyFrame? ==> o == Silent
    ensures frame.Unparsable? ==> o == Warned(InvalidJson(frame.reason, frame.position))
    ensures frame.Parsed? && DecodeType(frame.doc).None? ==> o == Warned(MissingType)
    ensures frame.Parsed? && DecodeType(frame.doc).Some? && DecodeType(frame.doc).value !in HandlerTable ==> o == Silent
    ensures frame.Parsed? && DecodeType(frame.doc).Some? && DecodeType(frame.doc).value in HandlerTable ==>
      o == Handle(HandlerTable[DecodeType(frame.doc).value], frame.doc, dir, features)
    ensures o.call.Some? ==>
      && frame.Parsed? && DecodeType(frame.doc).Some? && DecodeType(frame.doc).value in HandlerTable
      && AcceptsAll(frame.doc, SchemaOf(HandlerTable[DecodeType(frame.doc).value], features))
    ensures AtMostOneWarning(o.log)
    ensures o.call.Some? ==> Quiet(o.log)
  {
    match frame
    case EmptyFrame => Silent
    case Unparsable(reason, position) => Warned(InvalidJson(reason, position))
    case Parsed(doc) =>
      match DecodeType(doc)
      case None => Warned(MissingType)
      case Some(t) =>
        if t in HandlerTable then Handle(HandlerTable[t], doc, dir, features) else Silent
  }
}
