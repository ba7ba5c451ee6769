/**
 * Properties that span the router, the handlers and the extractor.
 */
module Properties {
  import opened Json
  import opened Fields
  import opened Engine
  import opened Requests
  import opened Handlers
  import opened Commands
  import opened Router

  /** The warning each handler gives when its own extraction fails. */
  function InvalidParameters(h: Handler): Warning
  {
    match h
    case CommandHandler => InvalidCommandParameters
    case StatusHandler => InvalidCheckResultParameters
    case AcknowledgementHandler => InvalidAcknowledgementParameters
    case CommentHandler => InvalidCommentParameters
    case DowntimeHandler => InvalidDowntimeParameters
  }

  /** A document its handler's schema does not accept is rejected with that
      handler's single warning and no call; with the converse in
      `ProcessPullMsg`, a handler calls the engine only on documents its
      schema accepts. */
  lemma RejectsUnacceptedDocument(h: Handler, doc: Document, dir: Directory, features: Features)
    requires !AcceptsAll(doc, SchemaOf(h, features))
    ensures Handle(h, doc, dir, features) == Warned(InvalidParameters(h))
  {
  }

  /** For every message type, a document that lacks a field the type's
      schema requires gives exactly one warning and no engine call. */
  lemma MissingRequiredFieldRejected(doc: Document, dir: Directory, features: Features, i: nat)
    requires DecodeType(doc).Some? && DecodeType(doc).value in HandlerTable
    requires i < |SchemaOf(HandlerTable[DecodeType(doc).value], features)|
    requires SchemaOf(HandlerTable[DecodeType(doc).value], features)[i].required
    requires SchemaOf(HandlerTable[DecodeType(doc).value], features)[i].key !in doc
    ensures var o := ProcessPullMsg(Parsed(doc), dir, features);
      o.call.None? && |o.log| == 1 && o.log[0].Warn?
  {
    var h := HandlerTable[DecodeType(doc).value];
    assert !Accepts(doc, SchemaOf(h, features)[i]);
    RejectsUnacceptedDocument(h, doc, dir, features);
  }

  /** Once the targets resolve, a command name the chain does not know, or a
      table command whose scope the targets do not meet, leaves only the
      debug line: no call and no warning. */
  lemma UnmatchedCommandOnlyTraced(doc: Document, dir: Directory, features: Features)
    requires DecodeCommand(doc).Some?
    requires dir.Resolves(DecodeCommand(doc).value.hostName, DecodeCommand(doc).value.serviceDescription)
    requires var name := DecodeCommand(doc).value.commandName;
      || !IsKnownCommand(name, features.deleteDowntime)
      || (name in CommandTable && !Meets(CommandTable[name].scope,
            Targets(DecodeCommand(doc).value.hostName, DecodeCommand(doc).value.serviceDescription)))
    ensures var req := DecodeCommand(doc).value;
      ProcessCmd(doc, dir, features)
        == Outcome([Debug(CommandReceived(req.commandName), req.hostName, req.serviceDescription)], None)
  {
  }

  /** A service-scoped table command never runs without a service
      description, and a host-scoped or global one never runs without a
      defined host. */
  lemma TableCommandsNeedTheirScope(doc: Document, dir: Directory, features: Features)
    requires DecodeCommand(doc).Some? && DecodeCommand(doc).value.commandName in CommandTable
    ensures var req := DecodeCommand(doc).value;
      ProcessCmd(doc, dir, features).call.Some? <==>
        && dir.Resolves(req.hostName, req.serviceDescription)
        && Meets(CommandTable[req.commandName].scope, Targets(req.hostName, req.serviceDescription))
  {
  }
}

