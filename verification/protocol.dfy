/** The initialization handshake: the protocol-version check, the descriptive
    server records and `initialize_server`, which either returns the validated
    version with the server's info and capabilities or a structured
    `ProtocolError` that tells the client how to retry. */
module Protocol {
  import opened Wrappers
  import opened Payload

  /** The one protocol version the server speaks. */
  const SupportedVersion: string := "2025-03-26"

  const ServerName: string := "pytest-mcp"
  const ServerVersion: string := "0.1.0"

  /** The field name reported when the handshake version is refused. */
  const VersionField: string := "protocolVersion"

  const UnsupportedDetail: string :=
    "Protocol version not supported. Please retry initialization with supported version."

  datatype ProtocolVersion = ProtocolVersion(value: string)
  {
    /** Only the supported version can be constructed. */
    predicate Valid() {
      value == SupportedVersion
    }
  }

  datatype ServerInfo = ServerInfo(name: string, version: string)

  datatype ServerCapabilities = ServerCapabilities(tools: bool, resources: bool)

  datatype ProtocolError = ProtocolError(
    field: string,
    receivedValue: string,
    supportedVersion: string,
    detail: string)

  type Handshake = (ProtocolVersion, ServerInfo, ServerCapabilities)

  const UnsupportedLead: string := "Protocol version "
  const UnsupportedMiddle: string :=
    " not supported. Please retry initialization with supported version "

  /** The message of the version validator's `ValueError`. */
  function UnsupportedMessage(v: string): string {
    UnsupportedLead + v + UnsupportedMiddle + SupportedVersion + "."
  }

  /** Building a `ProtocolVersion`: only the supported literal passes. */
  function ParseProtocolVersion(v: string): (r: Result<ProtocolVersion, FieldError>)
    ensures r.Success? <==> v == SupportedVersion
    ensures r.Success? ==> r.value.value == v && r.value.Valid()
    ensures r.Failure? ==> r.error.loc == "value" && r.error.kind == ValueError(UnsupportedMessage(v))
    ensures r.Failure? ==>
              Mentions(r.error.kind.detail, v) && Mentions(r.error.kind.detail, SupportedVersion)
  {
    if v != SupportedVersion then
      var tail := UnsupportedMiddle + SupportedVersion + ".";
      assert UnsupportedMessage(v) == UnsupportedLead + v + tail;
      MentionsAt(UnsupportedLead, v, tail);
      MentionsAt(UnsupportedLead + v + UnsupportedMiddle, SupportedVersion, ".");
      Failure(FieldError("value", ValueError(UnsupportedMessage(v))))
    else
      Success(ProtocolVersion(v))
  }

  /** `initialize_server`: validate the version, then describe the server. A
      refused version becomes a `ProtocolError` naming the field, echoing the
      received value verbatim and stating the supported one. */
  function InitializeServer(protocolVersion: string): (r: Result<Handshake, ProtocolError>)
    ensures r.Success? <==> protocolVersion == SupportedVersion
    ensures r.Success? ==>
              && r.value.0 == ProtocolVersion(protocolVersion) && r.value.0.Valid()
              && r.value.1 == ServerInfo("pytest-mcp", "0.1.0")
              && r.value.2 == ServerCapabilities(tools := true, resources := true)
    ensures r.Failure? ==>
              && r.error.field == "protocolVersion"
              && r.error.receivedValue == protocolVersion
              && r.error.supportedVersion == "2025-03-26"
              && r.error.detail == UnsupportedDetail && |r.error.detail| > 0
  {
    match ParseProtocolVersion(protocolVersion)
    case Failure(_) =>
      Failure(ProtocolError(VersionField, protocolVersion, SupportedVersion, UnsupportedDetail))
    case Success(validated) =>
      Success((validated, ServerInfo(ServerName, ServerVersion),
               ServerCapabilities(tools := true, resources := true)))
  }

  /** A refused handshake can be retried: re-sending the version the error
      names as supported succeeds. */
  lemma RetryWithSupportedSucceeds(v: string)
    requires InitializeServer(v).Failure?
    ensures InitializeServer(InitializeServer(v).error.supportedVersion).Success?
  {
  }
}
