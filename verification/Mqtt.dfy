/** The vocabulary shared by every module: error codes, packets and receive results. */
module Mqtt {

  datatype Option<+T> = None | Some(value: T)

  datatype ErrorCode =
    | Success
    | NotAuthorized
    | HostNotFound
    | ConnectionRefused
    | PacketNotAllowedToSend
    | NotConnected
    | InvalidConfig
    | Disconnected
    | SessionReset
    | InternalError
    | InvalidPacket
    | UnknownError

  /** Only publish packets are dispatched; the others matter by being skipped. */
  datatype Packet = Publish(topic: string, payload: string) | OtherPacket(kind: nat)

  datatype RecvResult = Received(packet: Packet) | Failed(error: ErrorCode)

  /** A topic filter with its subscription options byte. */
  datatype TopicSubopts = TopicSubopts(topic: string, opts: nat)

  /** An error that ends a receive loop: neither "no error" nor the recoverable session reset. */
  predicate Terminal(r: RecvResult) {
    r.Failed? && r.error != Success && r.error != SessionReset
  }
}

/** How the library folds the error categories of its dependencies into its own codes. */
module Errors {
  import opened Mqtt

  datatype ConnectReason = NotAuthorizedReason | OtherReason(code: int)
  datatype NetdbError = HostNotFoundError | HostNotFoundTryAgain | OtherNetdb(code: int)
  datatype MiscError = Eof | OtherMisc(code: int)
  datatype SystemError = ConnectionRefusedError | NotConnectedError | OperationAborted | OtherSystem(code: int)
  datatype MqttError = PacketNotAllowed | OtherMqtt(code: int)

  /** An error code as the transport reports it: its category and the value inside it. */
  datatype RawError =
    | NoError
    | ConnectCategory(reason: ConnectReason)
    | NetdbCategory(netdb: NetdbError)
    | MiscCategory(misc: MiscError)
    | SystemCategory(system: SystemError)
    | MqttCategory(mqtt: MqttError)
    | ForeignCategory(code: int)

  function MapConnectError(ev: ConnectReason): ErrorCode {
    match ev
    case NotAuthorizedReason => NotAuthorized
    case OtherReason(_) => UnknownError
  }

  function MapNetdbError(ev: NetdbError): ErrorCode {
    match ev
    case HostNotFoundError => HostNotFound
    case HostNotFoundTryAgain => HostNotFound
    case OtherNetdb(_) => UnknownError
  }

  function MapMiscError(ev: MiscError): ErrorCode {
    match ev
    case Eof => Disconnected
    case OtherMisc(_) => UnknownError
  }

  function MapSystemError(ev: SystemError): ErrorCode {
    match ev
    case ConnectionRefusedError => ConnectionRefused
    case NotConnectedError => NotConnected
    case OperationAborted => UnknownError
    case OtherSystem(_) => UnknownError
  }

  function MapMqttError(ev: MqttError): ErrorCode {
    match ev
    case PacketNotAllowed => PacketNotAllowedToSend
    case OtherMqtt(_) => UnknownError
  }

  /** An error never turns into a success, and no transport error can pose as a session reset,
      the one code that makes an entity replay its setup. */
  function MapErr(ec: RawError): (r: ErrorCode)
    ensures r == Success <==> ec == NoError
    ensures r !in {SessionReset, InvalidConfig, InternalError, InvalidPacket}
  {
    match ec
    case NoError => Success
    case ConnectCategory(reason) => MapConnectError(reason)
    case NetdbCategory(netdb) => MapNetdbError(netdb)
    case MiscCategory(misc) => MapMiscError(misc)
    case SystemCategory(system) => MapSystemError(system)
    case MqttCategory(mqtt) => MapMqttError(mqtt)
    case ForeignCategory(_) => UnknownError
  }

  /** Every code but the unknown error tells what happened, and the unknown error is all that remains. */
  lemma CodesTellCauses(ec: RawError)
    ensures MapErr(ec) == NotAuthorized <==> ec == ConnectCategory(NotAuthorizedReason)
    ensures MapErr(ec) == HostNotFound <==> ec in {NetdbCategory(HostNotFoundError), NetdbCategory(HostNotFoundTryAgain)}
    ensures MapErr(ec) == Disconnected <==> ec == MiscCategory(Eof)
    ensures MapErr(ec) == ConnectionRefused <==> ec == SystemCategory(ConnectionRefusedError)
    ensures MapErr(ec) == NotConnected <==> ec == SystemCategory(NotConnectedError)
    ensures MapErr(ec) == PacketNotAllowedToSend <==> ec == MqttCategory(PacketNotAllowed)
  {
  }
}
