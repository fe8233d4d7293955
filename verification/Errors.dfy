/** Errors as callers of the public packages see them. */
module Errors {
  import opened Basics

  /** The category `classifyError` assigns to a native error. */
  datatype Kind = UnknownKind | Authentication | Authorization | Network | Protocol | Server | Timeout

  /** Which of the phrases `classifyError` looks for occur in an error message. */
  datatype Phrases = Phrases(authentication: bool, timeout: bool, network: bool, protocol: bool, authorization: bool)

  const NO_PHRASES := Phrases(false, false, false, false, false)

  const AUTHENTICATION_CODES := {7056}
  const TIMEOUT_CODES := {810}
  const NETWORK_CODES := {800, 802, 805, 820, 830, 888, -6, -7, -8}

  predicate ProtocolCode(code: int) { 835 <= code <= 870 || code == -4 || code == -5 }

  /** `classifyError`: the first rule that matches. */
  function Classify(code: int, found: Phrases): Kind {
    if code in AUTHENTICATION_CODES || found.authentication then Authentication
    else if code in TIMEOUT_CODES || found.timeout then Timeout
    else if code in NETWORK_CODES || found.network then Network
    else if ProtocolCode(code) || found.protocol then Protocol
    else if code > 0 then (if found.authorization then Authorization else Server)
    else UnknownKind
  }

  datatype Error =
    | Closed
    | Busy
    | InvalidArgument
    | Unsupported
    | ScanFailed
    | TxDone
    | Canceled
    | DeadlineExceeded
    | Sdk(code: int, kind: Kind)

  const NO_DATABASE_SELECTED := 7030

  /** Nothing but the arguments or the server was in the way. */
  predicate Attempted(err: Option<Error>) {
    err == None || err.value.Sdk? || err.value.InvalidArgument? || err.value.Unsupported?
  }

  /** Errors that make the database/sql adapter discard its connection (`observeLocked`). */
  predicate Breaks(e: Error) {
    e.Closed? || (e.Sdk? && (e.kind.Network? || e.kind.Protocol? || e.kind.Timeout?))
  }

  /** `isNoDatabaseSelected`: the one rollback error a session reset tolerates. */
  predicate NoDatabaseSelected(e: Error) {
    e.Sdk? && e.code == NO_DATABASE_SELECTED
  }

  /**
    Whether an error discards a connection: of the driver's own errors ErrClosed alone; of the SDK's an authentication
    failure never, and otherwise the codes and phrases of timeouts, of the network and of the protocol, whatever else
    the message says.
   */
  lemma BreaksExactly(code: int, found: Phrases, e: Error)
    ensures !e.Sdk? ==> (Breaks(e) <==> e == Closed)
    ensures Breaks(Sdk(code, Classify(code, found))) <==>
              && !(code == 7056 || found.authentication)
              && (|| code == 810 || found.timeout
                  || code == 800 || code == 802 || code == 805 || code == 820 || code == 830 || code == 888
                  || -8 <= code <= -4 || 835 <= code <= 870 || found.network || found.protocol)
  {
  }

  /** An error that discards no connection is told apart by its code and by who it says was refused. */
  lemma HarmlessKinds(code: int, found: Phrases)
    requires !Breaks(Sdk(code, Classify(code, found)))
    ensures var kind := Classify(code, found);
            && (kind == Authentication <==> code == 7056 || found.authentication)
            && (kind == Authorization <==> code != 7056 && !found.authentication && code > 0 && found.authorization)
            && (kind == Server <==> code != 7056 && !found.authentication && code > 0 && !found.authorization)
  {
  }

  /** The rollback error a reset tolerates leaves the connection usable, unless its text names a connection failure. */
  lemma NoDatabaseIsHarmless(found: Phrases)
    requires !found.timeout && !found.network && !found.protocol
    ensures var e := Sdk(7030, Classify(7030, found)); NoDatabaseSelected(e) && !Breaks(e)
  {
    BreaksExactly(7030, found, Closed);
  }
}
