/** The extension/message table of section 4.2 of RFC 8446, restricted to the
    extension types the s2n handlers implement. It is the independent reference
    against which the TLS 1.3 lists are checked. */
module Rfc8446 {
  import opened ExtensionTypes

  /** The TLS 1.3 messages that carry extensions. */
  datatype Message =
    | ClientHelloMsg | ServerHelloMsg | HelloRetryRequestMsg
    | EncryptedExtensionsMsg | CertificateMsg | CertificateRequestMsg
    | NewSessionTicketMsg

  /** The messages in which RFC 8446 allows an extension type to appear; empty
      for the types RFC 8446 does not define (session_ticket, ec_point_formats,
      renegotiation_info and s2n's post-quantum KEM extension). */
  function PermittedIn(k: Kind): set<Message>
  {
    match k
    case ServerName | MaxFragmentLength | SupportedGroups | Alpn =>
      {ClientHelloMsg, EncryptedExtensionsMsg}
    case StatusRequest | SignedCertificateTimestamp =>
      {ClientHelloMsg, CertificateRequestMsg, CertificateMsg}
    case SignatureAlgorithms => {ClientHelloMsg, CertificateRequestMsg}
    case Cookie => {ClientHelloMsg, HelloRetryRequestMsg}
    case SupportedVersions | KeyShare =>
      {ClientHelloMsg, ServerHelloMsg, HelloRetryRequestMsg}
    case SessionTicket | EcPointFormats | RenegotiationInfo | PqKem => {}
  }

  /** The extension types RFC 8446 defines for use in TLS 1.3. */
  predicate DefinedForTls13(k: Kind)
  {
    PermittedIn(k) != {}
  }
}
