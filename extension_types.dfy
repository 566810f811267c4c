/** The extension handlers the registry refers to. Each handler is an opaque
    s2n object (its send, receive and should-send logic lives elsewhere); here
    it is a tag, together with the extension it implements and the side of the
    connection that sends it. */
module ExtensionTypes {
  import opened Wrappers

  /** One tag per handler object named in the tables. The `Client...` handlers
      are sent by the client, the `Server...` ones by the server;
      `Tls13ServerStatusRequest` is a handler of its own, distinct from
      `ServerStatusRequest`. */
  datatype Handler =
    | ClientSupportedVersions | ClientKeyShare | ClientSignatureAlgorithms
    | ClientServerName | ClientAlpn | ClientStatusRequest | ClientSctList
    | ClientMaxFragLen | ClientSessionTicket | ClientSupportedGroups
    | ClientEcPointFormat | ClientPqKem | ClientRenegotiationInfo
    | ServerSupportedVersions | ServerServerName | ServerEcPointFormat
    | ServerRenegotiationInfo | ServerAlpn | ServerStatusRequest | ServerSctList
    | ServerMaxFragmentLength | ServerSessionTicket | ServerKeyShare
    | ServerCookie | ServerSignatureAlgorithms | Tls13ServerStatusRequest

  /** The extension types (by their registered names) that the handlers implement. */
  datatype Kind =
    | SupportedVersions | KeyShare | SignatureAlgorithms | ServerName | Alpn
    | StatusRequest | SignedCertificateTimestamp | MaxFragmentLength
    | SessionTicket | SupportedGroups | EcPointFormats | PqKem
    | RenegotiationInfo | Cookie

  datatype Side = Client | Server

  /** The extension type a handler reads and writes. */
  function KindOf(h: Handler): Kind
  {
    match h
    case ClientSupportedVersions | ServerSupportedVersions => SupportedVersions
    case ClientKeyShare | ServerKeyShare => KeyShare
    case ClientSignatureAlgorithms | ServerSignatureAlgorithms => SignatureAlgorithms
    case ClientServerName | ServerServerName => ServerName
    case ClientAlpn | ServerAlpn => Alpn
    case ClientStatusRequest | ServerStatusRequest | Tls13ServerStatusRequest => StatusRequest
    case ClientSctList | ServerSctList => SignedCertificateTimestamp
    case ClientMaxFragLen | ServerMaxFragmentLength => MaxFragmentLength
    case ClientSessionTicket | ServerSessionTicket => SessionTicket
    case ClientSupportedGroups => SupportedGroups
    case ClientEcPointFormat | ServerEcPointFormat => EcPointFormats
    case ClientPqKem => PqKem
    case ClientRenegotiationInfo | ServerRenegotiationInfo => RenegotiationInfo
    case ServerCookie => Cookie
  }

  /** The side of the connection that sends the extension a handler writes. */
  function SenderOf(h: Handler): Side
  {
    match h
    case ClientSupportedVersions | ClientKeyShare | ClientSignatureAlgorithms
      | ClientServerName | ClientAlpn | ClientStatusRequest | ClientSctList
      | ClientMaxFragLen | ClientSessionTicket | ClientSupportedGroups
      | ClientEcPointFormat | ClientPqKem | ClientRenegotiationInfo => Client
    case _ => Server
  }

  /** The extension types of a list of handlers, position by position. */
  function Kinds(hs: seq<Handler>): seq<Kind>
  {
    seq(|hs|, i requires 0 <= i < |hs| => KindOf(hs[i]))
  }

  /** The handler a side uses for an extension type, if it has one. The server
      status_request handler given here is the pre-TLS 1.3 one; its TLS 1.3
      counterpart is chosen by message, not by type and side. */
  function HandlerOf(k: Kind, side: Side): Option<Handler>
  {
    match (k, side)
    case (SupportedVersions, Client) => Some(ClientSupportedVersions)
    case (SupportedVersions, Server) => Some(ServerSupportedVersions)
    case (KeyShare, Client) => Some(ClientKeyShare)
    case (KeyShare, Server) => Some(ServerKeyShare)
    case (SignatureAlgorithms, Client) => Some(ClientSignatureAlgorithms)
    case (SignatureAlgorithms, Server) => Some(ServerSignatureAlgorithms)
    case (ServerName, Client) => Some(ClientServerName)
    case (ServerName, Server) => Some(ServerServerName)
    case (Alpn, Client) => Some(ClientAlpn)
    case (Alpn, Server) => Some(ServerAlpn)
    case (StatusRequest, Client) => Some(ClientStatusRequest)
    case (StatusRequest, Server) => Some(ServerStatusRequest)
    case (SignedCertificateTimestamp, Client) => Some(ClientSctList)
    case (SignedCertificateTimestamp, Server) => Some(ServerSctList)
    case (MaxFragmentLength, Client) => Some(ClientMaxFragLen)
    case (MaxFragmentLength, Server) => Some(ServerMaxFragmentLength)
    case (SessionTicket, Client) => Some(ClientSessionTicket)
    case (SessionTicket, Server) => Some(ServerSessionTicket)
    case (SupportedGroups, Client) => Some(ClientSupportedGroups)
    case (EcPointFormats, Client) => Some(ClientEcPointFormat)
    case (EcPointFormats, Server) => Some(ServerEcPointFormat)
    case (PqKem, Client) => Some(ClientPqKem)
    case (RenegotiationInfo, Client) => Some(ClientRenegotiationInfo)
    case (RenegotiationInfo, Server) => Some(ServerRenegotiationInfo)
    case (Cookie, Server) => Some(ServerCookie)
    case _ => None
  }

  /** `HandlerOf` inverts `KindOf` and `SenderOf`: what it returns has the
      requested type and side, and every handler but the TLS 1.3 server
      status_request one is what it returns for its own type and side. So a
      handler is determined by its type and sender, except for that pair. */
  lemma HandlerOfInvertsKindAndSender(k: Kind, side: Side, h: Handler)
    ensures HandlerOf(k, side) == Some(h) ==> KindOf(h) == k && SenderOf(h) == side
    ensures h != Tls13ServerStatusRequest ==> HandlerOf(KindOf(h), SenderOf(h)) == Some(h)
    ensures HandlerOf(KindOf(Tls13ServerStatusRequest), SenderOf(Tls13ServerStatusRequest))
      == Some(ServerStatusRequest)
  {
  }
}
