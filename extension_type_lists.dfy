/** The registry of extension lists used by the TLS handshake: for each
    handshake message category, the ordered handlers that apply before TLS 1.3
    and under TLS 1.3, and the lookup that picks one of the two by the
    protocol version the connection reports. */
module ExtensionTypeLists {
  import opened Wrappers
  import opened Seqs
  import opened ExtensionTypes
  import Rfc8446

  /** The protocol version number s2n gives TLS 1.3 (older versions have
      smaller numbers); only the comparison with it matters to the lookup. */
  const Tls13: int := 34

  /** An extension list as handed to callers: the handlers in order and their
      count. */
  datatype ExtensionTypeList = ExtensionTypeList(extensionTypes: seq<Handler>, count: nat)

  /** A list built from a fixed array: the count is the array's length. */
  function ExtensionList(handlers: seq<Handler>): ExtensionTypeList
  {
    ExtensionTypeList(handlers, |handlers|)
  }

  /** The list with no handlers. It is a list, not an absent one. */
  const EmptyExtensionList: ExtensionTypeList := ExtensionTypeList([], 0)

  const ClientHelloExtensions: seq<Handler> := [
    ClientSupportedVersions, ClientKeyShare, ClientSignatureAlgorithms,
    ClientServerName, ClientAlpn, ClientStatusRequest, ClientSctList,
    ClientMaxFragLen, ClientSessionTicket, ClientSupportedGroups,
    ClientEcPointFormat, ClientPqKem, ClientRenegotiationInfo
  ]

  const Tls12ServerHelloExtensions: seq<Handler> := [
    ServerSupportedVersions, ServerServerName, ServerEcPointFormat,
    ServerRenegotiationInfo, ServerAlpn, ServerStatusRequest, ServerSctList,
    ServerMaxFragmentLength, ServerSessionTicket
  ]

  const Tls13ServerHelloExtensions: seq<Handler> := [
    ServerSupportedVersions, ServerKeyShare, ServerCookie
  ]

  const EncryptedExtensions: seq<Handler> := [
    ServerServerName, ServerMaxFragmentLength, ServerAlpn
  ]

  const CertReqExtensions: seq<Handler> := [
    ServerSignatureAlgorithms
  ]

  const CertificateExtensions: seq<Handler> := [
    Tls13ServerStatusRequest, ServerSctList
  ]

  /** The handshake message categories, in the order of their list ids. */
  datatype ListId =
    | ClientHelloList | ServerHelloList | EncryptedExtensionsList
    | CertReqList | CertificateList

  /** The numeric list id of a category, its index in `ExtensionLists`. */
  function Ordinal(id: ListId): nat
  {
    match id
    case ClientHelloList => 0
    case ServerHelloList => 1
    case EncryptedExtensionsList => 2
    case CertReqList => 3
    case CertificateList => 4
  }

  /** One table entry: the list used before TLS 1.3 and the one used under it. */
  datatype Entry = Entry(defaultList: ExtensionTypeList, tls13List: ExtensionTypeList)

  /** The table, indexed by list id. */
  const ExtensionLists: seq<Entry> := [
    Entry(ExtensionList(ClientHelloExtensions), ExtensionList(ClientHelloExtensions)),
    Entry(ExtensionList(Tls12ServerHelloExtensions), ExtensionList(Tls13ServerHelloExtensions)),
    Entry(EmptyExtensionList, ExtensionList(EncryptedExtensions)),
    Entry(EmptyExtensionList, ExtensionList(CertReqExtensions)),
    Entry(EmptyExtensionList, ExtensionList(CertificateExtensions))
  ]

  /** What the caller passes as the connection: only the protocol version it
      reports is read. */
  datatype Connection = Connection(protocolVersion: int)

  /** Why a lookup fails: a NULL out-parameter, a NULL connection, or a list id
      outside the table. */
  datatype Error = NullExtensionList | NullConnection | ListTypeOutOfRange

  /** Looks up the list for `listType` on `conn`. `extensionListPresent` says
      whether the out-parameter is non-NULL; `conn` is None for a NULL
      connection. The checks run in that order, so an earlier failure wins over
      a later one, and a failure writes no list. A list id is in range when it
      is below the table length, negative ids included (the comparison is
      against an unsigned length). */
  function ListGet(listType: int, conn: Option<Connection>, extensionListPresent: bool)
    : (r: Result<ExtensionTypeList, Error>)
    ensures !extensionListPresent ==> r == Failure(NullExtensionList)
    ensures extensionListPresent && conn.None? ==> r == Failure(NullConnection)
    ensures extensionListPresent && conn.Some? && !(0 <= listType < 5)
      ==> r == Failure(ListTypeOutOfRange)
    ensures r.Success? <==> extensionListPresent && conn.Some? && 0 <= listType < 5
    ensures r.Success? ==> r.value.count == |r.value.extensionTypes|
  {
    if !extensionListPresent then Failure(NullExtensionList)
    else if conn.None? then Failure(NullConnection)
    else if !(0 <= listType < |ExtensionLists|) then Failure(ListTypeOutOfRange)
    else if conn.value.protocolVersion >= Tls13 then
      Success(ExtensionLists[listType].tls13List)
    else
      Success(ExtensionLists[listType].defaultList)
  }

  /** The extension types each category is meant to carry, by variant, in
      order. */
  function Design(id: ListId, tls13: bool): seq<Kind>
  {
    match id
    case ClientHelloList =>
      [SupportedVersions, KeyShare, SignatureAlgorithms, ServerName, Alpn,
       StatusRequest, SignedCertificateTimestamp, MaxFragmentLength,
       SessionTicket, SupportedGroups, EcPointFormats, PqKem, RenegotiationInfo]
    case ServerHelloList =>
      if tls13 then [SupportedVersions, KeyShare, Cookie]
      else [SupportedVersions, ServerName, EcPointFormats, RenegotiationInfo,
            Alpn, StatusRequest, SignedCertificateTimestamp, MaxFragmentLength,
            SessionTicket]
    case EncryptedExtensionsList =>
      if tls13 then [ServerName, MaxFragmentLength, Alpn] else []
    case CertReqList =>
      if tls13 then [SignatureAlgorithms] else []
    case CertificateList =>
      if tls13 then [StatusRequest, SignedCertificateTimestamp] else []
  }

  /** The side that sends the messages of a category. */
  function SenderOfList(id: ListId): Side
  {
    if id == ClientHelloList then Client else Server
  }

  /** The RFC 8446 messages a category stands for. A HelloRetryRequest is
      built and parsed as a ServerHello. */
  function MessagesOf(id: ListId): set<Rfc8446.Message>
  {
    match id
    case ClientHelloList => {Rfc8446.ClientHelloMsg}
    case ServerHelloList => {Rfc8446.ServerHelloMsg, Rfc8446.HelloRetryRequestMsg}
    case EncryptedExtensionsList => {Rfc8446.EncryptedExtensionsMsg}
    case CertReqList => {Rfc8446.CertificateRequestMsg}
    case CertificateList => {Rfc8446.CertificateMsg}
  }

  /** The handler a category uses for an extension type: the sender's handler,
      except that the Certificate message carries status_request through the
      TLS 1.3 server handler. */
  function HandlerFor(id: ListId, k: Kind): Option<Handler>
  {
    if id == CertificateList && k == StatusRequest then Some(Tls13ServerStatusRequest)
    else HandlerOf(k, SenderOfList(id))
  }

  /** The table agrees with the design, entry by entry and variant by variant:
      each list holds, in the designed order, exactly the handler its category
      uses for each designed extension type, and each count is the number of
      handlers. */
  lemma TableMatchesDesign(id: ListId, tls13: bool)
    ensures var e := ExtensionLists[Ordinal(id)];
      var l := if tls13 then e.tls13List else e.defaultList;
      var d := Design(id, tls13);
      |l.extensionTypes| == |d| == l.count
      && (forall i :: 0 <= i < |d| ==> HandlerFor(id, d[i]) == Some(l.extensionTypes[i]))
      && Kinds(l.extensionTypes) == d
  {
    var d := Design(id, tls13);
    match id
    case ClientHelloList =>
      ListFollowsDesign(id, ClientHelloExtensions, d);
    case ServerHelloList =>
      if tls13 {
        ListFollowsDesign(id, Tls13ServerHelloExtensions, d);
      } else {
        ListFollowsDesign(id, Tls12ServerHelloExtensions, d);
      }
    case EncryptedExtensionsList =>
      if tls13 { ListFollowsDesign(id, EncryptedExtensions, d); }
    case CertReqList =>
      if tls13 { ListFollowsDesign(id, CertReqExtensions, d); }
    case CertificateList =>
      if tls13 { ListFollowsDesign(id, CertificateExtensions, d); }
  }

  /** A list whose handlers implement the designed types, are sent by the
      category's sender, and use the TLS 1.3 status_request handler exactly
      in the Certificate category, holds the handler its category uses for
      each designed type. */
  lemma ListFollowsDesign(id: ListId, hs: seq<Handler>, d: seq<Kind>)
    requires Kinds(hs) == d
    requires forall i :: 0 <= i < |hs| ==> SenderOf(hs[i]) == SenderOfList(id)
    requires forall i :: 0 <= i < |hs| ==>
      (hs[i] == Tls13ServerStatusRequest) == (id == CertificateList && KindOf(hs[i]) == StatusRequest)
    ensures |hs| == |d| && forall i :: 0 <= i < |d| ==> HandlerFor(id, d[i]) == Some(hs[i])
  {
    forall i | 0 <= i < |d| ensures HandlerFor(id, d[i]) == Some(hs[i]) {
      assert d[i] == KindOf(hs[i]);
      HandlerForFromKindAndSender(id, hs[i]);
    }
  }

  /** A handler is what its category uses for its extension type when its
      sender is the category's sender and it is the TLS 1.3 status_request
      handler exactly when the category is Certificate and the type
      status_request. */
  lemma HandlerForFromKindAndSender(id: ListId, h: Handler)
    requires SenderOf(h) == SenderOfList(id)
    requires (h == Tls13ServerStatusRequest) == (id == CertificateList && KindOf(h) == StatusRequest)
    ensures HandlerFor(id, KindOf(h)) == Some(h)
  {
    HandlerOfInvertsKindAndSender(KindOf(h), SenderOf(h), h);
  }

  /** No designed list repeats an extension type. */
  lemma DesignHasNoRepeats(id: ListId, tls13: bool)
    ensures Distinct(Design(id, tls13))
  {
    match id
    case ClientHelloList =>
    case ServerHelloList =>
    case EncryptedExtensionsList =>
    case CertReqList =>
    case CertificateList =>
  }

  /** The list id of a number within the table. */
  function IdOf(listType: int): (id: ListId)
    requires 0 <= listType < |ExtensionLists|
    ensures Ordinal(id) == listType
  {
    [ClientHelloList, ServerHelloList, EncryptedExtensionsList, CertReqList, CertificateList][listType]
  }

  /** Every category has an entry, and the version split: TLS 1.3 or later
      yields the category's TLS 1.3 design, any lower version its default
      design, with the count equal to the number of handlers. */
  lemma ListGetVersionSplit(id: ListId, conn: Connection)
    ensures var r := ListGet(Ordinal(id), Some(conn), true);
      r.Success?
      && var d := Design(id, conn.protocolVersion >= Tls13);
         Kinds(r.value.extensionTypes) == d
         && |r.value.extensionTypes| == |d| == r.value.count
         && forall i :: 0 <= i < |d| ==> HandlerFor(id, d[i]) == Some(r.value.extensionTypes[i])
  {
    TableMatchesDesign(id, conn.protocolVersion >= Tls13);
  }

  /** The status_request handlers: the TLS 1.3 one is returned only for the
      Certificate message under TLS 1.3, the other only for ServerHello before
      TLS 1.3, where it is the sixth handler. */
  lemma StatusRequestHandlers(listType: int, conn: Connection)
    ensures var r := ListGet(listType, Some(conn), true);
      r.Success? ==>
        ((Tls13ServerStatusRequest in r.value.extensionTypes)
           == (listType == 4 && conn.protocolVersion >= Tls13))
        && ((ServerStatusRequest in r.value.extensionTypes)
              == (listType == 1 && conn.protocolVersion < Tls13))
        && (listType == 4 && conn.protocolVersion >= Tls13 ==>
              r.value.extensionTypes[0] == Tls13ServerStatusRequest)
        && (listType == 1 && conn.protocolVersion < Tls13 ==>
              r.value.extensionTypes[5] == ServerStatusRequest)
  {
  }

  /** ClientHello uses one 13-handler list whatever the version, beginning with
      supported_versions, key_share, signature_algorithms, server_name, alpn. */
  lemma ClientHelloIgnoresVersion(c1: Connection, c2: Connection)
    ensures ListGet(0, Some(c1), true) == ListGet(0, Some(c2), true)
    ensures var r := ListGet(0, Some(c1), true);
      r.Success? && r.value.count == 13
      && r.value.extensionTypes[..5] == [ClientSupportedVersions, ClientKeyShare,
           ClientSignatureAlgorithms, ClientServerName, ClientAlpn]
  {
  }

  /** ServerHello under TLS 1.3 is exactly supported_versions, key_share,
      cookie; before TLS 1.3 it is nine handlers, from supported_versions,
      server_name, ec_point_format to session_ticket. */
  lemma ServerHelloLists(conn: Connection)
    ensures var r := ListGet(1, Some(conn), true);
      r.Success?
      && (conn.protocolVersion >= Tls13 ==>
            r.value.extensionTypes == [ServerSupportedVersions, ServerKeyShare, ServerCookie]
            && r.value.count == 3)
      && (conn.protocolVersion < Tls13 ==>
            r.value.count == 9
            && r.value.extensionTypes[..3] == [ServerSupportedVersions, ServerServerName, ServerEcPointFormat]
            && r.value.extensionTypes[8] == ServerSessionTicket)
  {
  }

  /** EncryptedExtensions, CertificateRequest and Certificate have an empty, but
      present, list before TLS 1.3, and lists of 3, 1 and 2 handlers under it. */
  lemma Tls13OnlyCategories(listType: int, conn: Connection)
    requires 2 <= listType < 5
    ensures var r := ListGet(listType, Some(conn), true);
      r.Success?
      && (conn.protocolVersion < Tls13 ==> r.value == EmptyExtensionList)
      && (conn.protocolVersion >= Tls13 ==>
            r.value.count == [3, 1, 2][listType - 2] && r.value.count > 0)
  {
  }

  /** The result depends on the connection only through whether it negotiated
      TLS 1.3: two lookups that agree on that agree on everything. */
  lemma ListGetDependsOnlyOnTls13(listType: int, c1: Connection, c2: Connection, present: bool)
    requires (c1.protocolVersion >= Tls13) == (c2.protocolVersion >= Tls13)
    ensures ListGet(listType, Some(c1), present) == ListGet(listType, Some(c2), present)
  {
  }

  /** No list repeats an extension type, and hence none repeats a handler. */
  lemma ListsHaveNoRepeats(listType: int, conn: Option<Connection>, present: bool)
    ensures var r := ListGet(listType, conn, present);
      r.Success? ==> Distinct(Kinds(r.value.extensionTypes)) && Distinct(r.value.extensionTypes)
  {
    var r := ListGet(listType, conn, present);
    if r.Success? {
      var id := IdOf(listType);
      ListGetVersionSplit(id, conn.value);
      DesignHasNoRepeats(id, conn.value.protocolVersion >= Tls13);
      var hs := r.value.extensionTypes;
      DistinctImageImpliesDistinct(hs, Kinds(hs), KindOf);
    }
  }

  /** The ClientHello list holds only handlers the client sends; every other
      list only handlers the server sends. */
  lemma ListsMatchSender(id: ListId, conn: Connection)
    ensures var r := ListGet(Ordinal(id), Some(conn), true);
      r.Success?
      && forall i :: 0 <= i < |r.value.extensionTypes| ==>
           SenderOf(r.value.extensionTypes[i]) == SenderOfList(id)
  {
  }

  /** A server only answers extensions the client may offer: every extension
      type in a server list other than cookie (which a HelloRetryRequest may
      send unprompted) occurs in the ClientHello list. */
  lemma ServerExtensionsWereOffered(id: ListId, conn: Connection)
    requires id != ClientHelloList
    ensures var r := ListGet(Ordinal(id), Some(conn), true);
      r.Success?
      && forall i :: 0 <= i < |r.value.extensionTypes| && KindOf(r.value.extensionTypes[i]) != Cookie ==>
           KindOf(r.value.extensionTypes[i]) in Kinds(ClientHelloExtensions)
  {
    var tls13 := conn.protocolVersion >= Tls13;
    ListGetVersionSplit(id, conn);
    TableMatchesDesign(ClientHelloList, true);
    var d := Design(id, tls13);
    forall i | 0 <= i < |d| && d[i] != Cookie ensures d[i] in Design(ClientHelloList, true) {
    }
  }

  /** Under TLS 1.3 every extension type in a server list is one RFC 8446
      allows in that category's message, and the ClientHello list offers the
      RFC 8446 types only where RFC 8446 allows them in a ClientHello. */
  lemma Tls13ListsFollowRfc8446(id: ListId, conn: Connection)
    requires conn.protocolVersion >= Tls13
    ensures var r := ListGet(Ordinal(id), Some(conn), true);
      r.Success?
      && (forall i ::
            0 <= i < |r.value.extensionTypes| && Rfc8446.DefinedForTls13(KindOf(r.value.extensionTypes[i]))
            ==> Rfc8446.PermittedIn(KindOf(r.value.extensionTypes[i])) * MessagesOf(id) != {})
      && (id != ClientHelloList ==>
            forall i :: 0 <= i < |r.value.extensionTypes| ==>
              Rfc8446.DefinedForTls13(KindOf(r.value.extensionTypes[i])))
  {
    ListGetVersionSplit(id, conn);
    var d := Design(id, true);
    forall i | 0 <= i < |d| && Rfc8446.DefinedForTls13(d[i])
      ensures Rfc8446.PermittedIn(d[i]) * MessagesOf(id) != {}
    {
      // Every TLS 1.3 ServerHello extension s2n sends may also be sent in a
      // HelloRetryRequest, so that message witnesses the ServerHello category.
      var m := match id
        case ClientHelloList => Rfc8446.ClientHelloMsg
        case ServerHelloList => Rfc8446.HelloRetryRequestMsg
        case EncryptedExtensionsList => Rfc8446.EncryptedExtensionsMsg
        case CertReqList => Rfc8446.CertificateRequestMsg
        case CertificateList => Rfc8446.CertificateMsg;
      assert m in Rfc8446.PermittedIn(d[i]) && m in MessagesOf(id);
      assert m in Rfc8446.PermittedIn(d[i]) * MessagesOf(id);
    }
  }
}
