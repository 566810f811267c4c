# s2n extension type lists, modelled in Dafny

This project models the extension list registry of s2n's TLS handshake
(`tls/extensions/s2n_extension_type_lists.c`). The registry holds fixed,
ordered lists of extension handlers, one pair per handshake message category
(ClientHello, ServerHello, EncryptedExtensions, CertificateRequest,
Certificate). Each pair has a default list, used before TLS 1.3, and a TLS 1.3
list. The lookup `s2n_extension_type_list_get` checks its arguments, reads
the protocol version the connection reports and hands back one list of the
pair.

Files:

- `wrappers.dfy`: `Option` (a pointer that may be NULL) and `Result` (a
  value written through the out-parameter, or the reason for failure).
- `extension_types.dfy`: the handler objects as the enum `Handler`, one tag
  per handler named in the tables. `KindOf` gives the extension type a
  handler implements and `SenderOf` the side that sends it. This mapping is
  read off the handler names (`s2n_client_…`, `s2n_server_…`,
  `s2n_tls13_server_…`). `HandlerOf` goes back from a type and a side to
  the handler.
- `rfc8446.dfy`: the extension/message table of section 4.2 of RFC 8446,
  restricted to the extension types above. It is the independent reference
  for the TLS 1.3 lists.
- `sequences.dfy`: `Distinct`, "no element occurs twice".
- `extension_type_lists.dfy`: the six handler arrays, the `ExtensionLists`
  table indexed by list id, the lookup `ListGet`, the extension types each list is meant to carry (`Design`), the handler
  each category uses for a type (`HandlerFor`) and the
  lemmas.

The lookup is `ListGet(listType, conn, extensionListPresent)`:

- `listType` is the numeric list id.
- `conn` is `None` for a NULL connection. Otherwise it carries the protocol
  version the connection reports.
- `extensionListPresent` is false for a NULL out-parameter.

The checks run in the source's order: out-parameter, then connection, then
range. The range check compares the id with the table's unsigned length, so
negative ids fail as well. A failure returns no list, so nothing is written.
An out-of-range id fails at the range check (line 130).

Determinism and read-only behaviour hold by construction: `ListGet` is a
function and the table is a constant. `ListGetDependsOnlyOnTls13` states the
sharper fact that the version matters only through `version >= TLS 1.3`.

## Model

| member | source | states |
|---|---|---|
| ExtensionTypeLists.ListGet | tls/extensions/s2n_extension_type_lists.c:125-139 | a NULL out-parameter fails whatever the other inputs; a present out-parameter with a NULL connection fails before the range check; an id outside 0..4 fails; the call succeeds exactly when all three checks pass, and the returned count equals the number of handlers |
| ExtensionTypeLists.ListGetVersionSplit | tls/extensions/s2n_extension_type_lists.c:132-138 | every category has an entry; version >= TLS 1.3 yields the category's TLS 1.3 list and any lower version its default list: exactly the designed extension types in the designed order, each position holding the handler the category uses for that type, with count equal to the length |
| ExtensionTypeLists.TableMatchesDesign | tls/extensions/s2n_extension_type_lists.c:99-123 | each table entry and variant holds, in the designed order, exactly the handler its category uses for each designed extension type (the sender's handler, and the TLS 1.3 status_request handler in Certificate), and its count equals its array length |
| ExtensionTypeLists.StatusRequestHandlers | tls/extensions/s2n_extension_type_lists.c:63-94 | the TLS 1.3 server status_request handler is returned exactly for Certificate under TLS 1.3, where it comes first; the other server status_request handler exactly for ServerHello before TLS 1.3, at position 6 |
| ExtensionTypeLists.ClientHelloIgnoresVersion | tls/extensions/s2n_extension_type_lists.c:103-106 | ClientHello returns the same list for any two versions; it has 13 handlers, starting with supported_versions, key_share, signature_algorithms, server_name, alpn |
| ExtensionTypeLists.ServerHelloLists | tls/extensions/s2n_extension_type_lists.c:63-79 | under TLS 1.3 ServerHello is exactly [supported_versions, key_share, cookie]; before TLS 1.3 it is 9 handlers starting with supported_versions, server_name, ec_point_format and ending with session_ticket |
| ExtensionTypeLists.Tls13OnlyCategories | tls/extensions/s2n_extension_type_lists.c:111-122 | EncryptedExtensions, CertificateRequest and Certificate succeed with the empty list (count 0, still a list) before TLS 1.3, and with 3, 1 and 2 handlers under TLS 1.3 |
| ExtensionTypeLists.ListGetDependsOnlyOnTls13 | tls/extensions/s2n_extension_type_lists.c:132-136 | two lookups whose connections agree on whether TLS 1.3 was negotiated return the same result |
| ExtensionTypeLists.ListsHaveNoRepeats | tls/extensions/s2n_extension_type_lists.c:47-94 | no returned list repeats an extension type, and so none repeats a handler |
| ExtensionTypeLists.ListsMatchSender | tls/extensions/s2n_extension_type_lists.c:47-94 | the ClientHello list holds only client-sent handlers and every other list only server-sent handlers |
| ExtensionTypeLists.ServerExtensionsWereOffered | tls/extensions/s2n_extension_type_lists.c:63-94 | every extension type in a server list, apart from cookie, also occurs in the ClientHello list, so the server only answers extensions the client can offer (section 4.2 of RFC 8446, section 7.4.1.4 of RFC 5246) |
| ExtensionTypeLists.Tls13ListsFollowRfc8446 | tls/extensions/s2n_extension_type_lists.c:75-94 | under TLS 1.3 each server list carries only extension types that section 4.2 of RFC 8446 allows in that message (HelloRetryRequest counted as ServerHello), and the ClientHello list offers RFC 8446 types only where RFC 8446 allows them in a ClientHello |
| ExtensionTypes.HandlerOfInvertsKindAndSender | tls/extensions/s2n_extension_type_lists.c:47-94 | the handler for a type and side has that type and side, and every handler except the TLS 1.3 server status_request one is recovered from its type and sender; that one shares both with the other server status_request handler |

## Left out

- The handlers' send, receive and should-send logic lives in other files. Here the handlers are opaque tags.
- `s2n_connection_get_protocol_version` and the connection structure are not part of this model. A connection is only the protocol version it reports, an integer.
- The version number 34 for TLS 1.3 comes from s2n's public header, which is not part of this model. Only its order with respect to older versions matters.
- s2n's error codes and error macros are reduced to three tags, one per failing check: `NullExtensionList`, `NullConnection`, `ListTypeOutOfRange`.
- Pointer identity is not modelled. The lookup returns a list value, not the address of a table slot. So the model cannot tell that ClientHello's two variants are distinct slots sharing one array, and it does not model the NULL array pointer behind an empty list. An empty list is a present value with count 0.
- The table's lack of a `const` qualifier is not modelled. Nothing in the file writes to the table, and the model treats it as a constant.
- The code that walks the returned lists to build or parse handshake messages lives in other files.
- Initialisation order and thread safety are not modelled. The table is static data with no runtime initialisation.
