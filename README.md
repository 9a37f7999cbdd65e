# Notification sender and attribute fill of the Orion context broker

This project models two pieces of the FIWARE Orion context broker and
proves properties about them in Dafny.

The first is the single-attempt HTTP notification sender in
`src/lib/rest/httpRequestSend.cpp`:

- `httpRequestInit` sets the module's default timeout.
- `httpRequestSendWithCurl`:
  - adds the UTF-8 charset to JSON and plain-text content;
  - replaces the timeout -1 by the default;
  - checks its arguments in a fixed order (codes -1 to -6);
  - rewrites the destination to the relay ("rush") when one is configured and requested;
  - builds the header list with `httpHeaderAdd`, then runs the extra-header pass;
  - enforces the size limit (-7);
  - builds the URL and the timeout option;
  - performs the transfer, which ends in 0 or -9.
- `writeMemoryCallback` grows the response buffer.
- `httpRequestSend` adds code -8, for when no curl handle can be obtained.

The second is `Attribute::fill` in `src/lib/apiTypesV2/Attribute.cpp`. It
classifies a query answer by priority: entity not found, any other error,
then too many entities. Otherwise it searches the one entity for the first
attribute with the requested name.

Files and modules:

- `strings.dfy` holds the `Options` module and the `Strings` module. `Strings` covers `::tolower` on names, decimal rendering with its round trip, and `std::string` ordering.
- `headers.dfy` holds the `Headers` module:
  - the override rule of `httpHeaderAdd`;
  - the names marked used, the extra-header pass and the composed header list;
  - the counting of names ignoring case;
  - the class `HeaderSet`. Its fields are the curl header list, `outgoingMsgSize` and `usedExtraHeaders`.
- `response_buffer.dfy` holds two modules:
  - `ResponseBuffers` holds the class `ResponseBuffer`. It models `MemoryStruct` over an `array<char>` and implements `writeMemoryCallback`.
  - `Transport` holds `Perform`. It stands for `curl_easy_perform`, driving the write callback.
- `http_request_send.dfy` holds the `HttpRequestSend` module: the notification, the checks, the relay rewrite, the standard headers and the sender methods.
- `attribute.dfy` holds the `AttributeFill` module: `FirstMatch`, the specification function `Filled` and the class `Attribute` with its `Fill` method.

The methods work on state, as the C++ code does:

- `HeaderSet.Add` appends one line and grows the size.
- The extra-header pass is a loop over the map.
- `ResponseBuffer.Write` copies into a freshly allocated larger block.
- `Attribute.Fill` searches with a loop that breaks on the first match.

Each method is tied to a specification function:

- `SendWithCurl` is tied to `Attempt`, through `Precheck`, `OutgoingSize` and `Planned`.
- `Attribute.Fill` is tied to `Filled`.
- The header builders are tied to `StandardHeaders` and `Compose`.

Lemmas state the promised properties about those functions.

Two behaviours of the code are worth stating, because the code's own
comments promise something else or state it only as temporary:

- The comment on `httpHeaderAdd` says `usedExtraHeaders` exists so that an overloaded standard header is not present twice (src/lib/rest/httpRequestSend.cpp:148). But the lookup of an override, `extraHeaders.find` at :164, is case-sensitive. Only the "used" marking (:173-175) and the check in the extra-header pass (:463-466) are lower-cased.
  - `CaseVariantIsNotAnOverride` shows the consequence. An extra header whose name equals a standard name only ignoring case (`accept` for `Accept`) does not replace the standard header, and the request then carries both.
  - Distinct names are therefore not guaranteed for the whole request. What is proved is that the standard headers have distinct names ignoring case, and that a standard header overridden under its exact name occurs exactly once (`StandardOverride`).
- The comment "TEMP FIX … see issue 2844" (:233-234) marks an early return. Because of it, `https:` destinations and port 443 are not notified and report 0, and the model does the same. That return also makes the `X-relayer-protocol` branch unreachable, which the model asserts.

The extra headers are a `std::map`, whose iteration order is ascending key
order with no key twice. The model takes them as any sequence of headers in
iteration order. A map is the sorted, duplicate-free case (`IsHeaderMap`),
and only `FindInMap` needs that property.

## Model

| member | source | states |
|---|---|---|
| Strings.Lower | src/lib/rest/httpRequestSend.cpp:173-174 | lower-casing keeps the length, maps each byte through `tolower` and leaves no upper-case letter |
| Strings.Decimal | src/lib/rest/httpRequestSend.cpp:435-437 | the rendering of a number is a non-empty string of digits without a leading zero |
| Strings.DecimalRoundTrip | src/lib/rest/httpRequestSend.cpp:364-365 | reading a rendered number back gives the number |
| Strings.DecimalInjective | src/lib/rest/httpRequestSend.cpp:382 | distinct ports render as distinct strings |
| Headers.Find | src/lib/rest/httpRequestSend.cpp:163-165 | the lookup fails exactly when no key equals the name exactly, and a hit is an entry with that key |
| Headers.FindInMap | src/lib/rest/httpRequestSend.cpp:164 | in a map with ascending keys, the lookup of a key returns the value stored under it |
| Headers.ResolveAllAt | src/lib/rest/httpRequestSend.cpp:161-171 | each standard header keeps its position and carries the extra value when its exact name is a key |
| Headers.ConsumedByMembers | src/lib/rest/httpRequestSend.cpp:173-175 | a lower-cased name is marked used iff some standard header with that lower-cased name found an extra header under its exact name |
| Headers.UnconsumedMembers | src/lib/rest/httpRequestSend.cpp:461-474 | the extra-header pass emits exactly the extra headers whose lower-cased name is not marked used |
| Headers.TotalSizeAppend | src/lib/rest/httpRequestSend.cpp:178-179 | the byte count of two lists of lines is the sum of their counts |
| Headers.CountResolveAll | src/lib/rest/httpRequestSend.cpp:164-171 | overriding values never changes how often a name occurs |
| Headers.OverrideAppearsOnce | src/lib/rest/httpRequestSend.cpp:164-175 | with distinct standard names, an overridden standard header carries the extra value in its place, and its name occurs once in the final list ignoring case |
| Headers.ExtrasAppended | src/lib/rest/httpRequestSend.cpp:461-474 | after the standard headers come exactly the extra headers whose lower-cased name no overriding standard header shares |
| Headers.CaseVariantKept | src/lib/rest/httpRequestSend.cpp:161-175 | with distinct standard names, a header whose exact name is no key keeps its place and default, and an extra header sharing its lower-cased name is still appended by the extra-header pass |
| Headers.NoExtrasKeepsDefaults | src/lib/rest/httpRequestSend.cpp:165-168 | without extra headers the defaults are sent unchanged |
| Headers.HeaderSet.constructor | src/lib/rest/httpRequestSend.cpp:254-259 | the list, size and used set start empty |
| Headers.HeaderSet.Add | src/lib/rest/httpRequestSend.cpp:151-182 | one line is appended (the default, or the name with the extra value when the exact name is a key), the size grows by its length, and the lower-cased name is marked used only on a hit |
| Headers.HeaderSet.AddPayload | src/lib/rest/httpRequestSend.cpp:442 | the size grows by the payload length and nothing else changes |
| Headers.HeaderSet.AddUnlessUsed | src/lib/rest/httpRequestSend.cpp:463-473 | an extra header is appended with its line length counted exactly when its lower-cased name is not used |
| Headers.HeaderSet.AddExtras | src/lib/rest/httpRequestSend.cpp:461-474 | the loop appends the unconsumed extra headers in iteration order and counts their bytes |
| ResponseBuffers.ResponseBuffer.constructor | src/lib/rest/httpRequestSend.cpp:333-336 | a one-byte block holding no response bytes |
| ResponseBuffers.ResponseBuffer.Write | src/lib/rest/httpRequestSend.cpp:98-115 | on success exactly `size * nmemb` bytes are appended after the old ones, the size grows by that much, a NUL follows, and the count is returned; on allocation failure the block is lost and 0 is returned |
| Transport.Perform | src/lib/rest/httpRequestSend.cpp:547-550 | the transfer succeeds iff it completes and every chunk was stored, and then the buffer holds all delivered bytes in order |
| HttpRequestSend.TimeoutSettings.constructor | src/lib/rest/httpRequestSend.cpp:58 | the default timeout starts at its initial value |
| HttpRequestSend.TimeoutSettings.Init | src/lib/rest/httpRequestSend.cpp:66-72 | -1 keeps the default timeout, any other value replaces it |
| HttpRequestSend.EffectiveContentType | src/lib/rest/httpRequestSend.cpp:263-267 | the type is extended, by exactly `; charset=utf-8`, iff it is `application/json` or `text/plain` |
| HttpRequestSend.Precheck | src/lib/rest/httpRequestSend.cpp:276-329 | each code -1 to -6 holds iff its check is the first to fail, in the code's order, and 0 iff all pass |
| HttpRequestSend.Url | src/lib/rest/httpRequestSend.cpp:497-503 | the URL starts with the (bracketed if IPv6) host, `:` and the port; a `/` follows; it ends with the resource; it is one byte longer iff the resource does not start with `/` |
| HttpRequestSend.UrlAddsSlashOnce | src/lib/rest/httpRequestSend.cpp:503 | a resource without its leading slash gives the same URL as with it |
| HttpRequestSend.CurlTimeout | src/lib/rest/httpRequestSend.cpp:536-540 | no timeout option iff the effective timeout is 0; otherwise the requested value, or the default for -1 |
| HttpRequestSend.StandardHeadersDistinct | src/lib/rest/httpRequestSend.cpp:354-458 | no two standard headers share a name ignoring case |
| HttpRequestSend.StandardOverride | src/lib/rest/httpRequestSend.cpp:384-458 | an extra header under a standard header's exact name takes that header's place with the extra value, and the name occurs once in the request ignoring case |
| HttpRequestSend.RelayUnconfiguredIgnoresFlag | src/lib/rest/httpRequestSend.cpp:349-352 | without a relay host and port the relay flag changes neither the headers nor the request |
| HttpRequestSend.RelayRewrite | src/lib/rest/httpRequestSend.cpp:354-398 | with the relay the request goes to the relay host and port, the first header is `X-relayer-host` naming the original ip and port, and the port can be read back from it |
| HttpRequestSend.CaseVariantIsNotAnOverride | src/lib/rest/httpRequestSend.cpp:161-175 | for any standard header whose exact name is no key, an extra header with that name ignoring case leaves the standard header in its place and is itself sent after the standard headers: both lines are in the request |
| HttpRequestSend.AttemptDeterministic | src/lib/rest/httpRequestSend.cpp:209-576 | code, response text and request are determined by the inputs |
| HttpRequestSend.AttemptSendsOnlyValid | src/lib/rest/httpRequestSend.cpp:478-490 | a request reaches curl iff the destination is not skipped, every check passes and the size fits, and then it carries the composed headers and the content; code 0 without a request means skipped |
| HttpRequestSend.SendWithCurl | src/lib/rest/httpRequestSend.cpp:209-576 | the code is one of 0, -1 to -7, -9, and code, `*outP` and the request handed to curl are the ones `Attempt` prescribes |
| HttpRequestSend.Dispatch | src/lib/rest/httpRequestSend.cpp:333-575 | once the checks have passed: -7 and "error" over the size limit; otherwise the planned request is sent, and the result is 0 with the response or -9 with "notification failure" |
| HttpRequestSend.Deliver | src/lib/rest/httpRequestSend.cpp:547-575 | 0 and the delivered response when the transfer succeeds, otherwise -9 and "notification failure" |
| HttpRequestSend.BuildHeaders | src/lib/rest/httpRequestSend.cpp:349-474 | the header list is the composed request headers and the size is their byte count plus the content length |
| HttpRequestSend.AddStandardHeaders | src/lib/rest/httpRequestSend.cpp:354-458 | the relay header when used and then every standard header, in the code's order, with the payload counted |
| HttpRequestSend.AddRoutingHeaders | src/lib/rest/httpRequestSend.cpp:382-398 | User-Agent and Host (`ip:port` after the rewrite) are offered |
| HttpRequestSend.AddScopeHeaders | src/lib/rest/httpRequestSend.cpp:400-419 | fiware-service, Fiware-ServicePath and X-Auth-Token are offered, each only when non-empty |
| HttpRequestSend.AddFormatHeaders | src/lib/rest/httpRequestSend.cpp:421-442 | Accept (the requested format or JSON), empty Expect and Content-length are offered, then the payload is counted |
| HttpRequestSend.AddContentHeaders | src/lib/rest/httpRequestSend.cpp:444-458 | Content-type and Fiware-Correlator are offered, and Ngsiv2-AttrsFormat for any format but empty, JSON and legacy |
| HttpRequestSend.Send | src/lib/rest/httpRequestSend.cpp:598-656 | without a curl handle the result is -8 with "error" and nothing is sent; otherwise it is the attempt's result |
| AttributeFill.FirstMatch | src/lib/apiTypesV2/Attribute.cpp:126-138 | no match iff the name is absent; a match is the smallest position holding the name |
| AttributeFill.FirstMatchAt | src/lib/apiTypesV2/Attribute.cpp:131-137 | the first occurrence of the name is the position reported |
| AttributeFill.FirstMatchIgnoresLater | src/lib/apiTypesV2/Attribute.cpp:133-137 | attributes after a match never change the result |
| AttributeFill.Filled | src/lib/apiTypesV2/Attribute.cpp:104-145 | not-found entity, then any other error copied verbatim, then conflict for several entities, each leaving the attribute alone; otherwise the attribute is the first match, and its absence sets the not-found-attribute error |
| AttributeFill.SearchOnlyForOneEntity | src/lib/apiTypesV2/Attribute.cpp:106-126 | the attribute changes only for a successful answer with exactly one entity |
| AttributeFill.ErrorIgnoresElements | src/lib/apiTypesV2/Attribute.cpp:106-116 | when the answer carries an error its entities do not matter |
| AttributeFill.FoundIndependentOfBefore | src/lib/apiTypesV2/Attribute.cpp:124-138 | the attribute found does not depend on the object's earlier state |
| AttributeFill.Attribute.Fill | src/lib/apiTypesV2/Attribute.cpp:104-145 | the new `oe` and `pcontextAttribute` are those `Filled` gives from the old ones |

## Left out

- libcurl itself is replaced by the request it would be handed (`CurlRequest`) and by an `Exchange` saying which chunks arrive and whether the transfer completes. Left out with it are `curl_easy_setopt`, `curl_slist_*`, the options that do not vary (`FOLLOWLOCATION`, `HEADER`, `NOSIGNAL`) and curl's error strings.
- The curl context pool (`get_curl_context`, `release_curl_context`) is concurrency, not logic. Only "no handle" is modelled, as a boolean giving -8.
- Logging (`LM_*`), `lmTransactionStart/End` and `alarmMgr.notificationError` are side effects on other systems.
- The static `callNo` counter only feeds a log line.
- `versionGet()` and the curl version: the User-Agent value is an opaque configuration string.
- `isIPv6` is not part of this model and is a function parameter.
- `rushHost`, `rushPort`, `MAX_DYN_MSG_SIZE` and `DEFAULT_TIMEOUT` come from headers that are not part of this model. They are values in `Config` and `TimeoutSettings`.
- The status codes 200, 404 and 409 and the error texts come from headers that are not part of this model (`HttpStatusCode`, common/errorMessages.h). They are written as the broker's values.
- `waitForResponse` is accepted and, as in the code, not used.
- Fixed-size `snprintf` buffers: the model assumes every header fits. No truncation is modelled.
- The width of `int outgoingMsgSize` and of `long` timeouts: sizes and timeouts are unbounded integers. No overflow is modelled.
- One `char` stands for one byte. No encoding is involved.
- Transport.Perform: excludes empty chunks (`Deliverable`). In the code a zero-byte call appends nothing and returns 0, which curl takes as success. If that call's `realloc` fails, though, the block is lost while the transfer goes on, and the model does not capture that case. The model also assumes that every chunk arrives before the transfer's own outcome is known.
- ResponseBuffers.ResponseBuffer.Write: the heap is not modelled. A failed `realloc` makes the block unreachable (`memory` is NULL), as in the code, but the leak of the old block is not visible.
- `Attribute::render` only passes data on to rapidjson writers and `toJson`, which are not part of this model.
- `src/lib/mongoBackend/mongoQueryTypes.h` holds only constants and declarations.
- AttributeFill.Attribute.Fill: an OK answer with no entity is excluded by precondition. The C++ code reads element 0 of an empty vector in that case, which is undefined behaviour.
- AttributeFill.Attribute.Fill: the attribute pointer is a position in the first entity's attribute list. The attribute objects themselves are not modelled.
