# SOAP envelope builder and API call context, in Dafny

This project models two classes of the PayPal .NET SDK core and proves what they promise.

- **`DefaultSOAPAPICallHandler`** is the base SOAP pre-handler. It keeps a raw XML body fragment, optional namespace attributes, an optional header fragment and a configuration dictionary. `GetPayload` wraps the fragments in a SOAP 1.1 envelope (section 4.1.2 of the W3C SOAP 1.1 Note names the namespace `http://schemas.xmlsoap.org/soap/envelope/`). `GetEndpoint` looks the endpoint up in the configuration. `GetHeaderMap` is empty and `GetCredential` is null.
- **`APIContext`** is the per-call context. It holds an access token, a request id, a mask flag, a dynamic configuration, HTTP headers and an application header. Its constructors reject a null or empty token or request id. Its `RequestId` getter returns null when masked. Otherwise it returns the stored id, and generates and stores one first if none is stored.

Modules:

- `Wrappers` (`wrappers.dfy`): `Option`, where `None` stands for a C# `null`, and `Result`, where `Failure` stands for a thrown exception.
- `Formatting` (`formatting.dfy`): the part of `string.Format` that the handler uses. Format items are `{0}`..`{9}` and a null argument formats as empty text. It carries two induction lemmas: text without braces passes through unchanged, and a one-item template is filled in place.
- `SoapHandler` (`soap_handler.dfy`): the six templates, the three start-piece helpers, `Payload` (the six pieces in append order) and `Envelope` (the envelope written out slot by slot). `PayloadIsEnvelope` proves the two equal for every combination of null and non-null fragments. The framing lemmas are stated of `Envelope`. The class `DefaultSoapApiCallHandler` holds the fields, the property setters, `GetPayload`, `GetHeaderMap`, `GetEndpoint` and `GetCredential`.
- `Context` (`api_context.dfy`): `ReadRequestId`, one read of the request id as a function of mask flag, stored id and generated id, with its memoisation lemmas. The class `ApiContext` holds the fields, the default constructor, the two validating constructors (as factory methods returning `Result`), the setters and the mutating `RequestId` getter.

Null fragments. When a fragment is null, the handler appends the template itself. The format item `{0}`, `{1}` or `{2}` therefore stays in the payload. A null fragment and an empty fragment give different payloads (`NullDiffersFromEmpty`). An envelope built with no fragments is not an envelope with empty elements.

## Model

| member | source | states |
|---|---|---|
| Formatting.FormatPlainText | src/DefaultSOAPAPICallHandler.cs:151 | formatting a text that contains no braces returns the text unchanged |
| Formatting.FormatSingleItem | src/DefaultSOAPAPICallHandler.cs:151 | a template with one format item `{k}` between brace-free texts formats to those texts with argument k, verbatim, in the item's place |
| SoapHandler.EnvelopeStartForm | src/DefaultSOAPAPICallHandler.cs:145-158 | the envelope start is the open tag with the namespace declaration, then the namespace attributes (or the literal `{0}` when they are null), then `>` |
| SoapHandler.HeaderStartForm | src/DefaultSOAPAPICallHandler.cs:165-177 | the header start is `<soapenv:Header>` followed by the header fragment, or by the literal `{1}` when it is null |
| SoapHandler.BodyStartForm | src/DefaultSOAPAPICallHandler.cs:184-197 | the body start is `<soapenv:Body>` followed by the raw payload, or by the literal `{2}` when it is null |
| SoapHandler.PayloadIsEnvelope | src/DefaultSOAPAPICallHandler.cs:119-129 | for all three fragments null or not, the six appended pieces equal the envelope written out slot by slot |
| SoapHandler.PayloadWithAllFragments | src/DefaultSOAPAPICallHandler.cs:14-39 | with N, H and B all present, the payload is exactly the literal envelope with N in the start tag, H in the header and B in the body |
| SoapHandler.PayloadWithNoFragments | src/DefaultSOAPAPICallHandler.cs:145-197 | with all three fragments null, the payload is the literal envelope still holding `{0}`, `{1}` and `{2}` |
| SoapHandler.PayloadLength | src/DefaultSOAPAPICallHandler.cs:14-39 | the payload length is 158 fixed characters plus each fragment's length, or 3 for each null fragment |
| SoapHandler.NullDiffersFromEmpty | src/DefaultSOAPAPICallHandler.cs:145-197 | in each of the three slots, a null fragment gives a different payload than an empty one |
| SoapHandler.EnvelopeOpensWithStartTag | src/DefaultSOAPAPICallHandler.cs:121-122 | the envelope that `GetPayload` returns begins with the envelope open tag and its SOAP 1.1 namespace declaration, whatever the fragments |
| SoapHandler.EnvelopeClosesWithEndTag | src/DefaultSOAPAPICallHandler.cs:127 | the envelope that `GetPayload` returns ends with `</soapenv:Envelope>`, whatever the fragments |
| SoapHandler.EnvelopeHeaderPrecedesBody | src/DefaultSOAPAPICallHandler.cs:123-125 | in the envelope, `</soapenv:Header>` is immediately followed by `<soapenv:Body>`, and both start right after the header slot |
| SoapHandler.DefaultSoapApiCallHandler.constructor | src/DefaultSOAPAPICallHandler.cs:98-105 | stores the raw payload, namespace attributes and header verbatim, and the given config, or the global properties when none is given |
| SoapHandler.DefaultSoapApiCallHandler.SetHeaderElement | src/DefaultSOAPAPICallHandler.cs:64-74 | the getter returns the value set, and only the header field changes |
| SoapHandler.DefaultSoapApiCallHandler.SetNamespaceAttributes | src/DefaultSOAPAPICallHandler.cs:79-90 | the getter returns the value set, and only the namespace field changes |
| SoapHandler.DefaultSoapApiCallHandler.GetHeaderMap | src/DefaultSOAPAPICallHandler.cs:108-111 | the HTTP header map is empty whatever the state |
| SoapHandler.DefaultSoapApiCallHandler.GetPayload | src/DefaultSOAPAPICallHandler.cs:119-129 | returns the envelope around the current fragments (the six appended pieces, by `PayloadIsEnvelope`) and modifies nothing, so repeated calls return the same string |
| SoapHandler.DefaultSoapApiCallHandler.GetEndpoint | src/DefaultSOAPAPICallHandler.cs:135-138 | succeeds exactly when the endpoint key is configured and then returns its value; otherwise fails with the missing key |
| SoapHandler.DefaultSoapApiCallHandler.GetCredential | src/DefaultSOAPAPICallHandler.cs:140-143 | the credential is null whatever the state |
| Context.ReadRequestId | Source/SDK/APIContext.cs:100-115 | a masked read returns null and keeps the stored id; an unmasked read returns a non-empty id that it also stores, namely the stored id if that is non-empty, else the generated one |
| Context.RequestIdIsMemoised | Source/SDK/APIContext.cs:107-111 | after one unmasked read, a second unmasked read returns the same id and stores nothing new, whatever id it could generate |
| Context.MaskedReadDefersGeneration | Source/SDK/APIContext.cs:104-113 | a masked read with no stored id generates nothing, and the next unmasked read generates and stores an id |
| Context.ApiContext.constructor | Source/SDK/APIContext.cs:11-41 | the default constructor leaves token, request id, both maps and the application header null, and the mask off |
| Context.ApiContext.FromToken | Source/SDK/APIContext.cs:47-54 | fails with an ArgumentNullException whose parameter name is "AccessToken cannot be null" exactly when the token is null or empty; otherwise stores the token and leaves the rest at defaults |
| Context.ApiContext.FromTokenAndRequestId | Source/SDK/APIContext.cs:61-69 | checks the token first, then fails with an ArgumentNullException whose parameter name is "RequestId cannot be null" on a null or empty request id; on success stores both |
| Context.ApiContext.SetMaskRequestId | Source/SDK/APIContext.cs:85-95 | the getter returns the value set, and only the mask flag changes |
| Context.ApiContext.RequestId | Source/SDK/APIContext.cs:100-115 | the returned id and the new stored id are those of `ReadRequestId` on the mask flag and the old stored id; only the stored id may change |
| Context.ApiContext.SetConfig | Source/SDK/APIContext.cs:120-130 | the getter returns the value set, and only the dynamic configuration changes |
| Context.ApiContext.SetHeadersMap | Source/SDK/APIContext.cs:135-145 | the getter returns the value set, and only the HTTP header map changes |
| Context.ApiContext.SetApplicationHeader | Source/SDK/APIContext.cs:147-157 | the getter returns the value set, and only the application header changes |

The access token has no setter. No method's `modifies` frame names `token`, so only the constructors assign it.

## Left out

- `string.Format` is modelled only for single-digit format items applied to templates without other braces. Escaped braces (`{{`, `}}`), alignment and format specifiers, and the `FormatException` for a stray brace or an out-of-range index are not modelled. The handler's templates use none of them.
- `ConfigManager.Instance.GetProperties()` is a process-wide singleton loaded from a configuration file. It is the constructor parameter `globalProperties`.
- Reference sharing of dictionaries: the handler and `APIContext` keep the caller's `Dictionary` object itself. The model keeps its value, so a later change to the caller's dictionary does not show through.
- `BaseConstants.EndpointConfig` is not defined in `BaseConstants.cs`. The model uses the nearest constant, `END_POINT = "endpoint"` (BaseConstants.cs:78). The contracts speak only of the constant `EndpointConfig`, whatever its value.
- `ICredential` and the credential classes are not part of this model. `Credential` is an abstract type, because the handler only ever returns null.
- `Guid.NewGuid()` is the non-empty string parameter `generated` of `RequestId`. Global uniqueness of generated ids cannot be expressed over this model.
- Concurrency: two threads reading an unmasked `RequestId` with no stored id may each generate and store an id. The model is sequential.
- The `APIContext` constructors that throw `ArgumentNullException` are factory methods returning `Result`. A failed construction yields no object.
- `src/PayPal/OpenIDConnect/Error.cs` is a data holder whose only behaviour is JSON serialisation through an external library. It is not modelled.
- `BaseConstants.cs` holds only constants and has no behaviour. Only the endpoint key is used.
- NVP serialisation, HTTP transport, retries and timeouts, credential resolution and mode-to-endpoint selection are not part of this model. Their code is not among the modelled files.
