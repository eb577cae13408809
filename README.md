# lalamove-go core, modelled in Dafny

This project models the checkable core of a Go client library for the
Lalamove logistics API:

- **Error translation** (`errors.go`). The server's error code is mapped to
  one of the package's error values (`wrapAPIError`). A recognised code
  yields the error whose text is that code. Any other code yields
  `ERR_UNKNOWN`.
- **Region header resolution** (`geo.go`). `GetCountry` maps a city code to its
  country record. `getLLMCountry` picks the `X-LLM-Country` header value.
  `AllCountriesByISOCode` is the table of country records.
- **Client construction, request signing and response dispatch** (`client.go`):
  - `NewClient` runs its options in order, then checks the credentials and
    the base URL.
  - `generateAuth` builds the `hmac key:ts:sig` header over
    `ts\r\nMETHOD\r\nPATH\r\n\r\nBODY`.
  - `marshalRequest` prepares the request body.
  - `decodeResponse` turns an HTTP status into a result.

Modules, one per concern:

| module | file | models |
|---|---|---|
| `Wrappers` | wrappers.dfy | `Option`, `Result` (Go's nil and `(value, error)`) |
| `Errors` | errors.dfy | `errors.go` |
| `Geo` | geo.dfy | `geo.go` |
| `Encoding` | encoding.dfy | `%d` formatting, `hex.EncodeToString`, first-separator splitting |
| `Auth` | auth.dfy | `generateAuth`, `marshalRequest` |
| `Clients` | clients.dfy | `NewClient`, the `With…` options, `strings.TrimSpace`, `decodeResponse` |

Abstractions:
- HMAC-SHA256 is a parameter `mac: (string, string) -> Digest` of the signer.
  It stands for any function from key and message to 32 bytes.
- The millisecond wall-clock reading is a parameter `now`.
- The JSON encoder's and decoder's outcomes are inputs: a `Result` holding
  either the decoded value or the decoder's error text.
- A caller's `*http.Client` is an opaque `HttpClient` handle.

`NewClient` is imperative, like the source. `Clients.Client` is a class with
the four fields of `Client`. `Client.Apply` runs one option and assigns that
option's field. `Clients.NewClient` loops over the options with a loop
invariant. It is proved against the specification function
`Clients.Construct`, and the lemmas about options are stated over
`Construct`. Everything else is pure functions and lemmas.

Where the code as shown does not compile, the model follows the evident intent:
- `decodeResponse` returns `errTooManyRequests`, `errUnauthorized` and
  `errUnknownError` (client.go:159, 161, 169). None of these is declared in
  `errors.go`. The model uses `Api(TooManyRequests)` (`apiErrTooManyRequests`)
  and `Api(UnknownError)` (`apiErrUnknownError`). For the unauthorized case
  it uses a separate kind, `Error.Unauthorized`, which has no text.
- `createRequest` calls `GetLLMCountry` (client.go:120), but `geo.go:35`
  declares `getLLMCountry`. Both names are modelled as `Geo.GetLLMCountry`.

Two facts about the code that are easy to miss:
- `apiErrTooManyRequests` is declared (errors.go:50), but the switch in
  `wrapAPIError` does not list its code. So "ERR_TOO_MANY_REQUESTS" in a
  402/409 body yields the unknown error
  (`Errors.TooManyRequestsCodeIsUnknown`).
- The timestamp that is signed and sent is in milliseconds (client.go:138).

## Model

| member | source | states |
|---|---|---|
| `Errors.Text` | errors.go:10-50 | every API error's text is an `ERR_…` code |
| `Errors.WrapAPIError` | errors.go:53-93 | a code in the 18-code switch yields a recognised error whose text is that code; any other message yields `ERR_UNKNOWN`; total on every string |
| `Errors.RecognizedCodesAreTexts` | errors.go:55-90 | an error is one of the 18 recognised ones (all but unknown and too-many-requests) exactly when its text is a listed switch code |
| `Errors.ListedCodesAreTexts` | errors.go:55-90 | every listed switch code is the text of some recognised error; with the row above, the 18 codes are exactly the recognised errors' texts |
| `Errors.WrapText` | errors.go:53-92 | round trip: translating the text of any error except too-many-requests gives that error back |
| `Errors.TooManyRequestsCodeIsUnknown` | errors.go:54-92 | "ERR_TOO_MANY_REQUESTS" is not in the switch, so it yields the unknown error although `apiErrTooManyRequests` is declared |
| `Errors.WrapNeverTooManyRequests` | errors.go:53-93 | the translator never returns the too-many-requests error |
| `Errors.WrapInjective` | errors.go:55-90 | distinct recognised codes give distinct errors |
| `Errors.TextInjective` | errors.go:10-50 | no two error values share a text |
| `Geo.GetCountry` | geo.go:50-76 | each of the 17 declared cities maps to a country whose city list contains it; any other code maps to `CountryUnknown` (name "Unknown", empty code, cities and locales) |
| `Geo.GetLLMCountry` | geo.go:35-47 | for four of the five listed cities the header is the city code's two-letter prefix, and for Hong Kong it is "BR"; either way a two-letter table key; every other code, declared or not, is sent unchanged |
| `Geo.LLMCountryValues` | geo.go:35-47 | the five listed cities send "ID", "MY", "SG", "TW", and "BR" for Hong Kong |
| `Geo.CountryTableShape` | geo.go:207-220 | the table has exactly 11 entries, one per declared country code |
| `Geo.TableCitiesAreDeclared` | geo.go:128-204 | every city a table record lists is a declared city |
| `Geo.DeclaredCityResolvesByPrefix` | geo.go:50-76 | a declared city resolves to the table entry keyed by its first two letters |
| `Geo.CitiesResolveToTheirCountry` | geo.go:207-220 | every city in a table record's list resolves back to that record |
| `Geo.CityCodesCarryTheirKey` | geo.go:128-204 | every city in a table record's list is spelled as the record's key, "_", then three more characters |
| `Geo.CodesMatchKeysExceptHongKong` | geo.go:208-220 | every record's code equals its key, except the "HK" record, whose code is "BR" |
| `Geo.HongKongResolvesToBrasil` | geo.go:135-141 | the Hong Kong city is sent with header "BR", and its record's code is the same as Brasil's |
| `Geo.GetCountryIntended` | geo.go:50-76 | the lookup with the corrected Hong Kong record keeps the declared-city and unknown-city guarantees |
| `Geo.GetLLMCountryIntended` | geo.go:35-47 | with the correction every listed city's header is its own two-letter prefix, a table key whose record lists the city; other codes are sent unchanged |
| `Geo.IntendedCodesMatchKeys` | geo.go:208-220 | with the correction every record's code equals its key and each listed city resolves back to it |
| `Geo.IntendedHeaderNamesItsCountry` | geo.go:37-43 | with the correction the table entry a listed city's header names is the record the city resolves to |
| `Encoding.Digits` | client.go:139 | `%d` digits are non-empty, all decimal digits, with no leading zero |
| `Encoding.Decimal` | client.go:139 | `%d` output starts with a minus sign exactly for negative numbers; every other character is a digit |
| `Encoding.DecimalRoundTrip` | client.go:143 | the timestamp printed in the header parses back to the same number |
| `Encoding.DecimalInjective` | client.go:139 | distinct timestamps print differently |
| `Encoding.HexEncode` | client.go:142 | the encoding has two lowercase hex characters per byte |
| `Encoding.HexRoundTrip` | client.go:142 | hex decoding recovers the MAC bytes from the signature |
| `Auth.GenerateAuth` | client.go:137-144 | for any key, the header is `hmac `, the key, `:`, the decimal time, `:`, then 64 lowercase hex characters that decode to the MAC of the canonical message under the secret |
| `Auth.CanonicalRoundTrip` | client.go:139 | the signed message determines its time, method, path and body when method and path hold no CR |
| `Auth.CanonicalMessage` | client.go:139 | the signed message is the decimal time, CR LF, method, CR LF, path, CR LF CR LF, body: its length, the time at the front, the CR LF after it, and the CR LF CR LF before the body at the end |
| `Auth.CanonicalInjective` | client.go:139 | requests that differ in time, method, path or body sign different messages, when method and path hold no CR (`http.NewRequest` at client.go:113 refuses such a method or URL before signing at client.go:117) |
| `Auth.AuthRoundTrip` | client.go:140-143 | the header carries the key, the same time that was signed, and the MAC of the signed message, all recoverable when the key has no ':' |
| `Auth.GeneratedAuthVerifies` | client.go:137-144 | a server holding the secret accepts the header for the request it signs, when the key has no ':' |
| `Auth.MarshalRequest` | client.go:146-155 | a nil request gives no reader and empty signed bytes; a payload gives a reader that streams exactly the signed bytes, which are the encoder's output, or fails with the encoder's error unchanged; only a payload can fail |
| `Auth.NilRequestSignsEmptyBody` | client.go:146-149 | a nil request is signed with an empty body segment |
| `Clients.TrimSpace` | client.go:38-41 | the result is a slice of the input with only white space cut before and after it; it is empty exactly when the input is all white space, and otherwise starts and ends with non-space |
| `Clients.Step` | client.go:58-79 | a `With…` option assigns only its own field; a failing option returns its error |
| `Clients.ApplyAll` | client.go:32-37 | options run left to right and the first error stops the run: the run fails exactly when some option fails, and then with that option's own error |
| `Clients.Validate` | client.go:38-44 | a blank key or secret fails with the credentials error, even if the base URL is blank too; then a blank base URL fails with the base-URL error; otherwise the fields are kept untrimmed |
| `Clients.Construct` | client.go:30-45 | what `NewClient` yields: a built client always has a non-blank key, secret and base URL; without a failing option the only errors are the two construction errors |
| `Clients.FirstFailingOptionAborts` | client.go:32-37 | options run left to right; the first one that errs decides the result and the later ones do not run |
| `Clients.FailingOptionPrecedesValidation` | client.go:31-40 | an option error is returned before any credential or URL check |
| `Clients.UnassignedFieldKept` | client.go:59-79 | a field that no option assigns keeps its value |
| `Clients.LastAssignmentWins` | client.go:59-79 | the last option of each kind decides the field's value |
| `Clients.Client.constructor` | client.go:31 | a new client has every field at its zero value |
| `Clients.Client.Apply` | client.go:58-79 | running an option on the client changes the fields as `Step` says, or returns the option's error and changes nothing |
| `Clients.NewClient` | client.go:30-45 | returns `Construct`'s error, or a fresh client whose fields are `Construct`'s result |
| `Clients.DecodeResponse` | client.go:157-175 | 429 is the only status that gives too-many-requests and 401 the only one that gives unauthorized; success exactly below 400 when the target decodes; a decoded 402/409 body gives the translation of its message, and one that fails to decode gives the decoder's error; any other status from 400 up gives unknown; a target that fails to decode below 400 gives the decoder's error; never a construction error |
| `Clients.StatusDecidedBeforeBody` | client.go:158-161 | for 429 and 401 the body and target play no part |
| `Clients.BusinessErrorRoundTrip` | client.go:162-167 | a 402 or 409 body carrying an error's code yields that error, or unknown for "ERR_TOO_MANY_REQUESTS" |
| `Clients.UnlistedBusinessCodeIsUnknown` | client.go:162-167 | a decoded 402 or 409 body whose message is not a listed code, such as "" or "ERR_TOO_MANY_REQUESTS", gives the unknown error |
| `Clients.BusinessErrorDecodeFailure` | client.go:162-166 | a 402 or 409 body that fails to decode returns the decoder's error as-is |

## Findings

| source | as written | input that shows it | evidently intended | confidence | as-written member | corrected member |
|---|---|---|---|---|---|---|
| geo.go:137 | the Hong Kong record's `Code` is `CountryCodeBrasil` | city `HK_HKG`: `getLLMCountry` returns "BR", and `AllCountriesByISOCode["HK"].Code` is "BR" | `Code: CountryCodeHongKong`, so the header is "HK" | high, not executed | `Geo.HongKongResolvesToBrasil` | `Geo.IntendedCodesMatchKeys` |

The as-written records stay in `Geo.GetCountry`, `Geo.GetLLMCountry` and
`Geo.AllCountriesByISOCode`, which behave as the code does. The corrected
definitions are `Geo.GetCountryIntended`, `Geo.GetLLMCountryIntended` and
`Geo.AllCountriesByISOCodeIntended`. Their properties are proved in
`Geo.IntendedCodesMatchKeys`, `Geo.GetLLMCountryIntended` and
`Geo.IntendedHeaderNamesItsCountry`.
No other part of the model reads the header value.

## Left out

- HTTP transport: `get`, `post`, `put`, `createRequest` and `do`
  (client.go:82-135), including the request headers they set. This is I/O
  over library objects. The header values themselves are modelled by
  `Auth.GenerateAuth` and `Geo.GetLLMCountry`.
- `NewClient` panics in two cases the model cannot express:
  - a nil `ClientOption` panics where it is called (client.go:33);
  - `WithHTTPClient(nil)` panics where it reads `c.Transport` (client.go:50).
  `ClientOption` and `HttpClient` have no nil value, so the model promises
  nothing for either input.
- `Auth.AuthRoundTrip`, `Auth.GeneratedAuthVerifies`: a key containing ':' makes
  the `hmac key:ts:sig` header ambiguous. A reader that splits at the first
  ':' takes part of the key as the time. client.go:137-143 does not refuse such
  a key, so the two lemmas hold only for keys without ':'.
- `WithHTTPClient` sets `Transport` on the caller's `http.Client` when it is
  nil (client.go:50-52). That is a change to a foreign object. The model only
  records which client was passed.
- Custom `ClientOption` functions are modelled only as `ClientOption.Failing`,
  an option that returns an error without changing the client. A caller's
  option that changes fields and then succeeds or fails is not modelled.
- JSON encoding and decoding (client.go:150, 164, 174). Their outcome is an
  input: `ApiRequest.Payload` for encoding, `Body` for decoding.
- HMAC-SHA256 (client.go:140-141) is the `mac` parameter, so no property of
  SHA-256 is used. The clock reading (client.go:138) is the `now` parameter.
- `Encoding.Decimal`: the timestamp is an unbounded `int`. The range of Go's
  `int64` is not modelled.
- Strings are sequences of Unicode characters. Go's byte strings, and how
  `strings.TrimSpace` handles invalid UTF-8, are not modelled.
  `Clients.IsSpace` is the character set of Go's `unicode.IsSpace`.
- UUID generation for `X-Request-ID` (client.go:119). It is a foreign
  library.
- `api.go`: endpoint wrappers over the HTTP helpers, with no modelled
  behaviour.
- `models.go` and `dto.go`: type and enum declarations with no behaviour.
- The `PhoneRegex` patterns are stored in the records as strings and never
  matched.
- Whether `decodeResponse`'s target is nil is the boolean `wantsTarget`.
  Go's typed-nil-in-interface distinction is not modelled.
- Some properties hold by construction and have no lemma:
  - `wrapAPIError` reads only the `message` field, because
    `Errors.ErrorResponse` has no other field.
  - The translator is total, because it is a Dafny function without a
    precondition.
  - The translator never returns `errCredentialsMissing` or
    `errBaseURLMissing`, because its result type `ApiError` holds neither.
  - Apart from `now`, the header is a deterministic function of method,
    path, body, key and secret, because it is a function.
