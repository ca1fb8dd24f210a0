# goblueboxapi — a Dafny model of the client core

The library is a thin client for the Blue Box block-provisioning API. A
`Client` holds the customer id and API key, resolves logical paths such as
`/blocks/abcdef` to URLs like `https://boxpanel.bluebox.net/api/blocks/abcdef.json`,
and builds authenticated requests. It sends a request and turns any status
outside 2xx into an error. It decodes the JSON body only when the caller
supplies a target. Its `BlocksService` lists, fetches, creates and destroys
blocks. Before a create request is built, the creation parameters
(`BlockParams`) are validated. They are then encoded as form fields.

The model has three modules:

- `Http` (`http.dfy`): the values the client exchanges with Go's HTTP
  library. These are the header map (`http.Header`), the form (`url.Values`),
  URLs, the request record, and the reply of one round trip. A reply is a
  transport error, or a status code with a body.
- `Params` (`params.dfy`): `BlockParams` with `Validates` and `ToValues`.
  Validation returns the rule that failed (a `Violation`); each rule keeps
  its error text. `ToValues` builds the form one key at a time, as the Go
  code does. Its result is specified by the predicate `Encodes`.
- `Api` (`api.dfy`): the `Client` and `BlocksService` classes, which point
  at each other; `UrlForPath`, `NewRequest` and `Do`; the four service calls.
  A service call takes as parameters the network's reply and the JSON decoder
  of its result type. It returns the request it would send and the caller's
  result.

## Model

| member | source | states |
|---|---|---|
| `Params.BlockParams.Validates` | blocks.go:37-52 | Validation succeeds iff product and template are non-empty and exactly one of password and SSH public key is; a reported rule is one the parameters break |
| `Params.MessageIdentifiesRule` | blocks.go:38-49 | The four error texts are pairwise different, so the text of a validation error identifies the rule that failed |
| `Params.ValidatesReportsFirstViolation` | blocks.go:38-49 | The reported rule is exactly the earliest rule, in the order missing product, missing template, both credentials, no credential, that the parameters break |
| `Params.ValidatesAcceptsIffNoViolation` | blocks.go:37-52 | Parameters are accepted iff they break none of the four rules |
| `Params.EmptyParamsReportProduct` | blocks_test.go:11-16 | All-empty parameters fail, on the "Product" rule |
| `Params.BothCredentialsRejected` | blocks_test.go:18-25 | Setting both password and public key fails whatever else is set; with product and template present it fails on that rule |
| `Params.BlockParams.ToValues` | blocks.go:54-79 | The form holds a key exactly when its field is non-empty, under the fixed key for that field (`ssh_public_key` for the public key), with that field as its one value, and no other key |
| `Params.EncodingIsUnique` | blocks.go:54-79 | The encoding of a parameter value is determined uniquely |
| `Params.EncodingOmitsEmpty` | blocks.go:54-79 | An encoded form has no empty value and no key outside the seven form keys |
| `Params.FormRoundTrip` | blocks.go:54-79 | Reading every form key back as `FormValue` does (absent means "") reconstructs the parameters |
| `Params.ValidFormCarriesRequiredKeys` | blocks.go:37-79 | The form of accepted parameters holds `product`, `template` and exactly one of `password` and `ssh_public_key` |
| `Api.LogicalPathOfApiPath` | client.go:41-44 | The logical path is recovered from the URL path `/api<path>.json` it is sent to |
| `Api.ApiPathInjective` | client.go:41-44 | Distinct plain logical paths go to distinct URL paths. A plain path (`PlainPath`) starts with `/` and holds no `?`, `#`, `%` or control character. It has no `.` or `..` segment between slashes. On such paths, resolving `api<path>.json` against the base gives exactly `/api<path>.json` |
| `Api.Client.UrlForPath` | client.go:41-44 | For a path starting with `/` (every caller passes one), the URL keeps the base URL's scheme and host, and its path recovers the logical path |
| `Api.BlockPathPlain` | blocks.go:94 | The path `/blocks/<uuid>` of a block id without `/`, `?`, `#`, `%` or control character is plain |
| `Api.ExampleBlockUrl` | blocks_test.go:79 | On the default base, block `abcdef` is at `https://boxpanel.bluebox.net/api/blocks/abcdef.json` |
| `Api.Client.NewRequest` | client.go:46-59 | For a path starting with `/`, the request has the given method, the URL of the path and the given body; it carries the client's Basic credentials and `Accept: application/json; charset=utf-8`; `Content-Type: application/x-www-form-urlencoded` is present iff the method is POST or PUT; there is no other header |
| `Api.Client.Do` | client.go:61-78 | A transport failure is returned as such; a status error occurs iff the status is outside [200,300), and it carries the code; success iff the status is 2xx and, when there is a target, its body decodes; the value is the decoded body when there is a target and nothing otherwise; a 2xx reply whose body fails to decode gives exactly a decode error with the decoder's message, and every decode error arises that way |
| `Api.StatusErrorIgnoresTarget` | client.go:69-71 | A reply outside 2xx gives the same status error whatever the target, so the body is never decoded |
| `Api.Client.constructor` | client.go:25-39 | A new client stores the given credentials, uses base `https://boxpanel.bluebox.net`, and has a fresh blocks service whose client is the new client |
| `Api.BlocksService.List` | blocks.go:81-91 | GET to the URL of `/blocks` with no body, prepared by the client; the result succeeds iff the reply is 2xx and its body decodes, with the decoded blocks, and is otherwise the error `Do` reports |
| `Api.BlocksService.Get` | blocks.go:93-103 | GET to the URL of `/blocks/<uuid>` with no body, prepared by the client; result as for List, decoding one block |
| `Api.BlocksService.Create` | blocks.go:105-119 | Invalid parameters return that validation error and no request is built; otherwise a prepared POST to the URL of `/blocks` whose body is the form encoding of the parameters, with the result as for Get |
| `Api.BlocksService.Destroy` | blocks.go:121-128 | Prepared DELETE to the URL of `/blocks/<uuid>` with no body and no decode target; it succeeds iff the reply is a 2xx response, whatever the body |
| `Api.BlockUrlsDistinct` | blocks.go:93-128 | Fetching or destroying two different blocks whose ids hold no `/`, `?`, `#`, `%` or control character targets two different URLs |
| `Api.ListUrlIsNoBlockUrl` | blocks.go:81-103 | The list URL is never the URL of a single block whose id holds no `/`, `?`, `#`, `%` or control character |

## Left out

- The network round trip of `http.Client.Do`, and closing the response body. The reply is a parameter of each call: a transport error, or a status code with a body.
- JSON decoding with `encoding/json`. The decoder of each target type is an opaque parameter `Decoder<T>`.
- `Api.BlocksService.Get`, `Api.BlocksService.Create`: beside every error from `Do` (transport, status or decode), Go returns the non-nil `new(Block)` (blocks.go:99-102, 115-118). It is untouched, or partly filled by a failed decode. The model's result carries only the error.
- `Api.BlocksService.List`: beside every error from `Do`, Go returns the slice as it stands (blocks.go:87-90). That is nil, or partly decoded. The model's result carries only the error.
- A failure of `http.NewRequest` (client.go:49). It leaves `req` nil, so Go's `NewRequest` panics when it dereferences it: at client.go:52 for POST and PUT, and at client.go:55 for every method. The `err != nil` returns after `NewRequest` in the four service calls (blocks.go:83-85, 95-97, 111-113, 123-125) are therefore never reached. The model's `NewRequest` always succeeds.
- `Api.Client.UrlForPath`: the URL is the plain join `/api<path>.json`, which is what Go's `url.Parse` and `ResolveReference` give only for a `PlainPath`. The function requires a leading `/`. Without one, a first segment holding `:` (`"x:y"`) would parse as a scheme (`apix`) that the result keeps. For other non-plain paths the model's URL differs from Go's. With `?` or `#`, the rest becomes query or fragment. A `%` escape is decoded, and `.`/`..` segments are removed (so `Get("../blocks")` reaches the list URL). An unparsable path (`"%zz"`, a control character) makes `url.Parse` return nil, and `ResolveReference` then panics (client.go:42-43). The URL lemmas are stated for plain paths only.
- A base URL with a path of its own. The base URL is modelled as scheme and host only.
- `url.Values` as a multi-valued map. The form is a map from key to one value, which is all `Set` ever leaves in it.
- `url.Values.Encode`, that is, percent-encoding and key ordering. The request body is the form map itself.
- The encoding of the `Authorization` header by `SetBasicAuth`. The request record holds the Basic credentials as a field instead.
- The `http.Client` field of `Client` (`http.DefaultClient`), which only performs the round trip.
- The templates service. Its source file is not part of this model, and `Client` has no field for it.
- The fixtures of the List, Get and Create tests, which compare decoded JSON with expected records; JSON decoding is not modelled.
