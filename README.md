# LFA reader client: server-address normalisation and the photo/analysis handlers

This project models the logic of the lateral-flow-assay reader app's main
component (`App.tsx`): the user types the analysis server's address, picks a
photo of a test strip from the camera or the gallery, and sends it to
`<server>/analyze`. The server's answer is then shown as the result, reported
as an error, or reported as a connection failure.

- `ServerAddress` (`server_address.dfy`) models `getServerUrl`. It is a pure
  function over strings. `Trim` follows `String.prototype.trim` with the
  ECMAScript whitespace and line-terminator set. The predicates `StartsWith`
  and `Includes` model `startsWith('http')` and `includes(':')`: a
  case-sensitive comparison of the leading characters, and an occurrence of
  the character anywhere in the string. The lemmas prove that the
  result always starts with `http` and contains `:`, that the function is
  idempotent, and which of its three cases applies.
- `App` (`app.dfy`) models the component's state (`photo`, `loading`,
  `result`, `serverIp`) as the class `AppScreen`. The picker callback and
  `handleAnalyze` are methods on it. The picker's response and the outcome of
  `fetch`/`response.json()` are inputs. The alert each handler raises is an
  output. The request is a value: the target URL plus the file part's `uri`,
  `type` and `name`. `handleAnalyze` is split at its `await`:
  `BeginAnalyze` covers the work before the request goes out and
  `FinishAnalyze` covers the `try`/`catch`/`finally` after it.
  `HandleAnalyze` runs the two back to back. The predicate `Truthy` is
  JavaScript truthiness of an optional string (undefined, null and the
  empty string are falsy), as the code tests `errorCode`, `fileName`,
  `warning` and `error`; `OrElse` is `o || fallback`. The invariant `Valid()` holds
  across every handler: a result on screen is always a successful answer and
  some photo is selected, and a photo is selected while loading. The camera
  and gallery buttons (App.tsx:145-150) stay enabled while loading, so a
  photo picked between `BeginAnalyze` and `FinishAnalyze` ends up shown next
  to the answer for the previous photo; the model allows this interleaving.
- `Options` (`options.dfy`) is the optional-value datatype, standing for
  properties that may be `undefined`.

The source's own comments promise more than `getServerUrl` does. The
comment on the helper (App.tsx:27) describes its result as `http://IP:5000`,
and the comment on the port check (App.tsx:34) says the port 5000 is added
when it is missing. On a reading of App.tsx:31-37, the `http://` prepended
to a bare host already contains a `:`, so `includes(':')` is true and the
port is never appended: the initial address `192.168.1.25` becomes
`http://192.168.1.25`. The model follows the code as written (`BareHostGetsSchemeOnly`, `DefaultAddressHasNoPort`).

## Model

| member | source | states |
|---|---|---|
| `ServerAddress.IsWhitespace` | App.tsx:30 | the character set `trim()` removes: ECMAScript WhiteSpace (TAB, VT, FF, SP, NBSP, ZWNBSP, every Unicode space separator) and LineTerminator (LF, CR, LS, PS); no visible ASCII character is in it |
| `ServerAddress.StartsWithHttpLetters` | App.tsx:31 | `startsWith('http')` is case-sensitive: a text that passes it begins with the four lower-case letters `h`, `t`, `t`, `p` |
| `ServerAddress.IncludesConcat` | App.tsx:35 | `includes(':')` holds of a concatenation exactly when it holds of one of the parts, so the inserted `http://` and an appended `:5000` both satisfy it |
| `ServerAddress.PrefixKept` | App.tsx:35-37 | appending text (the port here, `/analyze` at App.tsx:81) keeps an `http` prefix |
| `ServerAddress.TrimStart` | App.tsx:30 | drops leading whitespace only: the result is a suffix of the input that is empty or starts with non-whitespace, and everything removed is whitespace |
| `ServerAddress.TrimEnd` | App.tsx:30 | drops trailing whitespace only: the result is a prefix of the input that is empty or ends with non-whitespace, and everything removed is whitespace |
| `ServerAddress.Trim` | App.tsx:30 | `serverIp.trim()`: the result has no whitespace at either end and is a contiguous piece of the input with only whitespace around it |
| `ServerAddress.TrimmedIsFixed` | App.tsx:30 | trimming a string with no whitespace at either end returns it unchanged |
| `ServerAddress.TrimIdempotent` | App.tsx:30 | trimming twice equals trimming once |
| `ServerAddress.WithScheme` | App.tsx:31-33 | after the scheme step the text starts with `http`; when `http://` was inserted it also contains `:` |
| `ServerAddress.WithPort` | App.tsx:35-37 | after the port step the text contains `:`, and an `http` prefix survives |
| `ServerAddress.NormaliseCases` | App.tsx:31-37 | on a trimmed text the two steps give `"http://" + text` without `http`, `text + ":5000"` with `http` and no `:`, and the text itself otherwise |
| `ServerAddress.GetServerUrl` | App.tsx:28-39 | the normalised address always starts with `http` and always contains `:` |
| `ServerAddress.ServerUrlIsTrimmed` | App.tsx:28-39 | the normalised address has no whitespace at either end |
| `ServerAddress.ServerUrlIdempotent` | App.tsx:28-39 | feeding the normalised address back in as the entered address returns it unchanged |
| `ServerAddress.BareHostGetsSchemeOnly` | App.tsx:30-37 | a trimmed input not starting with `http` becomes exactly `"http://" + trimmed`; `:5000` is not appended, because the inserted scheme already contains `:` |
| `ServerAddress.HttpWithoutColonGetsPort` | App.tsx:31-37 | a trimmed input starting with `http` and containing no `:` becomes `trimmed + ":5000"` |
| `ServerAddress.HttpWithColonIsTrimmedOnly` | App.tsx:31-37 | a trimmed input starting with `http` that already contains `:` is returned as trimmed |
| `ServerAddress.ServerUrlCases` | App.tsx:30-37 | the full case split: the scheme check comes first and decides the case, then the port check |
| `ServerAddress.UpperCaseSchemeGetsAnother` | App.tsx:30-37 | an address whose trimmed form begins with `H` (such as `HTTP://10.0.0.1:5000`) fails the scheme check and gets `http://` in front of it |
| `ServerAddress.DefaultAddressHasNoPort` | App.tsx:25-37 | the initial address `192.168.1.25` normalises to `"http://" + "192.168.1.25"`, with no port |
| `App.UploadName` | App.tsx:77 | the file part's name is never empty; it is the asset's `fileName` when that is non-empty, else `test_image.jpg` |
| `App.BuildRequest` | App.tsx:73-81 | the request targets `getServerUrl() + "/analyze"`, so its URL starts with `http` and contains `:`; the file part keeps the photo's `uri` and `type`, and its name is the photo's `fileName` when that is non-empty and `test_image.jpg` when it is missing or empty |
| `App.RequestStableUnderNormalisedAddress` | App.tsx:81 | entering the normalised address as the server address builds the same request |
| `App.ResponseAlert` | App.tsx:96-104 | a successful answer raises an alert exactly when it has a warning, and shows that warning; a failed answer always raises an alert with a non-empty message, which is the server's `error` when present |
| `App.ConnectionAlert` | App.tsx:106-107 | the connection-failure alert's message contains the attempted URL |
| `App.AppScreen.constructor` | App.tsx:19-25 | initial state: no photo, not loading, no result, address `192.168.1.25`; the invariant holds |
| `App.AppScreen.SetServerIp` | App.tsx:126 | only the address changes |
| `App.AppScreen.OnPickerResponse` | App.tsx:49-59 | a cancel, an error (with an alert carrying the library's message) or a response with missing or empty assets leaves `photo` and `result` unchanged; a response with assets sets `photo` to the first asset and clears `result`; `loading` and the address never change; the invariant is preserved |
| `App.AppScreen.BeginAnalyze` | App.tsx:66-81 | with no photo: no request, a warning alert, and no state change; with a photo: `loading` is set and exactly the request for the current address and photo is built |
| `App.AppScreen.FinishAnalyze` | App.tsx:84-111 | `loading` is false afterwards; a success sets `result` to the answer, a failed answer clears it, and a thrown fetch or parse leaves it unchanged and raises the connection alert for the sent URL; the photo and address are unchanged; the invariant is preserved |
| `App.AppScreen.HandleAnalyze` | App.tsx:66-112 | end to end: without a photo nothing is sent and nothing changes; with a photo exactly one request is built, `loading` is false afterwards, and `result` follows the outcome as above |

## Left out

- Strings are sequences of Unicode scalar values, not UTF-16 code units. That is enough for `trim`, whose whitespace set lies in the Basic Multilingual Plane.
- The iOS-only stripping of `file://` from the photo URI (App.tsx:75) depends on `Platform.OS`. The model sends `photo.uri` unchanged, which is the non-iOS branch.
- `fetch`, `FormData`, `response.json`, `launchCamera`/`launchImageLibrary`, `Alert` and `console` are foreign calls. Their outcomes are inputs or outputs of the methods, and their internals are not modelled. The `console.log` and `console.error` calls are dropped.
- The picker `options` and the choice between camera and gallery (App.tsx:42-62) only select which foreign picker runs. Both deliver their response to the same callback, which is what is modelled.
- Result rendering is float parsing and formatting: `parseFloat(...).toFixed(4)`, `parseInt`, `toFixed(1)` and the blur-score threshold of 15 (App.tsx:162-199). The response fields it reads are carried in `AnalysisData` as uninterpreted strings.
- The graph image URL uses the current time as a cache-buster (App.tsx:193).
- The screen components under `src/components/` only render and forward callbacks. `src/components/common/styles.ts` holds layout constants.
- `App.AppScreen.BeginAnalyze`: it requires `!loading` because the analyse button is disabled while loading (App.tsx:153-157). A second tap that lands before the re-render, which would start two overlapping requests, is not modelled.
- `AnalysisData.success` is a boolean, and `warning` and `error` are optional strings. The code tests these JSON fields for truthiness; a non-boolean `success` and a non-string `warning` or `error` (a number, an object) are not modelled.
