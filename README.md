# go-serve-fs request handler, modelled in Dafny

go-serve-fs turns an embedded, read-only filesystem (`embed.FS`) into an HTTP
handler for single-page applications. This project models its whole decision
logic, all of which lives in `handler.go`:

- `getMimeType`: the case-sensitive table from a file extension to the
  Content-Type value, with "text/plain" for everything it does not list.
- `detectMainFolderName`: the root prefix of every lookup. It is the text before
  the first `/` of the first top-level entry, or "" when the listing fails or is
  empty.
- The request closure `ConnectFS` returns. A path ending in `/` is looked up as
  its `index.html` and typed as ".html". Any other path is looked up verbatim and
  typed by `path.Ext`. The lookup key is the root prefix followed by that path. A
  hit is served with status 200. On a miss, client-side routing serves
  `prefix + MainPath` as ".html" if it exists. Otherwise the answer is a 404 with
  an empty body.

Files:

- `wrappers.dfy`: `Option`, for a lookup that misses and a listing that fails.
- `go_strings.dfy`: the Go library helpers the handler calls. These are
  `strings.HasSuffix`, `strings.Split(s, "/")[0]` (`FirstSegment`) and
  `path.Ext` (`Ext`, with a complete characterisation of its result).
- `mime.dfy`: `GetMimeType`, a `match` over the same case labels and values as the
  Go `switch`. The ".svg" value keeps its leading tab character.
- `http.dfy`: the three `http.ResponseWriter` calls the handler makes, as a class.
  `Header().Set` changes a header map. The first `WriteHeader` fixes the status and
  the headers that are sent. `Write` sends status 200 first if no status was
  written, then appends bytes. Because of this, the order of the handler's calls
  decides what the client sees: a Content-Type set after `WriteHeader` would be
  lost.
- `handler.dfy`: `Config` (whether client-side routing is on, and the path of the
  main document it falls back to; the lemmas `ConfigIgnoredOnHit` and
  `MainPathIgnoredWithoutRouter` say when each field matters), the filesystem as a value (a map from key to bytes
  plus a top-level listing that may fail), and `DetectMainFolderName`. It also has
  `Respond`, a specification function built from `Resolve` (which of three outcomes
  a request ends in) and `Render`. `Serve` is the closure itself, an imperative
  method that reassigns `ext` and `requestPath` and makes the writer calls in the
  source's order. Its postcondition ties the writer's final state to
  `Respond`. The lemmas about `Respond` state the handler's promises.

The Content-Type value for ".svg" is `"\timage/svg+xml"`, with a leading tab, as
in the table. Over HTTP/1.x, Go's `net/http` trims leading and trailing white space
from header values when it writes them, so there the tab never reaches the wire.
Whether the tab is sent over other protocol versions is not modelled. The model
keeps the table's value unchanged.

`detectMainFolderName` runs twice on the fallback path. The model computes it
from the same listing value both times. The filesystem is read-only, so the two
calls cannot disagree. Idempotence follows in the same way: `Respond` is a
function of the filesystem, the configuration and the path. `Serve`'s
postcondition fixes the writer's whole final state from those three inputs and
the writer's initial headers.

## Model

| member | source | states |
|---|---|---|
| `GoStrings.HasSuffixIffConcat` | handler.go:177 | `strings.HasSuffix(s, suffix)` holds exactly when `s` is some string followed by `suffix` |
| `GoStrings.FirstSegment` | handler.go:168 | `strings.Split(name, "/")[0]` is the longest prefix of the name that has no `/`: the result is a prefix, holds no `/`, and is followed by `/` whenever it is shorter than the name |
| `GoStrings.FirstSegmentOfPlainName` | handler.go:168 | a top-level entry name without `/` is its own root prefix |
| `GoStrings.Ext` | handler.go:175 | `path.Ext`: the result is a suffix of the path that starts with `.` and holds no other `.` and no `/`; it is empty only when every `.` of the path lies before some `/` |
| `GoStrings.ExtOfDirectory` | handler.go:175-178 | a path ending in `/` has no extension of its own, which is why the handler substitutes ".html" |
| `GoStrings.ExtOfFinalElement` | handler.go:175 | only the final `/`-separated element decides the extension: `Ext(dir + "/" + name) == Ext(name)` |
| `GoStrings.ExtOfUndottedName` | handler.go:175 | a final element with no `.` gives the empty extension, whatever directory precedes it |
| `GoStrings.ExtOfDottedTail` | handler.go:175 | a path ending in `.` followed by a dot-free, slash-free tail has the extension `.` + tail |
| `GoStrings.ExtOfIndexFile` | handler.go:177-179 | `path.Ext` of any path followed by "index.html" is ".html", so the ".html" the handler sets for a directory is the extension of the file it reads |
| `MimeTypes.DefaultExactlyWhenUnlisted` | handler.go:16-160 | `getMimeType` gives "text/plain" exactly when the extension is not one of the table's 75 case labels: no listed label maps to "text/plain", and every other string does |
| `MimeTypes.UnlistedIsDefault` | handler.go:158 | an extension outside every case label falls through the `switch` to "text/plain" |
| `MimeTypes.LeadingLabelsNotDefault` | handler.go:18-91 | each of the case labels ".aac" through ".rar" maps to a value other than "text/plain" |
| `MimeTypes.TrailingLabelsNotDefault` | handler.go:92-157 | each of the case labels ".rtf" through ".bin" maps to a value other than "text/plain" |
| `MimeTypes.MidiAliases` | handler.go:58-59 | ".mid" and ".midi" both give "audio/x-midi" |
| `MimeTypes.TiffAliases` | handler.go:98-99 | ".tif" and ".tiff" both give "image/tiff" |
| `MimeTypes.JavaScriptAliases` | handler.go:140-141 | ".js" and ".mjs" both give "text/javascript" |
| `MimeTypes.HtmlAliases` | handler.go:144-145 | ".htm" and ".html" both give "text/html" |
| `MimeTypes.JpegAliases` | handler.go:150-151 | ".jpg" and ".jpeg" both give "image/jpeg" |
| `MimeTypes.UnlistedSpellings` | handler.go:17-159 | the lookup is case-sensitive (".PNG" gives "text/plain") and the empty extension gives "text/plain" |
| `Http.ResponseWriter.SetHeader` | handler.go:193 | `Header().Set` replaces one header entry and changes nothing that was already sent |
| `Http.ResponseWriter.WriteHeader` | handler.go:189 | for a final status that allows a body (200–999 except 204 and 304), the first call fixes the status and the headers sent with it; later calls change nothing |
| `Http.ResponseWriter.Write` | handler.go:190 | appends the bytes, sending status 200 and the current headers first if no status was written |
| `Handler.ReadFile` | handler.go:182 | `ReadFile` succeeds exactly when the key is stored, and then returns that file's bytes |
| `Handler.DetectMainFolderName` | handler.go:162-171 | "" when the listing fails or is empty; otherwise the part of the first entry before its first `/` (a prefix of it, with no `/`, followed by `/` if shorter) |
| `Handler.EffectivePath` | handler.go:176-180 | the request path is extended exactly when it ends in `/`, and then by "index.html"; the path looked up never ends in `/` |
| `Handler.EffectiveExt` | handler.go:175-178 | the extension that picks the Content-Type is always `path.Ext` of the path looked up |
| `Handler.Resolve` | handler.go:181-197 | only a key present in the filesystem is ever served: a direct hit under prefix + effective path with the effective extension, the fallback under prefix + MainPath |
| `Handler.Render` | handler.go:188-204 | a served file goes out whole with status 200; a direct hit with `getMimeType` of its extension, the fallback always as "text/html"; not found is a 404 with no Content-Type and no body |
| `Handler.Respond` | handler.go:174-205 | a 200 always carries a Content-Type and a whole stored file; every other response is a 404 with no Content-Type and an empty body |
| `Handler.Serve` | handler.go:174-205 | after the closure runs, the writer's status and body are `Respond`'s, and the headers sent are the initial ones plus `Respond`'s Content-Type when it sets one |
| `Handler.DirectoryRequestServesIndex` | handler.go:177-181 | a path ending in `/` is looked up as prefix + path + "index.html", and a hit is served 200 as "text/html" |
| `Handler.FileRequestServesFile` | handler.go:175-182 | any other path is looked up as prefix + path, unchanged, and a hit is served 200 with `GetMimeType(Ext(path))` and the stored bytes verbatim |
| `Handler.ExtensionlessRequestIsPlainText` | handler.go:175-176 | a hit on a path whose final element has no `.`, such as "/about", is served as "text/plain" |
| `Handler.MissWithoutRouterIsNotFound` | handler.go:183-200 | a miss without client-side routing is a 404 with an empty body and no Content-Type |
| `Handler.MissWithRouterServesMain` | handler.go:184-196 | a miss with client-side routing serves prefix + MainPath, when present, as 200 "text/html" |
| `Handler.MissWithRouterWithoutMainIsNotFound` | handler.go:184-191 | a miss with client-side routing and no main document is a 404 with an empty body |
| `Handler.RouterWithMainNeverNotFound` | handler.go:183-197 | with client-side routing on and the main document present, every request gets status 200 |
| `Handler.ExactlyOneOutcome` | handler.go:181-204 | a request is served directly exactly when its key is present. It falls back exactly when its key is missing, routing is on and the main document is present. It is not found in every other case |
| `Handler.ConfigIgnoredOnHit` | handler.go:182-183 | a stored file is served the same whatever the `Config`: the configuration is read only on a miss |
| `Handler.MainPathIgnoredWithoutRouter` | handler.go:184-186 | with client-side routing off, `MainPath` never changes a response |
| `Handler.DirectoryRequestAliasesIndex` | handler.go:175-181 | a request for "dir/" and a request for "dir/index.html" get the same response |
| `Handler.OnlyFirstEntryDecidesPrefix` | handler.go:167-169 | top-level entries after the first never change a response |
| `Handler.SingleIndexBundleLayout` | handler.go:162-171 | a bundle whose only top-level entry is "root" has the root prefix "root" |
| `Handler.RootRequestScenario` | handler.go:177-181 | from a bundle holding "root/index.html", a request for "/" serves that page as "text/html" |
| `Handler.DeepRouteScenario` | handler.go:183-200 | "/deep/route" missing from that bundle falls back to the page as "text/html" with routing on, and is an empty 404 with routing off |

## Left out

- The `net/http` plumbing is left out: the server, the request object, and the
  headers the server adds itself (Date, Content-Length). Content sniffing is left
  out too; it cannot arise here, because every 200 sets a Content-Type and every
  404 writes no bytes. Header keys are not canonicalised, since the handler only
  sets "Content-Type", which is already canonical.
- Concurrent requests are not modelled. The filesystem and the configuration are
  read-only values shared by every request.
- The internals of `embed.FS` are left out: how it orders entries, its path
  validity rules and its error types. The listing is an input that may fail, and
  `ReadFile` is a lookup that hits or misses.
- A Go string is a byte string. Here a request path is a string of characters, one
  per byte. The bodies are sequences of bytes.
- `fmt.Sprintf("%s%s", …)` and `fmt.Sprintf("%sindex.html", …)` are modelled as
  plain concatenation.
- A nil `*Config` is not modelled: `Config` here is always a value. In Go,
  `ConnectFS` with a nil configuration serves every hit normally, but on a miss
  the closure panics at handler.go:184 before writing anything, and `net/http`
  recovers and drops the connection; the model instead answers such a miss with
  a 404 or the fallback.
- Http.ResponseWriter.WriteHeader: informational 1xx statuses (sent as interim
  headers, after which a later status still counts) and the body-less statuses
  204 and 304 (on which `Write` fails) are not modelled. Its precondition
  admits only final statuses that allow a body, because the handler writes only
  200 and 404.
