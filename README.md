# igdl download handler, modelled in Dafny

This project models the `/api/download` handler of igdl, a small Express
service. Given an Instagram post URL in the `url` query parameter, the
handler finds the post's shortcode and fetches the upstream
`shortcode_media` record. It then returns a normalised post: id, shortcode,
caption, author, counters, timestamp, a carousel flag and a list of media
entries.

The model works on JavaScript values as the handler sees them (`Js.Value`:
undefined, null, booleans, numbers, strings, arrays, objects). It spells out
the JavaScript rules the handler relies on:

- truthiness and `||`;
- `a.b`, which throws a TypeError on undefined or null;
- `a?.b`, which does not throw;
- `x[0]`;
- `JSON.stringify` leaving out undefined-valued properties.

Every TypeError that the handler's own property reads can raise on a
malformed upstream record is therefore an explicit error path. The date
conversion is a parameter whose failure carries the exception it throws. The
handler's catch block turns each of these into a 500.

Files, one module each:

- `wrappers.dfy`: `Option` and `Result`.
- `js.dfy`: module `Js`, the JavaScript values and operations listed above.
- `shortcode.dfy`: module `Shortcode`.
  - The regular expression `/\/p\/([^\/?]+)/` becomes an explicit scan (`FindMarker`, `RunEnd`).
  - The scan is specified by `IsCapture`: the leftmost "/p/" followed by a shortcode character, then the longest run of characters other than `/` and `?`.
  - `String.replace` builds the API URL from its template.
- `media_item.dfy`: module `MediaItems`, `parseMediaItem` and the JSON written for one media entry.
- `download.dfy`: module `Download`.
  - Request validation (`Route`).
  - The result object literal (`Header`).
  - The carousel loop (`ParseEdges` as its specification, `BuildResult` as the imperative loop that pushes onto `media`).
  - The whole handler (`Handle`).
  - The response body (`PostJson`).
- `scenarios.dfy`: module `Scenarios`, concrete URLs and records.

Some consequences of the code that a reader might not expect:

- A carousel whose `edges` array is empty yields `media == []`. Nothing in the handler keeps the list non-empty (`Download.Normalize` allows it).
- `views` is `video_view_count || null`. It is not gated on `is_video`, and a view count of 0 becomes null (`Download.Header`).
- A video without sound has `audio: null`: the key is present, not omitted (`MediaItems.ParsedJsonKeys`).
- A present `edge_media_to_caption` whose `edges` is undefined or null, or a missing `owner`, throws a TypeError and so gives a 500 (`Download.Header`). An `edges` that is a string, number or boolean, or an object without a "0" key, gives the caption ""; an object whose "0" entry has a truthy `node.text` gives that text, since `edges[0]` reads the property "0" (`Download.CaptionText`, `Js.Index0`).

## Model

| member | source | states |
|---|---|---|
| `Shortcode.FindMarker` | index.js:20 | the scan returns the first position at or after `from` where "/p/" is followed by a shortcode character, or none when no such position exists |
| `Shortcode.RunEnd` | index.js:20 | the greedy `[^\/?]+` stops at the first `/`, `?` or the end, and everything it passed over is a shortcode character |
| `Shortcode.MatchShortcode` | index.js:20 | a match exists exactly when some "/p/" is followed by a shortcode character, and the span returned is the leftmost, longest capture (`IsCapture`) |
| `Shortcode.CaptureIsUnique` | index.js:20 | any span meeting the regular-expression specification is the one the scan returns, so the scan and the specification agree in both directions |
| `Shortcode.ExtractShortcode` | index.js:20-21 | a shortcode is found exactly when the URL has a qualifying "/p/"; it is non-empty, holds no `/` or `?`, and is the capture of the leftmost match |
| `Shortcode.ReplaceFirstAfter` | index.js:26 | `replace` with a string pattern substitutes the first occurrence: when nothing before an occurrence can start one, that occurrence is the one replaced |
| `Shortcode.ApiUrl` | index.js:26 | replacing `{shortcode}` in the API template gives `https://www.instagram.com/p/` + shortcode + `/?__a=1&__d=dis` |
| `Shortcode.NoEarlierMarker` | index.js:10 | step of the `ApiUrlRoundTrip` proof: the API template has no "/p" before the one that precedes the placeholder |
| `Shortcode.ApiUrlLayout` | index.js:10 | step of the `ApiUrlRoundTrip` proof: in the API URL the shortcode sits at positions 28 up to 28 + its length, followed by `/` |
| `Shortcode.ApiUrlNoEarlierMarker` | index.js:10 | step of the `ApiUrlRoundTrip` proof: no match can start in the API URL before its own "/p/" |
| `Shortcode.ApiUrlShortcodeAt` | index.js:10 | step of the `ApiUrlRoundTrip` proof: in the API URL a match starts at the "/p/", and every character of the shortcode is a shortcode character |
| `Shortcode.ApiUrlRoundTrip` | index.js:10 | extracting the shortcode from the API URL built for a valid shortcode gives that shortcode back |
| `MediaItems.ParseMediaItem` | index.js:79-99 | fails exactly on an undefined or null node; the entry is a video exactly when `is_video` is truthy; the URL is `video_url` for a video and `display_url` otherwise; thumbnail and dimensions are copied; a video carries `video_duration`; its audio is present exactly when `has_audio` is truthy, and then repeats the entry's URL and duration |
| `MediaItems.ParsedJsonKeys` | index.js:81-96 | in the written entry, an image has no `video_duration` or `audio` key; a video always has `audio`, which is null exactly when `has_audio` is falsy; an undefined thumbnail or duration is omitted |
| `Download.Route` | index.js:14-26 | a falsy `url` is a 400 "required"; a string with no qualifying "/p/" is a 400 "invalid"; a non-string `url` throws; otherwise the one URL fetched is the API URL of the extracted shortcode |
| `Download.CaptionText` | index.js:40 | reading the caption throws exactly when the record is undefined/null or has a caption container whose `edges` is undefined or null |
| `Download.AuthorOf` | index.js:41-47 | the author's five fields are copied from `owner`, and reading them throws exactly when `owner` is undefined or null |
| `Download.Header` | index.js:37-56 | the object literal throws exactly when the shape is broken or the date conversion throws; a broken shape throws a TypeError, and otherwise the date conversion's own exception escapes; the timestamp is the converted date; id, shortcode, dimensions, `is_video` and the author are copied; the caption is the first caption text when truthy, else ""; likes and comments are the upstream count when truthy, else 0; views is `video_view_count` when truthy, else null; `is_carousel` holds exactly when `media_type` is 8; media starts empty |
| `Download.ParseEdge` | index.js:60-61 | destructuring `{ node }` and parsing it fails exactly when the edge or its node is undefined or null |
| `Download.ParseEdges` | index.js:60-63 | the loop fails exactly when some edge fails; otherwise it gives one entry per edge, and entry i is edge i's node parsed |
| `Download.CarouselMedia` | index.js:60 | the children can be walked exactly when the sidecar exists and its edges are an array of parseable edges; the list is then the parsed edges |
| `Download.Normalize` | index.js:37-66 | the result fails exactly when the object literal fails or a carousel's children cannot be walked, with the literal's exception in the first case and a TypeError in the second; all fields other than media come from the object literal; a carousel has as many entries as children, in the children's order; any other post has exactly one entry, parsed from the record itself |
| `Download.BuildResult` | index.js:55-66 | starting from `media: []` and pushing each parsed child in turn, or the single parsed record, gives exactly `Normalize`'s result, failure included |
| `Download.WrittenMedia` | index.js:59-68 | in the written body, a carousel's `media` has one entry per child, entry i being child i's node as `parseMediaItem` writes it, with no `video_duration` or `audio` key for an image child; any other post's `media` is the single entry written from the record |
| `Download.PostJsonKeys` | index.js:68 | a written post keeps caption, likes, comments and views whenever they are defined, and always writes author, timestamp, `is_carousel` and media (`BodyKeepsDefaults`) |
| `Download.BodyAlwaysHas` | index.js:40-68 | for every normalised post, `BodyKeepsDefaults` holds: the defaults make caption, likes, comments and views defined, so they are written |
| `Download.MediaData` | index.js:33-34 | reading `data.graphql.shortcode_media` throws exactly when the body or its `graphql` is undefined or null |
| `Download.Upstream` | index.js:33-66 | the fetched body fails exactly when `data.graphql.shortcode_media` or its normalisation throws; otherwise it is the normalised record |
| `Download.Handle` | index.js:12-77 | the answer is a 400 exactly for a falsy `url` or a string without a qualifying "/p/"; every routing answer is given before any fetch; a rejected fetch is a 500; a fetched body is a 200 with the normalised record exactly when normalisation succeeds, and otherwise a 500 carrying its exception |
| `Download.BadRequestWithoutFetch` | index.js:15-23 | when the handler answers 400, the answer is the same whatever the upstream would have returned |
| `Scenarios.ShortcodeOfPostUrl` | index.js:20 | `https://www.instagram.com/p/Cx9/?igsh=1` yields the shortcode `Cx9` |
| `Scenarios.ShortcodeSkipsEmptySegment` | index.js:20 | in `x/p//p/ab?c` the first "/p/" is followed by `/` and does not match; the shortcode is `ab` |
| `Scenarios.NotAPostIsInvalid` | index.js:20-23 | `https://instagram.com/notapost` gets a 400 "Invalid Instagram URL" |
| `Scenarios.MissingUrlIsRequired` | index.js:15-17 | a missing or empty `url` gets a 400 "required" |
| `Scenarios.SingleImagePost` | index.js:37-66 | a single image record without caption or counters, with a valid date, gives one image entry, caption "", likes 0, views null and no carousel |
| `Scenarios.ImageWithoutThumbnailJson` | index.js:86 | an image entry with an undefined thumbnail is written without a `thumbnail` key |

## Left out

- Express setup, CORS, `express.json`, `app.listen` and startup logging (index.js:1-7, 101-103): server plumbing.
- The axios GET and its User-Agent header (index.js:27-31). `Download.Handle` takes the fetch as a parameter `fetch: string -> Option<Value>`: the parsed body, or None when axios rejects (network error or non-2xx status). Axios leaving a non-JSON body as a string is covered, because a string body has no `graphql`.
- `new Date(s * 1000).toISOString()` (index.js:52). It is the parameter `isoInstant: Value -> Result<string, Exception>`, whose Failure is the exception the expression throws: a TypeError when `s * 1000` cannot convert an object to a primitive, or a RangeError for an invalid date. The date arithmetic, the conversion to a primitive and the formatting are not modelled.
- The 500 body's `details: error.message` and the `console.error` call (index.js:71-75). Only which exception occurred is kept, not its message.
- Shortcode.ApiUrl: does not model the `$`-patterns of `String.replace` (`$&`, `` $` ``, `$'`, `$$`). A shortcode containing them would be expanded by JavaScript; the model inserts the shortcode literally.
- Js.Get: models only the handler's own property names. These are plain own properties of parsed JSON, never `length`, an array index or a prototype member. Getters and `__proto__` keys are not modelled.
- Strings are sequences of Unicode scalar values. JavaScript's regular expression and `s[0]` work on UTF-16 code units, which differ only for characters outside the Basic Multilingual Plane.
- Numbers are exact reals. Double rounding is not modelled.
- Out-of-range number literals are not modelled. `JSON.parse` turns one such as `1e400` into Infinity, which counts as truthy and which `JSON.stringify` writes as `null`; for example, a like count of `1e400` is written as `"likes": null`. `BodyAlwaysHas` speaks of the model's values, which exclude this case.
- Property order in the written JSON: objects are maps. The Put chains follow the literal's order, but that order is not part of the model.
