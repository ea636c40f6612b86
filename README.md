# Find Element in Code bridge — a Dafny model

The extension runs a small local HTTP server on port 12800. A browser tool POSTs
a regular expression to it. The extension then looks through the workspace's
`.tsx`, `.jsx` and `.html` files, outside `node_modules`, and replies with the
first place the pattern matches, as `path:line:column`, or with `notFound`. A
status-bar item shows whether the server is running, stopped or errored.
Clicking the item toggles the server.

The model covers two parts of `src/extension.ts`:

- **Search** (`search.dfy`, with `text.dfy`). The handler's nested scan is the
  method `FindFirstMatch`. It takes the candidate files in enumeration order.
  Each file is read, and a failed read counts as `""`. The text is split on
  `"\n"` and each line is tried with the pattern. The scan leaves both loops at
  the first line that matches. The method is proved equal to the recursive
  definition `FirstHit`. Lemmas about `FirstHit` show that the reported location
  is the first hit in file order and then line order. They also show that
  `notFound` is reported exactly when no line matches, and that the reply's
  `path:line:column` text reads back as the location.
- **Lifecycle** (`lifecycle.dfy`, with `status_bar.dfy`). The class
  `Controller` holds the module-level `server` handle (`bound`) and the status
  bar's status. It has `startServer`, `stopServer`, the toggle command and the
  POST handler's no-workspace branch. Each method is proved equal to a step
  function on `ServerState`. Lemmas about the step functions prove these facts:
  stop is idempotent; start then toggle comes back to stopped; no sequence of
  events can show "running" without a server handle.

The regular expression is a parameter `m: string -> Option<nat>`. It gives the
index where `regex.exec(line)` finds its first match, or `None`. The pattern is
built without flags, so each call depends only on the line. Where a property
needs it, the predicate `Bounded(m)` requires that a match never starts past
the end of its line. The asynchronous outcome of `app.listen` is an input
`ListenOutcome`. The workspace's file list and each file's read result are
inputs as well.

Some facts about the code that the model keeps:

- The request body is raw text and is used directly as the pattern.
- The file filter `**/*.{tsx,jsx,html}`, excluding `node_modules`, is fixed.
- The extension persists nothing.
- `startServer` has no guard on the current state.

## Model

| member | source | states |
|---|---|---|
| `Search.ReadFileContent` | src/extension.ts:47-60 | a readable file yields its text; a failed read yields the empty string |
| `Text.Split` | src/extension.ts:110 | `split("\n")` gives at least one line, and no line contains a newline |
| `Text.JoinSplit` | src/extension.ts:110 | joining the split lines with `"\n"` gives back the file content exactly |
| `Text.SplitJoin` | src/extension.ts:110 | splitting newline-free lines joined with `"\n"` gives back those lines, so `Split` is a bijection onto non-empty sequences of newline-free lines |
| `Search.Lines` | src/extension.ts:109-110 | the lines a file contributes are at least one, none holds a newline, and joined with `"\n"` they are the file's content (`""` for a failed read) |
| `Search.FirstMatchFrom` | src/extension.ts:112-120 | the line it returns matches at the returned index, every earlier line has no match, and `None` means that no line from the start index on matches |
| `Search.FirstHitFrom` | src/extension.ts:108-125 | a reported line and column are both at least 1 (`i + 1`, `match.index + 1`) |
| `Search.FirstHit` | src/extension.ts:101-134 | the scan's result: a found line and column are at least 1, and nothing is found exactly when no file has a matching line |
| `Search.FindFirstMatch` | src/extension.ts:101-126 | the nested loop with its two `break`s returns exactly `FirstHit(files, m)` |
| `Search.FirstLineHitUnique` | src/extension.ts:112-120 | a file's first matching line and match index are the ones the line scan returns |
| `Search.FirstMatchNoneIff` | src/extension.ts:112-120 | the line scan finds nothing exactly when no line of the file matches |
| `Search.FirstHitFromNotFound` | src/extension.ts:108-125 | scanning `files[f..]` reports nothing exactly when none of those files has a matching line |
| `Search.FirstHitFromFound` | src/extension.ts:108-125 | a location reported from `files[f..]` is in some file `files[fi]` whose predecessors from `f` do not match; the line is that file's first matching line, and the column is where its match starts |
| `Search.FoundIsFirstHit` | src/extension.ts:108-125 | a reported location has line and column at least 1; its path belongs to a file none of whose predecessors matches; its line is that file's first matching line; its column is one past the match index |
| `Search.NotFoundIffNoMatch` | src/extension.ts:127-134 | the result is `notFound` if and only if no line of any file matches |
| `Search.FirstHitIsReported` | src/extension.ts:108-125 | conversely, the first hit in file order and then line order is reported, with 1-based line and column |
| `Search.ColumnWithinLine` | src/extension.ts:112-117 | with a bounded matcher, the reported line exists in the file, and the column is at most the line's length plus one |
| `Search.UnreadableFile` | src/extension.ts:47-60 | an unreadable file is the single line `""`; it matches exactly when the pattern matches the empty string, and then it matches at line 1, column 1 |
| `Search.UnreadableFileReportedAtStart` | src/extension.ts:47-60 | an unreadable file reached by the scan, when the pattern matches `""`, is reported at `path:1:1` |
| `Text.Decimal` | src/extension.ts:130 | a number in a template literal is a non-empty run of digits with no superfluous leading zero |
| `Text.ParseDecimalOfDecimal` | src/extension.ts:130 | reading back the digits of a rendered line or column number gives the number |
| `Text.DecimalOfParseDecimal` | src/extension.ts:130 | every canonical numeral is the rendering of its value |
| `Search.LastColonBeforeNumeral` | src/extension.ts:130 | in `text:digits` the last colon is the one before the digits |
| `Search.LocationText` | src/extension.ts:130 | the `${path}:${line}:${column}` text reads back as the location it was written from |
| `Search.ParseLocationText` | src/extension.ts:130 | the template's text reads back as the path, line and column it was written from, even when the path contains colons |
| `Search.LocationTextOfParse` | src/extension.ts:130 | conversely, every text a client accepts as a location is exactly the template's text for that location |
| `Search.Respond` | src/extension.ts:127-134 | the status is `success` exactly for a found result, and then the path text reads back as the location; otherwise the status is `notFound` and there is no path |
| `StatusBar.Present` | src/extension.ts:23-42 | the error background is set exactly for the error status; the running tooltip is the fixed prefix followed by the port |
| `StatusBar.PortTextIsDecimal` | src/extension.ts:26 | the port in the running tooltip is the decimal rendering of 12800 |
| `StatusBar.PresentDistinguishes` | src/extension.ts:23-42 | two statuses have the same text, or the same tooltip, only when they are the same status |
| `Lifecycle.StartStep` | src/extension.ts:140-177 | a start resolves only on a successful listen, and then the server is set and the status is running. Any rejection sets the status to error. With no workspace, the handle is unchanged. `EADDRINUSE` and other listen errors clear the handle |
| `Lifecycle.StopStep` | src/extension.ts:179-192 | after a stop there is no server and the status is stopped, whatever the state before |
| `Lifecycle.ToggleStep` | src/extension.ts:204-217 | with a server set, toggle stops it; otherwise it starts, and the server is set and running exactly when the listen succeeds, with error status otherwise |
| `Lifecycle.RequestStep` | src/extension.ts:87-93 | the POST handler never changes the server handle; with no workspace it sets the status to error, and otherwise it changes nothing |
| `Lifecycle.StopIdempotent` | src/extension.ts:179-192 | stopping twice equals stopping once, and every stop ends in the activation state |
| `Lifecycle.StartThenToggleStops` | src/extension.ts:204-217 | from a state without a server, a successful start or toggle followed by a toggle returns to stopped |
| `Lifecycle.Next` | src/extension.ts:200-245 | each registered command (start, stop, toggle) and each POST request keeps "status running implies server set", and a stop command always ends in the activation state |
| `Lifecycle.RunKeepsInvariant` | src/extension.ts:140-217 | any sequence of commands and requests keeps that invariant |
| `Lifecycle.ReachableStatesKeepInvariant` | src/extension.ts:194-217 | every state reachable from activation satisfies the invariant |
| `Lifecycle.RunEndingInStop` | src/extension.ts:179-192 | whatever happened before, a final stop leaves the activation state |
| `Lifecycle.Controller.constructor` | src/extension.ts:194-197 | activation starts with no server and a stopped status |
| `Lifecycle.Controller.StartServer` | src/extension.ts:140-177 | the new handle, the new status and the settlement are those of `StartStep` |
| `Lifecycle.Controller.StopServer` | src/extension.ts:179-192 | the new state is that of `StopStep` |
| `Lifecycle.Controller.Toggle` | src/extension.ts:204-217 | the new state is that of `ToggleStep`; it dispatches on whether `server` is set |
| `Lifecycle.Controller.HandlePost` | src/extension.ts:83-135 | with no workspace: the status becomes error, the handle is kept, and no reply is sent. Otherwise the state is unchanged and the reply is `Respond(FirstHit(files, m))` |

## Left out

- The HTTP server is not modelled: Express, the CORS middleware, the `OPTIONS` reply, `express.text` body parsing and writing the JSON response. This is network I/O. `Respond` stands for the JSON body.
- JavaScript `RegExp` is not modelled: compiling the request body, its matching semantics, and the exception an invalid pattern throws. The pattern is the parameter `m`.
- Workspace file enumeration (`findFiles` with `**/*.{tsx,jsx,html}`, excluding `node_modules`), file reading and UTF-8 decoding are host I/O. The model takes the file list and each read's outcome as inputs.
- Strings are sequences of `char`. UTF-16 code units, surrogate pairs and the decoder's replacement characters are not distinguished. A `\r` before `\n` stays in its line, as in the source.
- The status-bar widget's creation and `show()`, warning and error dialogs, console logging, and command registration are not modelled. Neither is disposal in `deactivate`. These are UI and host hooks. `deactivate` stops the server, which is `StopServer`.
- Promise and callback timing is not modelled. Each lifecycle call is one atomic step with a given outcome, so a toggle arriving while a start is still pending is out of scope. So is a later `error` event on a running server.
- The OS socket is not tracked apart from the `server` handle. The source can start while a server is already set, and a failed listen then clears the handle even though the old server still listens. The model records the cleared handle only.
- `Lifecycle.RequestStep` models only the handler's no-workspace effect on the status. The request that gets no reply is `HandlePost` returning `None`.
