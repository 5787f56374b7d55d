# Request lifecycle and logger of an HTTP application runtime, in Dafny

This project models two parts of a small Node.js HTTP application framework.

**The request lifecycle** (`src/application.js`) is modelled in `compose.dfy` (module `Compose`) and `application.dfy` (module `App`).
- The middleware composer hands each request one shared `next` continuation. Each call of `next` reads the next position of a copy of the stack. A falsy entry, or the end of the stack, throws Not-Found ("Endpoint does not exist"). A truthy non-function entry throws Internal Server Error ("Bad handler"). A function is invoked (in the source with the request context as receiver and the same `next` as argument; the model records only which middleware was invoked).
- The `Composer` class holds that continuation's cursor, plus a ghost history of the steps taken, which is tied to the specification function `Trace`. `Composer.Run` runs a whole chain whose middlewares respond, delegate to `next` or throw. It is proved against the specification function `Chain`.
- The `Application` class holds:
  - the `closing` flag;
  - the set of sockets, each with its `idle` flag and a count of the `end()` calls made on it;
  - the set of in-flight requests, each with its `cancelled` flag.
- Each server event is one method: connection, socket close, request, response finish. So are `stop` and `dispatch`. `dispatch` is split into its registration step and its `finally` step, so other events can be placed between the two.
- The ghost predicate `Drained` states that once closing, no registered socket is idle and left open. `Stop` establishes it, and every event method preserves it (a new connection only while not closing).

**The logger** (`lib/util/logger.js`) is modelled in `js_value.dfy` (module `JsValue`) and `logger.dfy` (module `Logger`).
- `JsValue` models JavaScript values and plain objects. An object's properties are stored in creation order, and `OwnKeys` gives the order JavaScript enumerates them in: array-index keys ("0", "1", …) first in ascending numeric order, then the other keys in creation order. It also models `Object.assign`, `String(v)`, truthiness, `typeof` "object", and `toUpperCase`.
- `Logger` models:
  - the entry that `write` builds and then merges the context over;
  - the JSON formatter and the pretty formatter, with its style table and HTTP segment;
  - a `Logger` class whose `Write` and six convenience methods each append at most one line to a `Console`.
- The clock, `JSON.stringify`, `String(date)` and `toLocaleString` are inputs: the `now` parameter and the `Host` record of functions.

`wrappers.dfy` holds the `Option` type used for omitted arguments.

## Model

| member | source | states |
|---|---|---|
| Compose.StepAt | src/application.js:215-228 | one call of `next`: a falsy entry or the end of the stack throws Not-Found, a truthy non-function throws "Bad handler", and a function is invoked |
| Compose.Trace | src/application.js:213-216 | the steps of n successive calls of `next` sharing one iterator, the first finding the cursor at k |
| Compose.TraceAt | src/application.js:213-228 | the i-th of n successive calls of `next` from cursor k reads stack position k+i, so each call consumes exactly one position |
| Compose.TraceSnoc | src/application.js:215-216 | one more call of `next` extends the steps taken by the step at the following position |
| Compose.ExhaustedStaysNotFound | src/application.js:216-221 | once the cursor is past the end, every further call throws Not-Found, however many calls follow |
| Compose.FalsyConsumesPosition | src/application.js:216-221 | a falsy entry mid-stack throws Not-Found (not Internal), and the next call still reaches and invokes the following entry |
| Compose.BadHandlerOnlyWhenReached | src/application.js:219-225 | a truthy non-function entry throws "Bad handler" only when the cursor reaches it; every function before it is invoked first, in stack order |
| Compose.Chain | src/application.js:212-229 | the middlewares a chain invokes are the stack's function entries from the cursor on, consecutive and in stack order |
| Compose.Calls | src/application.js:215-228 | how often a chain called `next`: once per middleware invoked, and once more when the composer itself threw |
| Compose.DelegatingChain | src/application.js:215-228 | a chain whose middlewares all delegate invokes every function up to the first position holding none, in order and none after it, and fails there with Not-Found (falsy entry or end of stack) or "Bad handler" (truthy non-function) |
| Compose.SettledByLast | src/application.js:215-228 | a chain resolves exactly when the last middleware it invoked responded, and fails with a middleware's own error exactly when the last one invoked threw it; every earlier one delegated |
| Compose.Composer.constructor | src/application.js:212-213 | `next` starts at the first position of the stack it was given, with no step taken; the context is kept, but no step of the model reads it |
| Compose.Composer.Next | src/application.js:215-228 | one call reads the entry at the cursor, advances the shared cursor by exactly one, and returns what that entry dictates; the history grows by that step |
| Compose.Composer.Run | src/application.js:215-228 | awaiting `next()` settles as `Chain` says, and `next` was called once per middleware invoked, plus once if the composer threw |
| App.DefaultStack | src/application.js:80-85 | the stack every application is built with: log, write, rescue and route, each a middleware function, in that order |
| App.DefaultStackOrder | src/application.js:80-85 | through the default stack, a request whose route responds passes log, write, rescue, route in that order and resolves; provided rescue passes errors on, one whose route delegates ends in Not-Found after all four |
| App.Application.constructor | src/application.js:41-88 | a new application listens on 3000 when the options have no `port`, on an unspecified port when `port` is present but `undefined`, and on the given number otherwise; it has the stack log, write, rescue, route, is not closing, and has no sockets or requests |
| App.Application.Drained | src/application.js:128-177 | once closing, no registered socket is both idle and never ended |
| App.Application.OnConnection | src/application.js:109-117 | an accepted socket is marked idle and added to the socket set; nothing else changes, and `Drained` is kept while not closing |
| App.Application.OnSocketClose | src/application.js:112-114 | a socket's close event removes it from the socket set and changes nothing else |
| App.Application.OnRequest | src/application.js:119-126 | a request marks its socket busy; when closing, the response's `Connection` header becomes "close", and otherwise the headers are untouched |
| App.Application.OnFinish | src/application.js:128-135 | a finished response makes its socket idle again and ends it exactly when closing |
| App.Application.Stop | src/application.js:154-180 | `closing` becomes true; every request in the set is cancelled; exactly the idle sockets are ended, once each; busy sockets are untouched; neither set changes; `Drained` holds afterwards |
| App.Application.BeginDispatch | src/application.js:182-189 | dispatch builds a fresh context and a fresh `next`, both holding the per-request copy of the application's stack (in the model, two equal values), and registers the request before the chain runs |
| App.Application.EndDispatch | src/application.js:191-193 | the `finally` step removes the request from the request set and changes nothing else |
| App.Application.Dispatch | src/application.js:182-199 | the chain settles as `Chain` says, and the request set ends as it was (minus this request) whether the chain resolved or rejected |
| App.GracefulStop | src/application.js:128-177 | with one idle and one busy socket, `stop` ends the idle socket at once and the busy one only when its response finishes; the in-flight request is cancelled; the request set ends empty once its dispatch settles |
| App.RequestWhileClosing | src/application.js:119-126 | a request that starts after `stop` marks its socket busy and gets `Connection: close` in place of the header it had |
| JsValue.Truthy | lib/util/logger.js:91-93 | JavaScript truthiness: `undefined`, `null`, `false`, 0 and "" are falsy, everything else is truthy |
| JsValue.ToString | lib/util/logger.js:88-96 | the text a template literal inserts for a value: "undefined", "null", "true"/"false", a number's decimal form, a string itself, a date's text, "[object Object]" |
| JsValue.Decimal | lib/util/logger.js:93 | `String(n)` of an integer: a minus sign for negative n, then the digits of its absolute value |
| JsValue.NatDigits | lib/util/logger.js:93 | the decimal digits of a number are digits only, at least one, with no leading zero |
| JsValue.NatDigitsRoundTrip | lib/util/logger.js:93 | reading back the digits `String(n)` produces gives n |
| JsValue.DecimalShape | lib/util/logger.js:93 | `String(n)` starts with a minus sign exactly when n is negative, and its digits denote the absolute value of n |
| JsValue.ToUpper | lib/util/logger.js:93 | upper-casing keeps the length, turns each lower-case letter into its upper-case letter, and keeps every other character |
| JsValue.Get | lib/util/logger.js:91-96 | reading a property: its value, or `undefined` when the object has no such key |
| JsValue.Put | lib/util/logger.js:28 | writing a property: an existing key keeps its place, a new one is created last |
| JsValue.Assign | lib/util/logger.js:28 | `Object.assign(target, source)` writes the source's properties onto the target one by one, in the source's creation order (the values and the enumeration order that result are those of JavaScript, which copies in enumeration order) |
| JsValue.GetPut | lib/util/logger.js:28 | after setting a property, that key reads as the new value and every other key reads as before |
| JsValue.KeysPut | lib/util/logger.js:28 | in creation order, setting an existing property keeps the keys as they were; setting a new one appends its key |
| JsValue.GetAssign | lib/util/logger.js:28 | after `Object.assign(target, source)`, a key of the source reads as in the source (the source wins a collision), and every other key reads as in the target |
| JsValue.KeysAssign | lib/util/logger.js:28 | in creation order, `Object.assign` keeps the target's keys in place and in front, has exactly the keys of both objects, and keeps the keys unique |
| JsValue.ArrayIndexOfNumber | lib/util/logger.js:28 | the decimal text of a natural number is an array-index key exactly when the number is below 2^32 - 1 |
| JsValue.OwnKeys | lib/util/logger.js:28 | the order JavaScript enumerates an object's keys in: array indices in ascending numeric order, then the other keys in creation order |
| JsValue.OwnKeysPermutes | lib/util/logger.js:28 | enumeration lists exactly the object's keys, each as often as it has it |
| JsValue.OwnKeysShape | lib/util/logger.js:28 | enumeration starts with the object's array indices, ascending, and continues with the other keys in creation order |
| JsValue.OwnKeysPut | lib/util/logger.js:28 | in enumeration order, writing an existing key changes nothing, a new array index joins the array indices in numeric order ahead of all other keys, and any other new key comes last |
| Logger.Style | lib/util/logger.js:77-96 | the style table opening a pretty line: DEBUG black bold, INFO reset, NOTICE green bold, WARNING yellow bold, ERROR, CRITICAL, ALERT and EMERGENCY red bold; any other severity that is not an inherited property name shows as "undefined" |
| Logger.MessageText | lib/util/logger.js:24 | the entry's message: JSON for a value whose `typeof` is "object" (including `null`; `JsValue.IsObjectType`), `String(message)` for any other |
| Logger.NewEntry | lib/util/logger.js:22-26 | the entry `write` creates: `time` the current clock value, `message` the message text, `severity`, in that order |
| Logger.LogEntry | lib/util/logger.js:21-28 | the entry handed to the formatter: the new entry with the context (an empty object when omitted) assigned over it |
| Logger.HttpContext | lib/util/logger.js:31-53 | the context every convenience method passes: one property `httpRequest` |
| Logger.ShownIp | lib/util/logger.js:93 | the address shown: the remote address as text when truthy, "unknown" for every falsy value |
| Logger.HttpTail | lib/util/logger.js:93 | the part after the method: url, status and response size as text, separated by spaces, then " - " |
| Logger.HttpSegment | lib/util/logger.js:90-94 | the HTTP part of a pretty line: empty without a truthy descriptor; a TypeError when the descriptor's `requestMethod` is not a string; otherwise address, method upper-cased, url, status, size |
| Logger.PrettyLine | lib/util/logger.js:57-97 | the pretty formatter: a TypeError for a nullish time; otherwise `[time] `, the severity's style, the HTTP segment, the message and the reset sequence |
| Logger.Format | lib/util/logger.js:55-57 | formatting an entry with the JSON formatter (serialise the entry), the pretty formatter, or a caller-supplied function |
| Logger.EntryFields | lib/util/logger.js:21-28 | a written entry holds the time `now`, the message text and the severity, unless the context has those keys, in which case the context's values win; other context keys are carried over |
| Logger.EntryKeys | lib/util/logger.js:22-28 | in creation order an entry's keys begin with time, message, severity, are unique, and are exactly those three plus the context's keys |
| Logger.EntryOwnKeys | lib/util/logger.js:22-28 | in enumeration order (as `JSON.stringify` writes it) an entry lists the context's array-index keys first, ascending, then time, message, severity; it starts with time exactly when the context has no array-index key |
| Logger.MessagePassesStrings | lib/util/logger.js:24 | a string message passes through unchanged; a number is written as its decimal form; `undefined` is written as "undefined" |
| Logger.ConvenienceEntry | lib/util/logger.js:31-53 | the entry of a convenience method carries its fixed severity, the message text, the time and the request descriptor, with exactly the keys time, message, severity, httpRequest, created and enumerated in that order |
| Logger.NoHttpSegment | lib/util/logger.js:88-96 | without a truthy request descriptor, the pretty line is `[time] ` + style + message + reset, with an empty HTTP segment |
| Logger.HttpSegmentShape | lib/util/logger.js:90-94 | with a descriptor whose method is a string, the segment is the address as text (or "unknown" for every falsy address), " - ", the method upper-cased, url, status and size as text separated by spaces, and " - " |
| Logger.HttpSegmentNeedsMethod | lib/util/logger.js:88-93 | for every entry with a non-nullish time, a truthy request descriptor whose `requestMethod` is not a string makes the pretty formatter throw a TypeError |
| Logger.PrettyEndsWithReset | lib/util/logger.js:96 | every pretty line ends with the reset escape sequence |
| Logger.SevereIsRedBold | lib/util/logger.js:77-86 | a severity is styled bold red if and only if it is ERROR, CRITICAL, ALERT or EMERGENCY |
| Logger.ErrorBoom | lib/util/logger.js:47-49 | for `error("boom")`, the pretty line is the time, bold red, "boom", reset; the JSON line serialises an entry whose message is "boom", whose severity is "ERROR" and whose time is `now` |
| Logger.Console.Log | lib/util/logger.js:28 | each `console.log` appends exactly one line to the sink |
| Logger.Logger.constructor | lib/util/logger.js:14-19 | a logger writes to the console it was given, with JSON when no formatter is given and the given formatter otherwise |
| Logger.Logger.Write | lib/util/logger.js:21-29 | `write` appends exactly one line to the console, the formatter applied to the entry merged with the context; if the formatter throws, nothing is appended |
| Logger.Logger.Debug | lib/util/logger.js:31-33 | writes with severity DEBUG and context `{httpRequest}` |
| Logger.Logger.Info | lib/util/logger.js:35-37 | writes with severity INFO and context `{httpRequest}` |
| Logger.Logger.Notice | lib/util/logger.js:39-41 | writes with severity NOTICE and context `{httpRequest}` |
| Logger.Logger.Warning | lib/util/logger.js:43-45 | writes with severity WARNING and context `{httpRequest}` |
| Logger.Logger.Error | lib/util/logger.js:47-49 | writes with severity ERROR and context `{httpRequest}` |
| Logger.Logger.Critical | lib/util/logger.js:51-53 | writes with severity CRITICAL and context `{httpRequest}` |

## Left out

- Node's HTTP server is not modelled: binding and listening, `server.close()`, `server.timeout`, and what `socket.end()` does on the network. Ending a socket is recorded as a count of `end()` calls.
- `start` itself is not modelled (src/application.js:90-152): its signal handlers, the uncaught-exception handler, and `process.exit`. Neither is the deferred `Application.start`. These are process plumbing. The event handlers `start` installs are modelled as methods.
- The `started` and `stopped` promises are not modelled. Neither is the order of the `listening` and `close` events. These are event-loop semantics.
- Log lines are not modelled where the application emits them: the start/stop notices and the debug lines in the finish handler and in `stop` (src/application.js:132, 147, 157, 161, 174). The logger itself is modelled separately.
- The constructor's `NODE_ENV` handling and its default router and logger are not modelled (src/application.js:65-77). Of the options object, only `port` is modelled, as absent, present but `undefined`, or a natural number; a port of another type is not.
- App.Application.Dispatch: it returns the chain's settlement; it does not re-throw a rejection on the next tick as the source does (src/application.js:196-198). That is asynchronous scheduling.
- App.Application.BeginDispatch: in the source the context and `next` share one array, so a middleware that appends to or changes `this.stack` changes what later calls of `next` read, and can extend the chain. The model gives `Context.stack` and `Composer.stack` each an immutable value, equal at creation; a middleware changing the stack is not modelled.
- App.Application.Dispatch: the chain runs without other events between its steps. Interleavings, such as `stop` while a middleware awaits, are modelled by calling `BeginDispatch`, then other event methods, then `EndDispatch`.
- Compose.Composer.Run: only middlewares that respond, call `next` once and pass on its outcome, or throw are modelled. Middlewares that call `next` several times, or that catch a downstream error (as the rescue middleware does), are not. `Composer.Next` itself allows any number of calls.
- Compose.Composer.Next: the cursor keeps advancing past the end. A JavaScript array iterator stays done instead. Both yield `undefined`, so every call past the end behaves the same.
- The router, the concrete middlewares and the error classes are not modelled, and `App.Context` only keeps its constructor's four arguments. Their sources are not part of this model. Middlewares are opaque `Handler` identities.
- `inspect()` is not modelled. It has no bearing on the lifecycle.
- App.Application.OnRequest: header names are matched exactly. Node matches them case-insensitively. Setting a header after the headers were sent is not modelled.
- JsValue.ToUpper: it upper-cases ASCII letters only. JavaScript's `toUpperCase` covers all of Unicode.
- `JSON.stringify`, `String(date)` and `toLocaleString` are parameters (`Host`), because they are locale-dependent or foreign. So is the clock (`now`). That `JSON.stringify` writes an object's properties in the order `OwnKeys` gives is stated, not enforced on the parameter.
- Numbers are integers. NaN, fractions, arrays, functions and symbols are not modelled.
- NatDigitsRoundTrip: it describes `String(n)` only for integers below 10^21 in absolute value. From 10^21 on, JavaScript writes exponent form (`String(1e21)` is "1e+21"), and above 2^53 not every integer is a JavaScript number at all; the model's unbounded integers keep writing all digits.
- DecimalShape: the same bound applies; for |n| of 10^21 or more JavaScript's text is in exponent form, not the digits of |n|.
- App.DefaultStackOrder: its Not-Found half assumes a rescue middleware that passes errors on. The real rescue catches the error thrown further down the chain and answers it (a Not-Found becomes a 404 response); catching is not modelled (see `Composer.Run`).
- A custom formatter that throws is not modelled. Neither is an object whose own `toUpperCase` is a function.
- Logger.Style: a severity naming an inherited property of the style table, such as "constructor", shows as "undefined" in the model; in JavaScript it reads the inherited value (`styles["constructor"]` is `Object`).
- src/decorate/index.ts, src/decorate/index.js and src/task.js are not part of this model. They are thin wrappers over code not shown here.
- The source-map comment at the end of lib/util/logger.js is not part of this model.

## Notes on the source

- `dispatch` copies the whole stack once per request and hands that one array to both the context and `next` (src/application.js:183-185); the shared cursor lives only in `next`'s iterator.
- The logger's context type names only `httpRequest`, yet `write` merges any object; a context key that is an array index ("1") is enumerated before `time` (see `EntryOwnKeys`).
- `stop` cancels the requests, then closes the listener, then ends the idle sockets. Only the first and last steps are modelled.
