# TurnItOffAndOnAgain: a Dafny model of the dispatch engine

TurnItOffAndOnAgain is a command relay. It receives directives such as
`{"up": "org/app"}` from a Redis list and from an HTTP endpoint. It looks the
repository up in a project registry loaded at startup. It then appends a work-order
(a "Poppit notification") to a target Redis list, where an external executor
picks it up.

This project models the core of `main.go` in Dafny and proves properties of it:

- `Config`: the `Project` record, the registry-building loop of `loadConfig`
  (a `method` with a `while` loop, last write wins), `getEnv`, and the settings
  `init` reads.
- `Directives`: the decoded message, and the fixed priority (up, then down,
  then restart) that picks the action and the repository.
- `Queues`: the list store as a class holding `map<string, seq<T>>`, with one
  `RPush` method that appends at the tail.
- `Dispatch`: `processMessage`. It has a pure part (`Plan`: parse, resolve,
  look up, choose commands, target queue and work-order fields), the
  resulting outcome (`Outcome`) and store effect (`Delivered`), and the
  imperative `ProcessMessage`, which makes the single `RPush`.
- `Consumer`: the consumer loop of `main`, modelled as draining a sequence of
  already-received messages in order. A failing message is reported and skipped.
- `Http`: `handlePostMessage`, as a pure status/body decision table
  (`Respond`) and an imperative handler that calls `ProcessMessage`.

Inputs that come from outside are parameters:

- JSON decoding is the datatype `Decoded` (a decoded `Message`, or `Malformed`
  with the decoder's error text).
- The environment is a `map<string, string>`.
- Whether Redis accepts a write is a parameter of each `RPush`: `None` when
  the store accepts it, the error text otherwise. The consumer takes one such
  answer per message, so a refused write can be followed by an accepted one.

Two details of the code, which the model keeps:

- A message with more than one field set is not rejected. The first non-empty
  field, in the order up, down, restart, wins (`Directives.Resolve`).
- The HTTP handler rejects a body with all three fields empty with 400 itself,
  before `processMessage` is reached.

## Model

| member | source | states |
|---|---|---|
| `Config.LoadConfig` | main.go:88-91 | the registry's keys are exactly the repositories of the list, and each maps to the last list entry naming it |
| `Config.BuiltLastWins` | main.go:88-91 | after the loop has stored the first n entries, an entry not overwritten by a later one among them is what its repository maps to |
| `Config.BuiltIsRegistry` | main.go:88-91 | the loop's fold over the whole list has exactly the list's repositories as keys, with last write winning |
| `Config.RegistryUnique` | main.go:88-91 | the last-write-wins rule determines the registry completely: two registries of one list are equal |
| `Config.DistinctReposAllPresent` | main.go:88-91 | without duplicate repositories every list entry is found under its own name |
| `Config.GetEnv` | main.go:69-74 | a set, non-empty variable gives its value; unset or empty gives the default; the result is empty only if the default is |
| `Config.Init` | main.go:59-67 | each of the six settings is its variable when set and non-empty, otherwise its built-in default |
| `Config.InitDefaults` | main.go:59-67 | with an empty environment every setting is its built-in default (`localhost:6379`, `""`, `service:commands`, `projects.json`, `poppit:notifications`, `8080`) |
| `Config.DefaultTargetQueueNonEmpty` | main.go:65 | the default target queue is never the empty name, whatever the environment |
| `Directives.Resolve` | main.go:247-258 | no directive iff all three fields are empty; up wins if non-empty, else down, else restart; the repository is that field's value |
| `Directives.ResolveIsFirstSet` | main.go:247-258 | the resolution equals the reference rule "first non-empty field in the order up, down, restart" |
| `Directives.SingleFieldResolves` | main.go:247-258 | a message with exactly one field set resolves to that field's action and repository |
| `Directives.TypeTagInjective` | main.go:285 | distinct actions give distinct `service-<action>` type tags |
| `Queues.Append` | main.go:295 | one element at the tail of one list; every other list is unchanged; the list is created if absent |
| `Queues.Store.RPush` | main.go:295-297 | when the store accepts the write, the new lists are the old ones plus one tail append; when it refuses, its error is returned and nothing changes |
| `Dispatch.ErrorText` | main.go:240-296 | each error's text is its fixed lead-in followed by the parse cause, the repository, or the queue and the store's error |
| `Dispatch.CommandsFor` | main.go:266-272 | the action named "up" selects the up commands, "down" the down commands, "restart" the restart commands |
| `Dispatch.Outcome` | main.go:237-301 | processMessage reports no error iff every check passes and the store accepts the write; otherwise the first failing check's error, or the push failure naming the target queue and the store's error |
| `Dispatch.TargetQueue` | main.go:277-280 | the project's override when non-empty, else the default queue |
| `Dispatch.Plan` | main.go:237-288 | parse failure, then missing field, then unknown repository are reported in that order; success iff the message parses, names a repository and that repository is configured; the work-order has that repository, branch `refs/heads/main`, type `service-<action>`, the project's dir, and exactly the action's command list |
| `Dispatch.Delivered` | main.go:295-300 | on any error the lists are unchanged; on success exactly one work-order is appended to the tail of exactly the target queue, and every other queue is unchanged |
| `Dispatch.ProcessMessage` | main.go:237-301 | returns the outcome of `Plan` and the write, and leaves the store as `Delivered` says; no write happens before every check has passed |
| `Dispatch.NotificationDependsOnInputsOnly` | main.go:282-288 | the work-order depends only on repository, action, dir and the chosen command list, not on the queue override, the default queue or the other command lists |
| `Dispatch.RestartWithoutCommands` | main.go:266-272 | a restart for a project configured without restart commands still succeeds, with an empty command list |
| `Consumer.Consume` | main.go:200-233 | processes every message in order; the i-th reported outcome is that message's own outcome under the store's answer to its write, so a failure, a refused write included, skips only that message; the store ends as the messages' writes performed in arrival order |
| `Consumer.PerformAppends` | main.go:295 | one message's write appends to a queue exactly the work-order it forwards there, and nothing to any other queue |
| `Consumer.DrainedAppendsForwarded` | main.go:200-233 | after a run of writes each queue holds its old contents followed by the work-orders written to it, in arrival order |
| `Consumer.ForwardedConcat` | main.go:227-232 | what a run of messages forwards is what its first part forwards followed by what its second part forwards |
| `Consumer.NothingForwardedDuringOutage` | main.go:295-297 | when the store refuses every write of a run, no message of it forwards anything |
| `Http.Respond` | main.go:98-135 | 405 iff the method is not POST; 400 iff POST and the body is malformed or all fields are empty; 500 iff accepted and dispatch failed; 200 iff accepted and dispatch succeeded; each with its body text |
| `Http.HandlePostMessage` | main.go:98-135 | replies as `Respond` says for the dispatch outcome, and writes to the store only for a request that reaches dispatch |
| `Http.ServerErrorCause` | main.go:110-128 | a 500 reply is caused only by an unknown repository or a failed write, never by parsing or a missing field |
| `Http.HttpAgreesWithQueuePath` | main.go:124-135 | a 200 reply means the store changed exactly as the queue path would change it; any other reply leaves the store unchanged |
| `Http.ScenarioUp` | main.go:98-135 | `{"up":"org/app"}` for a configured project answers 200 and leaves the expected single work-order on `poppit:notifications` |
| `Http.ScenarioUnknownRepository` | main.go:124-128 | `{"down":"org/missing"}` answers 500 with the "no configuration found" text and writes nothing |
| `Http.ScenarioEmptyMessage` | main.go:110-114 | `{}` answers 400 naming the missing field |

## Left out

- The Redis client is not modelled: `BLPop` with its 5-second timeout, `redis.Nil` handling, the 1-second backoff, `Ping` and `Close` (main.go:147-162, main.go:207-219). This is network I/O and timing. The store is an abstract map of lists, and the consumer drains a given sequence of received messages.
- The `len(result) < 2` check on the `BLPop` reply (main.go:221-224) is left out. It belongs to the Redis reply format, which is not modelled.
- Signal handling, goroutines, context cancellation and `httpServer.Shutdown` (main.go:174-197) are left out. They are concurrency and lifecycle with no sequential behaviour to state.
- JSON encoding and decoding are left out (main.go:83, main.go:105, main.go:239, main.go:290). Messages and notifications are records, and decoding is a `Decoded` value.
- The HTTP path's marshal-then-unmarshal round trip (main.go:117, main.go:124, main.go:239) is modelled as passing the decoded record straight to dispatch.
- The marshal errors of main.go:117-122 and main.go:290-293 are left out. Marshalling a record of strings and string lists cannot fail.
- The `null` vs `[]` rendering of an empty command list is left out. It is a detail of the JSON library.
- `os.ReadFile`, the config-file errors, `os.Getenv` itself and HTTP server setup and routing (main.go:59-67, main.go:76-86, main.go:166-179) are left out as I/O. `getEnv` and `init` are pure functions over an environment map.
- Logging throughout is left out.
- Dispatch.ProcessMessage: the error texts carry the decoder's or the store's message as a plain string, not Go's wrapped error values.
- Queues.Store.RPush: a refused write changes nothing. This matches an error reply from Redis; a connection lost after Redis applied the command (the work-order is stored, yet the caller sees an error) is not modelled.
- Http.Respond: the trailing newline that `http.Error` adds and the response headers are not modelled.
