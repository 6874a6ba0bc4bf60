# dptree: the endpoint combinator and the simple dispatcher, in Dafny

This project models two parts of the `dptree` (dispatch tree) handler-chain library.

- **The endpoint combinator** (`src/handler/endpoint.rs`, module `Endpoint`). `endpoint(f)` turns an injectable function into a handler. The handler takes `f`'s arguments from the dependency container by type, calls `f`, and always breaks the chain with the result. It never calls the continuation. Its run-time signature is `HandlerSignature::Other` with `f`'s input types and obligations and no output types. The container is a map from a type tag to a value, so it holds at most one value per type. Injection fails with `DependencyMissing` on the first parameter type the container lacks (the Rust code panics there). `Dispatch` runs a handler with the terminal continuation, which gives the container back as `Continue`.
- **The example dispatcher** (`examples/simple_dispatcher.rs`, module `SimpleDispatcher`). It covers the `Event` enum and `Event::parse`, and the `Parseable<SetValueEvent>` narrowing and recombination. It has three handlers:
  - a filter on `Ping` answering "Pong";
  - a parser to `SetValueEvent` that stores the value and answers "<v> stored";
  - a filter on `PrintValue` that reports the stored value.

  A node chains them in that order, and the first `Break` wins. The shared `Arc<AtomicI32>` is the class `Store`. The handlers that touch it are methods of the class `Dispatcher`. Each method is proved against a function of the stored value (`SetValueStep`, `PrintValueStep`, `RunNode`, `Turn`), and the lemmas are stated about those functions.
- **Decimal text** (module `Decimal`). `format!("{}", v)` and `str::parse::<i32>` are written out as decimal functions. `ParseI32` follows Rust's rules: an optional `+` or `-`, one or more ASCII digits, and a value inside the `i32` range. Empty text, a lone sign, any other character and an overflow are rejected.
- The two modules model two generations of the library's handler interface, so their handler shapes differ. The example is written against the older `Handler<Event, Res = String>` interface: a handler takes the event itself, and `handle(event)` returns a `Result`. The endpoint file uses the container-and-continuation interface. So `SimpleDispatcher.Step` is a function of the store and the event, and the example's `.end_point(...)` is not an instance of `Endpoint.MakeEndpoint`.
- **`Protocol`** holds `ControlFlow` (`Break`/`Continue`), `Option` and `Result`. Both modules above use them.

The usage comment at `examples/simple_dispatcher.rs:10-15` types `print_value`. `Event::parse` accepts only `print` (`examples/simple_dispatcher.rs:44`). The model follows the code. `Transcript` proves the session with `print`. `UsageCommentTranscript` proves the session as the comment types it, where `print_value` gets "Unknown command".

## Model

| member | source | states |
|---|---|---|
| Endpoint.RunEndpoint | src/handler/endpoint.rs:30-35 | The closure `endpoint` builds never continues. It breaks exactly when every parameter type is in the container, and otherwise fails naming an absent parameter type. The payload and the unused continuation are stated in `EndpointRun`. |
| Endpoint.Dispatch | src/handler/endpoint.rs:62 | Runs a handler with the terminal continuation, which gives the container back as `Continue`. It has no contract of its own; see `DispatchEndpoint` and `TestEndpoint`. |
| Endpoint.Inject | src/handler/endpoint.rs:33 | Injection succeeds exactly when every parameter type is in the container. On success it gives one argument per parameter, in order, and each is the container's value for that type. On failure it names the first parameter type that is absent. |
| Endpoint.MakeEndpoint | src/handler/endpoint.rs:37-41 | The endpoint's signature is `Other` with `f`'s input types, `f`'s obligations and an empty set of output types. |
| Endpoint.EndpointRun | src/handler/endpoint.rs:28-36 | For any container and continuation, the endpoint's handler never returns `Continue`. It breaks exactly when all parameter types are present, and the payload is `f` applied to the injected arguments. Otherwise it reports the injection failure. The continuation has no effect on the outcome. |
| Endpoint.DispatchEndpoint | src/handler/endpoint.rs:8-12 | Dispatching an endpoint never continues. With all parameter types present it breaks with `f` applied to the container's values for its parameters. With one absent it fails naming a missing parameter type. |
| Endpoint.TestEndpoint | src/handler/endpoint.rs:53-70 | On `deps![123]` the `i32` parameter receives exactly `[123]`, the dispatch yields `Break(7)`, and the signature is `Other({i32}, {}, {i32})`. The obligations `{i32}` are chosen in `TestInjectable`: the source does not show `F::obligations()` for `|num: i32|`, and the test never checks the signature, so that third clause follows from this choice rather than from the source. |
| Endpoint.TestEndpointMissing | src/handler/endpoint.rs:33 | The same endpoint dispatched on an empty container fails with `DependencyMissing("i32")` and does not run `f`. |
| Decimal.NatDigits | examples/simple_dispatcher.rs:126 | The decimal spelling of a magnitude is a non-empty run of digits. It has no leading zero unless the number is 0. |
| Decimal.FormatInt | examples/simple_dispatcher.rs:126 | `format!("{}", v)` starts with `-` exactly for negative values. A non-negative value is written in digits only. The digits after any sign never start with a zero unless the value is 0. |
| Decimal.DigitsValueOfNatDigits | examples/simple_dispatcher.rs:126 | Reading back the digits written for `n` gives `n`. |
| Decimal.ParseI32 | examples/simple_dispatcher.rs:43 | Empty text and a lone sign are rejected. Accepted text is an optional `+` or `-` followed by digits, and a negative result has a leading `-`. The round trip with `FormatInt` is `ParseFormat`. Acceptance of every in-range signed or unsigned digit run with its value is `ParseAccepts`. The rejections are `ParseRejectsNonDigit` and `ParseRejectsOverflow`. |
| Decimal.ParseAccepts | examples/simple_dispatcher.rs:43 | An optional `+` or `-` followed by digits whose value lies in the `i32` range is accepted and gives that value, so "+7" and "007" give 7 and "-0" gives 0. |
| Decimal.ParseFormat | examples/simple_dispatcher.rs:43 | `parse::<i32>` of what `format!` writes for an `i32` gives back the same value. |
| Decimal.FormatInjective | examples/simple_dispatcher.rs:110 | Different `i32` values are formatted differently. |
| Decimal.ParseRejectsNonDigit | examples/simple_dispatcher.rs:43 | Text with a non-digit after the first character does not parse as an `i32`. |
| Decimal.ParseRejectsOverflow | examples/simple_dispatcher.rs:43 | A run of digits outside the `i32` range does not parse. This covers no sign, `+` and `-` (for example "-2147483649"). |
| SimpleDispatcher.ParseEvent | examples/simple_dispatcher.rs:40-47 | Each direction holds: `["ping"]` gives `Ping` and `["print"]` gives `PrintValue`. `["set_value", v]` gives `SetValue` with the parsed `v` when `v` parses as an `i32`, and the `unwrap()` panic when it does not. Every other word list gives `None`. |
| SimpleDispatcher.ParseCommandWords | examples/simple_dispatcher.rs:40-47 | Every event has a command line that parses back to exactly that event. |
| SimpleDispatcher.Narrow | examples/simple_dispatcher.rs:59-64 | Narrowing succeeds exactly on `SetValue` and returns its `SetValueEvent` with the unit remainder. Otherwise it returns the event unchanged. |
| SimpleDispatcher.NarrowRecombine | examples/simple_dispatcher.rs:59-70 | Recombining what narrowing produced gives back the original event. Narrowing a recombined event gives back the same parts. |
| SimpleDispatcher.Recombine | examples/simple_dispatcher.rs:68-70 | The recombined event narrows back to the same `SetValueEvent`. The full round trip is `NarrowRecombine`. |
| SimpleDispatcher.PingHandler | examples/simple_dispatcher.rs:76-89 | Breaks with "Pong" exactly on `Ping`. Any other event continues unchanged. `PingStep` puts it into the node as a `Step` that leaves the store as it is. |
| SimpleDispatcher.SetValueStep | examples/simple_dispatcher.rs:93-114 | Breaks exactly on `SetValue(v)`, answering "<v> stored", and the store becomes `v`. Any other event continues unchanged and leaves the store alone. |
| SimpleDispatcher.PrintValueStep | examples/simple_dispatcher.rs:118-129 | Never changes the store. Breaks exactly on `PrintValue` with the text `FormatInt(store)`, the decimal spelling `format!` writes, which parses back to the stored value. Any other event continues unchanged. |
| SimpleDispatcher.RunNode | examples/simple_dispatcher.rs:136-145 | An empty node fails with the event and the store as given. If the first handler breaks, its answer and store are the node's. Any answer the node gives is the `Break` output of one of its handlers, with that handler's store. See also `NodeFirstBreak` and `NodeExhausted`. |
| SimpleDispatcher.NodeFirstBreak | examples/simple_dispatcher.rs:136-145 | If the handlers before position `k` all continue without changes and handler `k` breaks, the node answers with handler `k`'s output and store. |
| SimpleDispatcher.NodeExhausted | examples/simple_dispatcher.rs:136-139 | When every handler continues, the node returns an error carrying the unchanged event and leaves the store untouched. |
| SimpleDispatcher.DispatcherNode | examples/simple_dispatcher.rs:140-145 | The node has three handlers, and for every store and event the handler at the event's position breaks. The exclusivity of the other two is `ExactlyOneHandler`. |
| SimpleDispatcher.ExactlyOneHandler | examples/simple_dispatcher.rs:140-145 | Exactly one handler of the dispatcher's node breaks on each event: ping for `Ping`, set_value for `SetValue`, print_value for `PrintValue`. The other two continue unchanged. |
| SimpleDispatcher.HandleEvent | examples/simple_dispatcher.rs:140-145 | The node never fails. `Ping` gives "Pong". `SetValue(v)` gives "<v> stored" and stores `v`. `PrintValue` gives the stored value in decimal and keeps it. |
| SimpleDispatcher.SetThenPrint | examples/simple_dispatcher.rs:100-128 | After `set_value v`, the store holds `v`. A following `print` keeps it and answers text that parses back to `v`. |
| SimpleDispatcher.Turn | examples/simple_dispatcher.rs:155-161 | A parse failure is the turn's panic, and the store is untouched. A line that is no command answers "Unknown command". `ping` answers "Pong". `set_value v` with an `i32` argument answers `FormatInt(v) + " stored"` and leaves v in the store. `print` answers `FormatInt(store)` and leaves the store alone. That panics happen only on a bad `set_value` argument is `TurnPanics`. |
| SimpleDispatcher.TurnPanics | examples/simple_dispatcher.rs:155-161 | A turn of the command loop panics exactly when the `set_value` argument is not an `i32`. The node's `unwrap()` never fails on a parsed event. An unrecognised line answers "Unknown command" and leaves the store alone. |
| SimpleDispatcher.PrintValueIsUnknown | examples/simple_dispatcher.rs:42-45 | The line `print_value` is not a command. It answers "Unknown command" and leaves the store unchanged. |
| SimpleDispatcher.FormatExamples | examples/simple_dispatcher.rs:10-15 | 0 is written "0", 123 is written "123", the value 123 is reported as "123 stored", and "123" parses as 123. |
| SimpleDispatcher.Store.constructor | examples/simple_dispatcher.rs:134 | The store starts with the value it is created with (0 in `main`). |
| SimpleDispatcher.Dispatcher.SetValueHandler | examples/simple_dispatcher.rs:102-113 | The method's answer and the store's new value are what `SetValueStep` gives for the old stored value. |
| SimpleDispatcher.Dispatcher.PrintValueHandler | examples/simple_dispatcher.rs:121-128 | The method reads the store and answers as `PrintValueStep` does for the current stored value. |
| SimpleDispatcher.Dispatcher.Handle | examples/simple_dispatcher.rs:140-145 | Running the three handlers in order and stopping at the first `Break` gives the answer and the new store that `RunNode` on the dispatcher's node gives. |
| SimpleDispatcher.Dispatcher.Respond | examples/simple_dispatcher.rs:155-161 | One turn of the command loop (parse, handle and unwrap, or "Unknown command") gives the answer and the new store that `Turn` gives. |
| SimpleDispatcher.Transcript | examples/simple_dispatcher.rs:7-16 | From a store holding 0, the lines `ping`, `print`, `set_value 123`, `print` answer "Pong", "0", "123 stored", "123". |
| SimpleDispatcher.UsageCommentTranscript | examples/simple_dispatcher.rs:7-16 | Typed as in the usage comment, the session answers "Pong", "Unknown command", "123 stored", "Unknown command". |

## Left out

- The console loop of `main` (`examples/simple_dispatcher.rs:148-163`) is not modelled: the prompt, reading a line, `trim()`, `split(" ")` and printing the answer. `Dispatcher.Respond` starts from the line's words.
- Asynchrony is not modelled: tokio, `async move` and `FutureExt::map`. Handlers are synchronous functions and methods.
- `Arc` sharing and the `SeqCst` ordering of the `AtomicI32` are not modelled. The store is a single object that the handlers reference, and a dispatch is not run concurrently with another.
- The internals of `from_fn_with_description`, the `Injectable` trait, `HandlerDescription`, `Descr::endpoint()`, `deps!` and `help_inference` are not part of this model. An injectable is a list of parameter type tags, a set of obligations and a body over the injected values. A handler is a function of the container and the continuation, plus its signature. The description value is not modelled.
- `HandlerSignature` has only its `Other` variant here, because that is the only variant the endpoint builds.
- In `test_endpoint`, the `assert_eq!(num, input)` inside the body is not modelled as a panic. `TestEndpoint` instead proves that the injected argument list is exactly `[123]`.
- `filter`, `parser`, `end_point` and `node` are library code not part of this model. They are modelled only as the example uses them:
  - a filter whose predicate is false continues unchanged;
  - a failed narrowing continues with the original event;
  - an endpoint always breaks;
  - a node tries its handlers left to right and stops at the first `Break`, or fails carrying the event.
- SetValueStep: the parser's recombining path (the inner handler continues, so the narrowed event is recombined) is not modelled, because the inner handler is an endpoint and never continues. `NarrowRecombine` states the round trip that path would rely on.
- NodeFirstBreak, NodeExhausted: both lemmas assume that the handlers before the breaking one continue with the same event and store. They do not describe a node whose handlers hand a changed event or store to the next. This is enough for the node here, because all three of its handlers continue unchanged (`ExactlyOneHandler`). `RunNode`'s own contract covers the general case only as far as saying that any answer comes from some handler's `Break`.
