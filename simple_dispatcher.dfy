/** The dispatcher of `examples/simple_dispatcher.rs`: three console
    commands parsed into an `Event`, three handlers chained in a node, and
    one shared `i32` store that two of the handlers use. */
module SimpleDispatcher {
  import opened Protocol
  import opened Decimal

  /** `SetValueEvent(i32)`: the value `set_value` asks to store. */
  datatype SetValueEvent = SetValueEvent(value: I32)

  datatype Event = Ping | SetValue(event: SetValueEvent) | PrintValue

  /** The two ways the example's command loop panics: `unwrap()` on an
      argument of `set_value` that is not an `i32`, and `unwrap()` on the
      node's result when no handler took the event. */
  datatype Panic = ValueNotI32(token: string) | NoHandlerMatched(event: Event)

  // ----- Parsing the command line -----

  /** `Event::parse` on the space-separated words of one input line. */
  function ParseEvent(input: seq<string>): (r: Result<Option<Event>, Panic>)
    ensures r == Ok(Some(Ping)) <==> input == ["ping"]
    ensures r == Ok(Some(PrintValue)) <==> input == ["print"]
    ensures (r.Ok? && r.value.Some? && r.value.value.SetValue?) <==>
              |input| == 2 && input[0] == "set_value" && ParseI32(input[1]).Some?
    ensures r.Ok? && r.value.Some? && r.value.value.SetValue? ==>
              ParseI32(input[1]) == Some(r.value.value.event.value)
    ensures r.Err? <==> |input| == 2 && input[0] == "set_value" && ParseI32(input[1]).None?
    ensures r.Err? ==> r.error == ValueNotI32(input[1])
    ensures r == Ok(None) <==> input != ["ping"] && input != ["print"] && !(|input| == 2 && input[0] == "set_value")
  {
    if input == ["ping"] then Ok(Some(Ping))
    else if |input| == 2 && input[0] == "set_value" then
      match ParseI32(input[1])
      case None => Err(ValueNotI32(input[1]))
      case Some(v) => Ok(Some(SetValue(SetValueEvent(v))))
    else if input == ["print"] then Ok(Some(PrintValue))
    else Ok(None)
  }

  /** The command a user types for an event. */
  function CommandWords(e: Event): seq<string> {
    match e
    case Ping => ["ping"]
    case SetValue(SetValueEvent(v)) => ["set_value", FormatInt(v)]
    case PrintValue => ["print"]
  }

  /** Every event has a command that parses back to it. */
  lemma ParseCommandWords(e: Event)
    ensures ParseEvent(CommandWords(e)) == Ok(Some(e))
  {
    if e.SetValue? {
      ParseFormat(e.event.value);
    }
  }

  // ----- Parseable<SetValueEvent> for Event -----

  /** `Parseable::parse`: narrow an `Event` to its `SetValueEvent`, with
      the unit remainder, or give the event back unchanged. */
  function Narrow(e: Event): (r: Result<(SetValueEvent, ()), Event>)
    ensures r.Ok? <==> e.SetValue?
    ensures r.Ok? ==> r.value == (e.event, ())
    ensures r.Err? ==> r.error == e
  {
    match e
    case SetValue(s) => Ok((s, ()))
    case _ => Err(e)
  }

  /** `Parseable::recombine`: the result narrows back to the same
      `SetValueEvent`. */
  function Recombine(data: (SetValueEvent, ())): (e: Event)
    ensures Narrow(e).Ok? && Narrow(e).value.0 == data.0
  {
    SetValue(data.0)
  }

  /** Recombining what narrowing produced restores the original event,
      and narrowing a recombined event gives back the same parts. */
  lemma NarrowRecombine(e: Event, data: (SetValueEvent, ()))
    ensures Narrow(e).Ok? ==> Recombine(Narrow(e).value) == e
    ensures Narrow(Recombine(data)) == Ok(data)
  {
    var (event, rest) := data;
    match rest { case () => }
    assert data == (event, rest);
  }

  // ----- The handlers, over the value of the store -----

  /** A handler of the node as a function of the stored value and the
      event: its control flow and the stored value afterwards. */
  type Step = (I32, Event) -> (ControlFlow<string, Event>, I32)

  /** `ping_handler`: `filter(matches!(Event::Ping))` then an endpoint
      answering "Pong". */
  function PingHandler(e: Event): (o: ControlFlow<string, Event>)
    ensures o.Break? <==> e.Ping?
    ensures o.Break? ==> o.output == "Pong"
    ensures o.Continue? ==> o.rest == e
  {
    if e.Ping? then Break("Pong") else Continue(e)
  }

  function PingStep(store: I32, e: Event): (ControlFlow<string, Event>, I32) {
    (PingHandler(e), store)
  }

  /** `set_value_handler`: `parser::<Event, SetValueEvent>()` then an
      endpoint that stores the value and reports it. The endpoint never
      continues, so the recombining path of the parser is not taken. */
  function SetValueStep(store: I32, e: Event): (r: (ControlFlow<string, Event>, I32))
    ensures r.0.Break? <==> e.SetValue?
    ensures e.SetValue? ==> r == (Break(FormatInt(e.event.value) + " stored"), e.event.value)
    ensures !e.SetValue? ==> r == (Continue(e), store)
  {
    match Narrow(e)
    case Err(original) => (Continue(original), store)
    case Ok((SetValueEvent(v), _)) => (Break(FormatInt(v) + " stored"), v)
  }

  /** `print_value_handler`: `filter(matches!(Event::PrintValue))` then an
      endpoint that reads the store and formats it. */
  function PrintValueStep(store: I32, e: Event): (r: (ControlFlow<string, Event>, I32))
    ensures r.1 == store
    ensures r.0.Break? <==> e.PrintValue?
    ensures e.PrintValue? ==> r.0 == Break(FormatInt(store)) && ParseI32(r.0.output) == Some(store)
    ensures !e.PrintValue? ==> r.0 == Continue(e)
  {
    ParseFormat(store);
    if e.PrintValue? then (Break(FormatInt(store)), store) else (Continue(e), store)
  }

  // ----- The node -----

  /** A node: try the handlers left to right, passing each `Continue`'s
      event and store to the next; the first `Break` is the answer; when
      every handler continues the node fails with the event. */
  function RunNode(handlers: seq<Step>, store: I32, e: Event): (r: (Result<string, Event>, I32))
    ensures handlers == [] ==> r == (Err(e), store)
    ensures handlers != [] && handlers[0](store, e).0.Break? ==>
              r == (Ok(handlers[0](store, e).0.output), handlers[0](store, e).1)
    ensures r.0.Ok? ==> exists k, s, ev :: 0 <= k < |handlers| && handlers[k](s, ev) == (Break(r.0.value), r.1)
    decreases |handlers|
  {
    if handlers == [] then (Err(e), store)
    else
      var (flow, store') := handlers[0](store, e);
      match flow
      case Break(out) => (Ok(out), store')
      case Continue(e') =>
        var r := RunNode(handlers[1..], store', e');
        assert r.0.Ok? ==> exists k, s, ev :: 1 <= k < |handlers| && handlers[k](s, ev) == (Break(r.0.value), r.1) by {
          if r.0.Ok? {
            var k, s, ev :| 0 <= k < |handlers[1..]| && handlers[1..][k](s, ev) == (Break(r.0.value), r.1);
            assert handlers[k + 1](s, ev) == (Break(r.0.value), r.1);
          }
        }
        r
  }

  /** When the handlers before position `k` all decline, leaving event and
      store as they were, the node answers as handler `k` breaks. */
  lemma {:induction false} NodeFirstBreak(handlers: seq<Step>, store: I32, e: Event, k: nat)
    requires k < |handlers|
    requires forall j :: 0 <= j < k ==> handlers[j](store, e) == (Continue(e), store)
    requires handlers[k](store, e).0.Break?
    ensures RunNode(handlers, store, e) == (Ok(handlers[k](store, e).0.output), handlers[k](store, e).1)
    decreases k
  {
    if k > 0 {
      assert handlers[0](store, e) == (Continue(e), store);
      NodeFirstBreak(handlers[1..], store, e, k - 1);
    }
  }

  /** When every handler declines, the node fails with the event unchanged
      and the store untouched. */
  lemma {:induction false} NodeExhausted(handlers: seq<Step>, store: I32, e: Event)
    requires forall j :: 0 <= j < |handlers| ==> handlers[j](store, e) == (Continue(e), store)
    ensures RunNode(handlers, store, e) == (Err(e), store)
    decreases |handlers|
  {
    if handlers != [] {
      assert handlers[0](store, e) == (Continue(e), store);
      NodeExhausted(handlers[1..], store, e);
    }
  }

  /** The node `main` builds: ping, then set_value, then print_value. */
  function DispatcherNode(): (handlers: seq<Step>)
    ensures |handlers| == 3
    ensures forall store, e :: handlers[EventIndex(e)](store, e).0.Break?
  {
    [PingStep, SetValueStep, PrintValueStep]
  }

  /** Exactly one handler of the node takes each event, and the others
      leave event and store unchanged. */
  lemma ExactlyOneHandler(store: I32, e: Event)
    ensures forall j :: 0 <= j < 3 ==>
              (DispatcherNode()[j](store, e).0.Break? <==> j == EventIndex(e))
    ensures forall j :: 0 <= j < 3 && j != EventIndex(e) ==>
              DispatcherNode()[j](store, e) == (Continue(e), store)
  {
  }

  /** The position, in the node, of the handler meant for an event. */
  function EventIndex(e: Event): nat {
    match e
    case Ping => 0
    case SetValue(_) => 1
    case PrintValue => 2
  }

  /** What the node answers for each event, and the store afterwards;
      in particular it never fails on an event. */
  lemma HandleEvent(store: I32, e: Event)
    ensures RunNode(DispatcherNode(), store, e) == match e
      case Ping => (Ok("Pong"), store)
      case SetValue(SetValueEvent(v)) => (Ok(FormatInt(v) + " stored"), v)
      case PrintValue => (Ok(FormatInt(store)), store)
  {
    ExactlyOneHandler(store, e);
    NodeFirstBreak(DispatcherNode(), store, e, EventIndex(e));
  }

  /** A value stored by `set_value` is what a later `print` reports. */
  lemma SetThenPrint(store: I32, v: I32)
    ensures var (_, s1) := RunNode(DispatcherNode(), store, SetValue(SetValueEvent(v)));
            var (out, s2) := RunNode(DispatcherNode(), s1, PrintValue);
            s1 == v && s2 == v && out.Ok? && ParseI32(out.value) == Some(v)
  {
    HandleEvent(store, SetValue(SetValueEvent(v)));
    HandleEvent(v, PrintValue);
    ParseFormat(v);
  }

  // ----- One turn of the command loop -----

  /** The answer printed for one line of words: parse it, hand a parsed
      event to the node, or answer "Unknown command". */
  function Turn(store: I32, input: seq<string>): (r: (Result<string, Panic>, I32))
    ensures ParseEvent(input).Err? ==> r == (Err(ParseEvent(input).error), store)
    ensures ParseEvent(input) == Ok(None) ==> r == (Ok("Unknown command"), store)
    ensures ParseEvent(input) == Ok(Some(Ping)) ==> r == (Ok("Pong"), store)
    ensures |input| == 2 && input[0] == "set_value" && ParseI32(input[1]).Some? ==>
              r == (Ok(FormatInt(ParseI32(input[1]).value) + " stored"), ParseI32(input[1]).value)
    ensures input == ["print"] ==> r == (Ok(FormatInt(store)), store)
  {
    match ParseEvent(input)
    case Err(p) => (Err(p), store)
    case Ok(None) => (Ok("Unknown command"), store)
    case Ok(Some(e)) =>
      HandleEvent(store, e);
      var (r, store') := RunNode(DispatcherNode(), store, e);
      match r
      case Ok(out) => (Ok(out), store')
      case Err(e') => (Err(NoHandlerMatched(e')), store')
  }

  /** The loop panics only on a `set_value` argument that is not an `i32`:
      the node's `unwrap()` never fails on a parsed event, and words that
      are no command leave the store alone. */
  lemma TurnPanics(store: I32, input: seq<string>)
    ensures Turn(store, input).0.Err? <==> ParseEvent(input).Err?
    ensures Turn(store, input).0.Err? ==> Turn(store, input).0.error.ValueNotI32?
    ensures ParseEvent(input) == Ok(None) ==> Turn(store, input) == (Ok("Unknown command"), store)
  {
    match ParseEvent(input)
    case Err(_) =>
    case Ok(None) =>
    case Ok(Some(e)) => HandleEvent(store, e);
  }

  /** The word `print_value` of the usage comment is not a command. */
  lemma PrintValueIsUnknown(store: I32)
    ensures Turn(store, ["print_value"]) == (Ok("Unknown command"), store)
  {
  }

  // ----- The shared store and the handlers that use it -----

  /** The `Arc<AtomicI32>` both value handlers capture. */
  class Store {
    var value: I32

    constructor (init: I32)
      ensures value == init
    {
      value := init;
    }
  }

  /** The node built in `main`, over the store it shares with its
      handlers. */
  class Dispatcher {
    const store: Store

    constructor (store: Store)
      ensures this.store == store
    {
      this.store := store;
    }

    /** `set_value_handler`: on `SetValue(v)` the store becomes `v`. */
    method SetValueHandler(e: Event) returns (flow: ControlFlow<string, Event>)
      modifies store
      ensures (flow, store.value) == SetValueStep(old(store.value), e)
    {
      match Narrow(e)
      case Err(original) =>
        flow := Continue(original);
      case Ok((SetValueEvent(v), _)) =>
        store.value := v;
        flow := Break(FormatInt(v) + " stored");
    }

    /** `print_value_handler`: reads the store, changes nothing. */
    method PrintValueHandler(e: Event) returns (flow: ControlFlow<string, Event>)
      ensures flow == PrintValueStep(store.value, e).0
    {
      if e.PrintValue? {
        var v := store.value;
        flow := Break(FormatInt(v));
      } else {
        flow := Continue(e);
      }
    }

    /** `dispatcher.handle(event)`: the handlers in the node's order,
        stopping at the first `Break`. */
    method Handle(e: Event) returns (r: Result<string, Event>)
      modifies store
      ensures (r, store.value) == RunNode(DispatcherNode(), old(store.value), e)
    {
      ghost var handlers := DispatcherNode();
      var flow := PingHandler(e);
      if flow.Break? {
        r := Ok(flow.output);
        return;
      }
      assert handlers[1..][1..][1..] == [];
      flow := SetValueHandler(flow.rest);
      if flow.Break? {
        r := Ok(flow.output);
        return;
      }
      flow := PrintValueHandler(flow.rest);
      r := match flow
        case Break(out) => Ok(out)
        case Continue(unhandled) => Err(unhandled);
    }

    /** One turn of the loop in `main`, from the words of a line to the
        answer it prints. */
    method Respond(input: seq<string>) returns (r: Result<string, Panic>)
      modifies store
      ensures (r, store.value) == Turn(old(store.value), input)
    {
      var parsed := ParseEvent(input);
      match parsed
      case Err(p) =>
        r := Err(p);
      case Ok(None) =>
        r := Ok("Unknown command");
      case Ok(Some(e)) =>
        var handled := Handle(e);
        match handled
        case Ok(out) =>
          r := Ok(out);
        case Err(e') =>
          r := Err(NoHandlerMatched(e'));
    }
  }

  /** The decimal spellings the transcripts below use. */
  lemma FormatExamples()
    ensures FormatInt(0) == "0" && FormatInt(123) == "123"
    ensures FormatInt(123) + " stored" == "123 stored"
    ensures ParseI32("123") == Some(123)
  {
    assert NatDigits(123) == NatDigits(12) + ['3'];
    assert NatDigits(12) == NatDigits(1) + ['2'];
    ParseFormat(123);
    assert "123" + " stored" == "123 stored";
  }

  /** From a store holding 0, the commands `ping`, `print`,
      `set_value 123`, `print` answer "Pong", "0", "123 stored", "123". */
  method Transcript() returns (outs: seq<string>)
    ensures outs == ["Pong", "0", "123 stored", "123"]
  {
    FormatExamples();
    var store := new Store(0);
    var dispatcher := new Dispatcher(store);
    HandleEvent(0, Ping);
    var r1 := dispatcher.Respond(["ping"]);
    HandleEvent(0, PrintValue);
    var r2 := dispatcher.Respond(["print"]);
    HandleEvent(0, SetValue(SetValueEvent(123)));
    var r3 := dispatcher.Respond(["set_value", "123"]);
    HandleEvent(123, PrintValue);
    var r4 := dispatcher.Respond(["print"]);
    outs := [r1.value, r2.value, r3.value, r4.value];
  }

  /** The same session typed as in the usage comment, where `print_value`
      is no command: "Pong", "Unknown command", "123 stored",
      "Unknown command". */
  method UsageCommentTranscript() returns (outs: seq<string>)
    ensures outs == ["Pong", "Unknown command", "123 stored", "Unknown command"]
  {
    FormatExamples();
    var store := new Store(0);
    var dispatcher := new Dispatcher(store);
    HandleEvent(0, Ping);
    var r1 := dispatcher.Respond(["ping"]);
    var r2 := dispatcher.Respond(["print_value"]);
    HandleEvent(0, SetValue(SetValueEvent(123)));
    var r3 := dispatcher.Respond(["set_value", "123"]);
    var r4 := dispatcher.Respond(["print_value"]);
    outs := [r1.value, r2.value, r3.value, r4.value];
  }
}
