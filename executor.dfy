/**
 * The turn pipeline of reasoning/app/agent/executor.py. A context agent names the tickers
 * the conversation is about and their fundamentals become a "### Stock Data" block; the
 * main agent answers with JSON holding a spoken `response` and optional `widgets`;
 * spreadsheet widgets get the financial column they ask for; the widget list is stored
 * in the session and, unless the task was cancelled, two outputs are emitted.
 *
 * The language model, the market data, the parser and serialiser and the task-status
 * store are reached through `Collaborators`, whose functions stand for what those calls
 * return for the given arguments.
 */
module Executor {
  import opened Wrappers
  import opened JsonData
  import opened Financials

  datatype Message = Message(role: string, content: string)

  /** The two system prompts, whose text is not part of this model. */
  datatype Prompts = Prompts(system: string, contextAgent: string)

  const Greeting: string := "Hello! I am Alice, your financial assistant that can provide stock market visualizations."
  const SessionWidgetsKey: string := "stock-widgets"
  const SpreadsheetType: string := "showSpreadsheet"

  datatype Collaborators = Collaborators(
    /** The context agent's reply to a message list; `None` when the call raised. */
    contextReply: seq<Message> -> Option<string>,
    /** The text half of `get_stock_fundamentals` for a ticker. */
    fundamentalsText: Json -> string,
    /** The main agent's reply on the first attempt and on the retry. */
    firstReply: seq<Message> -> Option<string>,
    retryReply: seq<Message> -> Option<string>,
    /** `json.loads`, `None` when the text is not JSON; and `json.dumps`. */
    parse: string -> Option<Json>,
    dumps: Json -> string,
    /** `get_stock_financials` for a symbol. */
    financialsFor: Json -> Option<Table>,
    /** The stored status of a task key: `Ok(None)` when the key is unset, `Err` when the lookup raised. */
    taskStatus: string -> Result<Option<string>>)

  /** The caller's message list, which the turn extends in place. */
  class MessageList {
    var items: seq<Message>

    constructor (items: seq<Message>)
      ensures this.items == items
    {
      this.items := items;
    }

    /** `list.insert`: an index past the end appends. */
    method Insert(i: nat, m: Message)
      modifies this
      ensures i <= old(|items|) ==> items == old(items[..i]) + [m] + old(items[i..])
      ensures i > old(|items|) ==> items == old(items) + [m]
    {
      if i <= |items| {
        items := items[..i] + [m] + items[i..];
      } else {
        items := items + [m];
      }
    }

    method Append(m: Message)
      modifies this
      ensures items == old(items) + [m]
    {
      items := items + [m];
    }
  }

  /** The session dictionary the context variable holds; `run_agent` reports it with every output. */
  class Session {
    var data: map<string, Json>

    constructor (data: map<string, Json>)
      ensures this.data == data
    {
      this.data := data;
    }

    method Set(key: string, value: Json)
      modifies this
      ensures data == old(data)[key := value]
    {
      data := data[key := value];
    }
  }

  /** `v[key]` on a parsed JSON value. */
  function Index(v: Json, key: string): Result<Json> {
    if !v.Obj? then Err("TypeError")
    else if key !in v.fields then Err("KeyError")
    else Ok(v.fields[key])
  }

  /** What a `for` loop over a parsed JSON value visits. */
  function Tickers(symbols: Json): Result<seq<Json>> {
    match symbols
    case Arr(items) => Ok(items)
    case Str(s) => Ok(seq(|s|, i requires 0 <= i < |s| => Str([s[i]])))
    case Obj(fields) => if fields == map[] then Ok([]) else Err("key order not modelled")
    case _ => Err("TypeError")
  }

  /** One block of fundamentals text per ticker, each followed by a blank line. */
  function Blocks(tickers: seq<Json>, text: Json -> string): string {
    if tickers == [] then ""
    else Blocks(tickers[..|tickers| - 1], text) + text(tickers[|tickers| - 1]) + "\n\n"
  }

  function StockContext(tickers: seq<Json>, text: Json -> string): string {
    var blocks := Blocks(tickers, text);
    if |blocks| > 0 then "### Stock Data\n" + blocks else blocks
  }

  /** Blocks of consecutive ticker lists follow one another. */
  lemma {:induction false} BlocksAppend(a: seq<Json>, b: seq<Json>, text: Json -> string)
    ensures Blocks(a + b, text) == Blocks(a, text) + Blocks(b, text)
    decreases |b|
  {
    if b == [] {
      assert a + b == a;
    } else {
      var m := |b|;
      var whole := a + b;
      assert whole[..|whole| - 1] == a + b[..m - 1];
      assert whole[|whole| - 1] == b[m - 1];
      BlocksAppend(a, b[..m - 1], text);
    }
  }

  /** The stock context is empty exactly when no ticker was named, and otherwise starts with its heading. */
  lemma {:induction false} StockContextEmptyIffNoTickers(tickers: seq<Json>, text: Json -> string)
    ensures StockContext(tickers, text) == "" <==> tickers == []
    ensures tickers != [] ==> StockContext(tickers, text) == "### Stock Data\n" + Blocks(tickers, text)
  {
    if tickers != [] {
      var n := |tickers|;
      assert |Blocks(tickers, text)| >= 2;
    }
  }

  function ContextMessages(history: seq<Message>, prompts: Prompts): seq<Message> {
    [Message("system", prompts.contextAgent)] + history
  }

  /** `context_gathering_agent` as a value: the stock context, or the failure that ends the turn. */
  function ContextFor(history: seq<Message>, prompts: Prompts, c: Collaborators): Result<string> {
    var reply :- Need(c.contextReply(ContextMessages(history, prompts)), "the context agent call failed");
    var parsed :- Need(c.parse(reply), "JSONDecodeError");
    var symbols :- Index(parsed, "symbols");
    var tickers :- Tickers(symbols);
    Ok(StockContext(tickers, c.fundamentalsText))
  }

  /**
   * `context_gathering_agent`: works on a copy of the caller's list (it names no frame, so
   * the caller's messages are untouched) and concatenates one fundamentals block per ticker.
   */
  method ContextGathering(messages: MessageList, prompts: Prompts, c: Collaborators) returns (r: Result<string>)
    ensures r == ContextFor(messages.items, prompts, c)
  {
    var copy := ContextMessages(messages.items, prompts);
    var reply := c.contextReply(copy);
    if reply.None? {
      return Err("the context agent call failed");
    }
    var parsed := c.parse(reply.value);
    if parsed.None? {
      return Err("JSONDecodeError");
    }
    var symbols := Index(parsed.value, "symbols");
    if symbols.Err? {
      return Err(symbols.error);
    }
    var tickers := Tickers(symbols.value);
    if tickers.Err? {
      return Err(tickers.error);
    }
    var stockContext := "";
    var i := 0;
    while i < |tickers.value|
      invariant 0 <= i <= |tickers.value|
      invariant stockContext == Blocks(tickers.value[..i], c.fundamentalsText)
    {
      assert tickers.value[..i + 1][..i] == tickers.value[..i];
      stockContext := stockContext + c.fundamentalsText(tickers.value[i]) + "\n" + "\n";
      i := i + 1;
    }
    assert tickers.value[..i] == tickers.value;
    if |stockContext| > 0 {
      return Ok("### Stock Data\n" + stockContext);
    }
    return Ok(stockContext);
  }

  function EntryJson(e: Entry): Json {
    Obj(map["date" := Str(e.date), "value" := Num(e.value)])
  }

  function EntriesJson(es: seq<Entry>): (v: Json)
    ensures v.Arr? && |v.items| == |es|
    ensures forall i :: 0 <= i < |es| ==> v.items[i] == EntryJson(es[i])
  {
    Arr(seq(|es|, i requires 0 <= i < |es| => EntryJson(es[i])))
  }

  /**
   * The column loop for one spreadsheet widget: the metric is read once per column, so a
   * missing metric raises only when the table has a column; the column named by the
   * metric becomes the widget's `data`.
   */
  function Attached(widget: map<string, Json>, params: map<string, Json>, t: Table): Result<map<string, Json>> {
    if t == map[] then Ok(widget)
    else if "metric" !in params then Err("KeyError")
    else
      var metric := params["metric"];
      if metric.Str? && metric.s in t then Ok(widget["data" := EntriesJson(t[metric.s])]) else Ok(widget)
  }

  method AttachColumn(widget: map<string, Json>, params: map<string, Json>, t: Table) returns (r: Result<map<string, Json>>)
    ensures r == Attached(widget, params, t)
  {
    var out := widget;
    var pending := t.Keys;
    while pending != {}
      invariant pending <= t.Keys
      invariant pending != t.Keys ==> "metric" in params
      invariant out == if "metric" in params && params["metric"].Str? && params["metric"].s in t && params["metric"].s !in pending
                       then widget["data" := EntriesJson(t[params["metric"].s])] else widget
      decreases pending
    {
      var column :| column in pending;
      if "metric" !in params {
        return Err("KeyError");
      }
      if params["metric"] == Str(column) {
        out := out["data" := EntriesJson(t[column])];
      }
      pending := pending - {column};
    }
    return Ok(out);
  }

  /**
   * One element of the widget list: it must be an object with a `type`; a spreadsheet
   * must have object `parameters` with a `symbol` whose financials were fetched.
   */
  function EnrichOne(w: Json, financialsFor: Json -> Option<Table>): (r: Result<Json>)
    ensures r.Err? <==>
      || !w.Obj? || "type" !in w.fields
      || (&& w.fields["type"] == Str(SpreadsheetType)
          && (|| Index(w, "parameters").Err?
              || Index(w.fields["parameters"], "symbol").Err?
              || financialsFor(w.fields["parameters"].fields["symbol"]).None?
              || (financialsFor(w.fields["parameters"].fields["symbol"]).value != map[]
                  && "metric" !in w.fields["parameters"].fields)))
    ensures w.Obj? && "type" in w.fields && w.fields["type"] != Str(SpreadsheetType) ==> r == Ok(w)
    ensures r.Ok? ==> w.Obj? && r.value.Obj? && "type" in w.fields
    ensures r.Ok? && w.fields["type"] == Str(SpreadsheetType) ==>
      var params := w.fields["parameters"].fields;
      var t := financialsFor(params["symbol"]).value;
      r.value == if "metric" in params && params["metric"].Str? && params["metric"].s in t
                 then Obj(w.fields["data" := EntriesJson(t[params["metric"].s])])
                 else w
    ensures r.Ok? ==> r.value.fields.Keys - {"data"} == w.fields.Keys - {"data"}
    ensures r.Ok? ==> forall k :: k in w.fields && k != "data" ==> k in r.value.fields && r.value.fields[k] == w.fields[k]
    ensures r.Ok? && r.value != w ==> w.fields["type"] == Str(SpreadsheetType)
  {
    var tag :- Index(w, "type");
    if tag != Str(SpreadsheetType) then Ok(w)
    else
      var params :- Index(w, "parameters");
      var symbol :- Index(params, "symbol");
      var table :- Need(financialsFor(symbol), "AttributeError");
      var fields :- Attached(w.fields, params.fields, table);
      Ok(Obj(fields))
  }

  method EnrichWidget(w: Json, financialsFor: Json -> Option<Table>) returns (r: Result<Json>)
    ensures r == EnrichOne(w, financialsFor)
  {
    var tag := Index(w, "type");
    if tag.Err? {
      return Err(tag.error);
    }
    if tag.value != Str(SpreadsheetType) {
      return Ok(w);
    }
    var params := Index(w, "parameters");
    if params.Err? {
      return Err(params.error);
    }
    var symbol := Index(params.value, "symbol");
    if symbol.Err? {
      return Err(symbol.error);
    }
    var table := financialsFor(symbol.value);
    if table.None? {
      return Err("AttributeError");
    }
    var fields := AttachColumn(w.fields, params.value.fields, table.value);
    if fields.Err? {
      return Err(fields.error);
    }
    return Ok(Obj(fields.value));
  }

  /** The widget loop over whatever `widgets` holds: only an empty object or string has nothing to visit. */
  function Enriched(widgets: Json, financialsFor: Json -> Option<Table>): (r: Result<Json>)
    ensures widgets.Arr? ==> (r.Err? <==> exists i :: 0 <= i < |widgets.items| && EnrichOne(widgets.items[i], financialsFor).Err?)
    ensures widgets.Arr? && r.Ok? ==>
      && r.value.Arr? && |r.value.items| == |widgets.items|
      && forall i :: 0 <= i < |widgets.items| ==> EnrichOne(widgets.items[i], financialsFor) == Ok(r.value.items[i])
    ensures !widgets.Arr? ==> (r.Ok? <==> widgets == Obj(map[]) || widgets == Str(""))
    ensures !widgets.Arr? && r.Ok? ==> r.value == widgets
  {
    match widgets
    case Arr(items) =>
      var done :- MapOrThrow(items, w => EnrichOne(w, financialsFor));
      Ok(Arr(done))
    case Obj(fields) => if fields == map[] then Ok(widgets) else Err("TypeError")
    case Str(s) => if s == "" then Ok(widgets) else Err("TypeError")
    case _ => Err("TypeError")
  }

  method EnrichWidgets(widgets: Json, financialsFor: Json -> Option<Table>) returns (r: Result<Json>)
    ensures r.Ok? <==> Enriched(widgets, financialsFor).Ok?
    ensures r.Ok? ==> r == Enriched(widgets, financialsFor)
  {
    if !widgets.Arr? {
      return Enriched(widgets, financialsFor);
    }
    var items := widgets.items;
    var done: seq<Json> := [];
    var i := 0;
    while i < |items|
      invariant 0 <= i <= |items| && |done| == i
      invariant forall j :: 0 <= j < i ==> EnrichOne(items[j], financialsFor) == Ok(done[j])
    {
      var e := EnrichWidget(items[i], financialsFor);
      if e.Err? {
        return Err(e.error);
      }
      done := done + [e.value];
      i := i + 1;
    }
    var f := w => EnrichOne(w, financialsFor);
    assert forall j :: 0 <= j < |items| ==> f(items[j]) == Ok(done[j]);
    var all := MapOrThrow(items, f);
    assert all.Ok?;
    assert all.value == done;
    return Ok(Arr(done));
  }

  /** The list the main agent sees: the system prompt with the context, the greeting, then the conversation. */
  function Prompted(context: string, history: seq<Message>, prompts: Prompts): seq<Message> {
    [Message("system", context + "\n# Instructions\n" + prompts.system), Message("assistant", Greeting)] + history
  }

  /** The first call, and the retry when it raised. */
  function AssistantReply(messages: seq<Message>, c: Collaborators): (r: Option<string>)
    ensures c.firstReply(messages).Some? ==> r == c.firstReply(messages)
    ensures c.firstReply(messages).None? ==> r == c.retryReply(messages)
    ensures r.None? <==> c.firstReply(messages).None? && c.retryReply(messages).None?
  {
    if c.firstReply(messages).Some? then c.firstReply(messages) else c.retryReply(messages)
  }

  /** What a parsed reply yields: the spoken response and the serialised, enriched widget list. */
  datatype Answer = Answer(response: Json, widgetsJson: string)

  function AnswerFor(reply: string, c: Collaborators): (r: Result<Answer>)
    ensures r.Ok? <==>
      && c.parse(reply).Some? && Index(c.parse(reply).value, "response").Ok?
      && ("widgets" in c.parse(reply).value.fields ==> Enriched(c.parse(reply).value.fields["widgets"], c.financialsFor).Ok?)
    ensures r.Ok? ==> r.value.response == c.parse(reply).value.fields["response"]
    ensures r.Ok? && "widgets" !in c.parse(reply).value.fields ==> r.value.widgetsJson == c.dumps(Arr([]))
    ensures r.Ok? && "widgets" in c.parse(reply).value.fields ==>
      r.value.widgetsJson == c.dumps(Enriched(c.parse(reply).value.fields["widgets"], c.financialsFor).value)
  {
    var parsed :- Need(c.parse(reply), "JSONDecodeError");
    var response :- Index(parsed, "response");
    var widgets :- if "widgets" in parsed.fields then Enriched(parsed.fields["widgets"], c.financialsFor) else Ok(Arr([]));
    Ok(Answer(response, c.dumps(widgets)))
  }

  /** An output of the turn: its message list, the node name and the output value. */
  datatype Output = Output(messages: seq<Message>, node: string, output: Json)

  function WidgetOutput(widgetsJson: string): Json {
    Obj(map["type" := Str("widget-information"), "details" := Str(widgetsJson)])
  }

  /** Everything one turn leaves behind. */
  datatype Effects = Effects(
    /** The caller's message list afterwards. */
    transcript: seq<Message>,
    /** What the session records under "stock-widgets", when the turn got that far. */
    widgetsJson: Option<string>,
    outputs: seq<Output>)

  predicate Cancelled(taskId: string, c: Collaborators) {
    c.taskStatus("task-" + taskId) == Ok(Some("cancelled"))
  }

  /** The status lookup succeeded and did not read "cancelled": the outputs go out. */
  predicate Streams(taskId: string, c: Collaborators) {
    c.taskStatus("task-" + taskId).Ok? && !Cancelled(taskId, c)
  }

  /** The main agent's reply, once the context agent has succeeded. */
  function ReplyFor(history: seq<Message>, prompts: Prompts, c: Collaborators): Option<string> {
    match ContextFor(history, prompts, c)
    case Err(_) => None
    case Ok(context) => AssistantReply(Prompted(context, history, prompts), c)
  }

  /**
   * `single_turn_agent` as a value: a failed context agent leaves the caller's list alone;
   * otherwise the list gains the system message and the greeting in front and the reply
   * at the end; a reply that parses is stored and, unless the status lookup raised or
   * read "cancelled", yields the widget output and then the spoken response.
   */
  function TurnEffects(history: seq<Message>, taskId: string, prompts: Prompts, c: Collaborators): (e: Effects)
    ensures ContextFor(history, prompts, c).Err? ==> e.transcript == history && e.widgetsJson.None? && e.outputs == []
    ensures ContextFor(history, prompts, c).Ok? ==>
      var prompted := Prompted(ContextFor(history, prompts, c).value, history, prompts);
      && |prompted| <= |e.transcript| && e.transcript[..|prompted|] == prompted
      && e.transcript[0] == Message("system", ContextFor(history, prompts, c).value + "\n# Instructions\n" + prompts.system)
      && e.transcript[1] == Message("assistant", Greeting)
      && e.transcript[2..|history| + 2] == history
      && (ReplyFor(history, prompts, c).None? ==> e.transcript == prompted)
      && (ReplyFor(history, prompts, c).Some? ==> e.transcript == prompted + [Message("assistant", ReplyFor(history, prompts, c).value)])
    ensures e.widgetsJson.Some? <==> ReplyFor(history, prompts, c).Some? && AnswerFor(ReplyFor(history, prompts, c).value, c).Ok?
    ensures e.widgetsJson.Some? ==> e.widgetsJson.value == AnswerFor(ReplyFor(history, prompts, c).value, c).value.widgetsJson
    ensures e.outputs == [] || |e.outputs| == 2
    ensures |e.outputs| == 2 <==> e.widgetsJson.Some? && Streams(taskId, c)
    ensures |e.outputs| == 2 ==>
      var last := [Message("assistant", ReplyFor(history, prompts, c).value)];
      && e.transcript[|e.transcript| - 1] == last[0]
      && e.outputs[0] == Output(last, "Widget", WidgetOutput(e.widgetsJson.value))
      && e.outputs[1] == Output(last, "CustomerResponse", AnswerFor(ReplyFor(history, prompts, c).value, c).value.response)
  {
    match ContextFor(history, prompts, c)
    case Err(_) => Effects(history, None, [])
    case Ok(context) =>
      var prompted := Prompted(context, history, prompts);
      match AssistantReply(prompted, c)
      case None => Effects(prompted, None, [])
      case Some(reply) =>
        var transcript := prompted + [Message("assistant", reply)];
        match AnswerFor(reply, c)
        case Err(_) => Effects(transcript, None, [])
        case Ok(answer) =>
          var last := [Message("assistant", reply)];
          var outputs :=
            if !Streams(taskId, c) then []
            else [Output(last, "Widget", WidgetOutput(answer.widgetsJson)), Output(last, "CustomerResponse", answer.response)];
          Effects(transcript, Some(answer.widgetsJson), outputs)
  }

  /**
   * `single_turn_agent` on the caller's list and the session: the context agent runs on a
   * copy, the two leading messages are inserted, the reply is appended, the widget list
   * is stored in the session, and the outputs are produced unless the task was cancelled.
   */
  method SingleTurn(messages: MessageList, session: Session, taskId: string, prompts: Prompts, c: Collaborators)
    returns (outputs: seq<Output>)
    modifies messages, session
    ensures var e := TurnEffects(old(messages.items), taskId, prompts, c);
      && messages.items == e.transcript
      && session.data == (if e.widgetsJson.Some? then old(session.data)[SessionWidgetsKey := Str(e.widgetsJson.value)] else old(session.data))
      && outputs == e.outputs
  {
    ghost var history := messages.items;
    var stockContext := ContextGathering(messages, prompts, c);
    if stockContext.Err? {
      return [];
    }
    var system := Message("system", stockContext.value + "\n# Instructions\n" + prompts.system);
    messages.Insert(0, system);
    assert messages.items == [system] + history;
    messages.Insert(1, Message("assistant", Greeting));
    assert messages.items == Prompted(stockContext.value, history, prompts);
    var reply := AssistantReply(messages.items, c);
    if reply.None? {
      return [];
    }
    messages.Append(Message("assistant", reply.value));
    var parsed := c.parse(reply.value);
    if parsed.None? {
      assert AnswerFor(reply.value, c).Err?;
      return [];
    }
    var response := Index(parsed.value, "response");
    if response.Err? {
      assert AnswerFor(reply.value, c).Err?;
      return [];
    }
    var widgets := Ok(Arr([]));
    if "widgets" in parsed.value.fields {
      widgets := EnrichWidgets(parsed.value.fields["widgets"], c.financialsFor);
      if widgets.Err? {
        assert AnswerFor(reply.value, c).Err?;
        return [];
      }
    }
    assert AnswerFor(reply.value, c) == Ok(Answer(response.value, c.dumps(widgets.value)));
    var widgetsJson := c.dumps(widgets.value);
    session.Set(SessionWidgetsKey, Str(widgetsJson));
    var status := c.taskStatus("task-" + taskId);
    if status.Err? || status.value == Some("cancelled") {
      return [];
    }
    var last := [messages.items[|messages.items| - 1]];
    outputs := [Output(last, "Widget", WidgetOutput(widgetsJson)), Output(last, "CustomerResponse", response.value)];
  }

  function MessageJson(m: Message): Json {
    Obj(map["role" := Str(m.role), "content" := Str(m.content)])
  }

  /** An output with the session attached, as `run_agent` serialises it. */
  function ResponseJson(out: Output, session: map<string, Json>): Json {
    Obj(map[
      "messages" := Arr(seq(|out.messages|, i requires 0 <= i < |out.messages| => MessageJson(out.messages[i]))),
      "node" := Str(out.node),
      "output" := out.output,
      "session" := Obj(session)])
  }

  /**
   * `run_agent`: runs the turn with the task id defaulting to the empty string and
   * serialises each output with the session as it stands once the turn has stored the
   * widget list. A failure anywhere ends the stream without output.
   */
  method RunAgent(messages: MessageList, session: Session, taskId: Option<string>, prompts: Prompts, c: Collaborators)
    returns (stream: seq<string>)
    modifies messages, session
    ensures var e := TurnEffects(old(messages.items), if taskId.Some? then taskId.value else "", prompts, c);
      && messages.items == e.transcript
      && session.data == (if e.widgetsJson.Some? then old(session.data)[SessionWidgetsKey := Str(e.widgetsJson.value)] else old(session.data))
      && |stream| == |e.outputs|
      && forall i :: 0 <= i < |stream| ==> stream[i] == c.dumps(ResponseJson(e.outputs[i], session.data))
  {
    var id := if taskId.Some? then taskId.value else "";
    var outputs := SingleTurn(messages, session, id, prompts, c);
    stream := [];
    var i := 0;
    while i < |outputs|
      invariant 0 <= i <= |outputs| && |stream| == i
      invariant forall j :: 0 <= j < i ==> stream[j] == c.dumps(ResponseJson(outputs[j], session.data))
    {
      stream := stream + [c.dumps(ResponseJson(outputs[i], session.data))];
      i := i + 1;
    }
  }

  /**
   * The task status only decides whether the outputs go out: the transcript and the
   * session are the same either way, and a cancelled task or a raising lookup yields nothing.
   */
  lemma CancellationOnlySilences(history: seq<Message>, a: string, b: string, prompts: Prompts, c: Collaborators)
    ensures TurnEffects(history, a, prompts, c).transcript == TurnEffects(history, b, prompts, c).transcript
    ensures TurnEffects(history, a, prompts, c).widgetsJson == TurnEffects(history, b, prompts, c).widgetsJson
    ensures Cancelled(a, c) ==> TurnEffects(history, a, prompts, c).outputs == []
    ensures c.taskStatus("task-" + a).Err? ==> TurnEffects(history, a, prompts, c).outputs == []
  {
  }

  /**
   * A spreadsheet whose metric names a column of the symbol's financials gets that column
   * as its `data`, one `{date, value}` object per entry, and nothing else changes.
   */
  lemma SpreadsheetGetsItsColumn(w: map<string, Json>, params: map<string, Json>, f: Json -> Option<Table>, metric: string)
    requires "type" in w && w["type"] == Str(SpreadsheetType)
    requires "parameters" in w && w["parameters"] == Obj(params)
    requires "symbol" in params && f(params["symbol"]).Some?
    requires "metric" in params && params["metric"] == Str(metric) && metric in f(params["symbol"]).value
    ensures EnrichOne(Obj(w), f) == Ok(Obj(w["data" := EntriesJson(f(params["symbol"]).value[metric])]))
  {
  }

  /** A spreadsheet whose metric is not a column of its financials passes through unchanged. */
  lemma UnmatchedMetricLeftAlone(w: map<string, Json>, params: map<string, Json>, f: Json -> Option<Table>)
    requires "type" in w && w["type"] == Str(SpreadsheetType)
    requires "parameters" in w && w["parameters"] == Obj(params)
    requires "symbol" in params && f(params["symbol"]).Some?
    requires "metric" in params && !(params["metric"].Str? && params["metric"].s in f(params["symbol"]).value)
    ensures EnrichOne(Obj(w), f) == Ok(Obj(w))
  {
  }
}
