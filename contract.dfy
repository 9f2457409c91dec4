/**
 * What the reasoning server's widget output means to the web client. The orchestrator
 * delivers the "Widget" output as a chat entry of kind "widget" whose message is the
 * output value; the client parses its `details` and renders each descriptor. The lemmas
 * assume only that the client's parser reads back what the server's serialiser wrote.
 */
module CrossProcess {
  import opened Wrappers
  import opened JsonData
  import opened Financials
  import opened WidgetRender
  import opened Executor

  /** The chat entry the orchestrator appends for a widget output. */
  function Delivered(widgetsJson: string): ChatEntry {
    ChatEntry(WidgetKind, Some(WidgetOutput(widgetsJson)))
  }

  /** The client holds exactly the list the server serialised. */
  lemma DeliveredDetailsAreTheServerList(chat: seq<ChatEntry>, v: Json, dumps: Json -> string, parse: string -> Option<Json>)
    requires parse(dumps(v)) == Some(v)
    ensures LatestDetails(chat + [Delivered(dumps(v))], parse) == Some(v)
  {
    NewWidgetEntryWins(chat, Delivered(dumps(v)));
  }

  /**
   * After a turn that emitted its outputs, the client's details, serialised again, are
   * what the session records under "stock-widgets".
   */
  lemma ClientSeesSessionWidgets(history: seq<Message>, taskId: string, prompts: Prompts, c: Collaborators,
                                 chat: seq<ChatEntry>, parse: string -> Option<Json>)
    requires forall v :: parse(c.dumps(v)) == Some(v)
    requires |TurnEffects(history, taskId, prompts, c).outputs| == 2
    ensures var e := TurnEffects(history, taskId, prompts, c);
      var d := LatestDetails(chat + [ChatEntry(WidgetKind, Some(e.outputs[0].output))], parse);
      d.Some? && Some(c.dumps(d.value)) == e.widgetsJson
  {
    var e := TurnEffects(history, taskId, prompts, c);
    var context := ContextFor(history, prompts, c).value;
    var reply := AssistantReply(Prompted(context, history, prompts), c).value;
    var parsed := c.parse(reply).value;
    var widgets := if "widgets" in parsed.fields then Enriched(parsed.fields["widgets"], c.financialsFor).value else Arr([]);
    assert e.widgetsJson == Some(c.dumps(widgets));
    DeliveredDetailsAreTheServerList(chat, widgets, c.dumps, parse);
  }

  /** The rows the client draws for a column of entries. */
  function RowsFor(es: seq<Entry>): seq<Row> {
    seq(|es|, i requires 0 <= i < |es| => Row(Some(Str(es[i].date)), Num(es[i].value)))
  }

  lemma EntryRowsRender(es: seq<Entry>)
    ensures MapOrThrow(EntriesJson(es).items, RowOf) == Ok(RowsFor(es))
  {
    var items := EntriesJson(es).items;
    assert forall i :: 0 <= i < |items| ==> RowOf(items[i]) == Ok(RowsFor(es)[i]);
    var r := MapOrThrow(items, RowOf);
    assert r.Ok?;
    assert r.value == RowsFor(es);
  }

  /**
   * A spreadsheet the server filled renders on the client as a table of the column's
   * entries, in order, under the capitalised metric name.
   */
  lemma FilledSpreadsheetRenders(w: map<string, Json>, params: map<string, Json>, f: Json -> Option<Table>, metric: string)
    requires "type" in w && w["type"] == Str(SpreadsheetType)
    requires "parameters" in w && w["parameters"] == Obj(params)
    requires "symbol" in params && f(params["symbol"]).Some?
    requires "metric" in params && params["metric"] == Str(metric) && metric in f(params["symbol"]).value
    ensures var column := f(params["symbol"]).value[metric];
      && EnrichOne(Obj(w), f).Ok?
      && RenderOne(EnrichOne(Obj(w), f).value) == Ok(Some(Spreadsheet(Some(params["symbol"]), Capitalize(metric), RowsFor(column))))
  {
    var column := f(params["symbol"]).value[metric];
    SpreadsheetGetsItsColumn(w, params, f, metric);
    EntryRowsRender(column);
    assert TagOf(Some(Str("showSpreadsheet"))) == Some(ShowSpreadsheet);
  }

  /**
   * A spreadsheet whose metric is not a column of the symbol's financials reaches the
   * client without `data`, and the client's render of the whole list throws.
   */
  lemma UnfilledSpreadsheetCrashesClient(items: seq<Json>, i: nat, w: map<string, Json>, params: map<string, Json>,
                                         f: Json -> Option<Table>, chat: seq<ChatEntry>,
                                         dumps: Json -> string, parse: string -> Option<Json>)
    requires i < |items| && items[i] == Obj(w) && "data" !in w
    requires "type" in w && w["type"] == Str(SpreadsheetType)
    requires "parameters" in w && w["parameters"] == Obj(params)
    requires "symbol" in params && f(params["symbol"]).Some?
    requires "metric" in params && !(params["metric"].Str? && params["metric"].s in f(params["symbol"]).value)
    requires Enriched(Arr(items), f).Ok?
    requires parse(dumps(Enriched(Arr(items), f).value)) == Some(Enriched(Arr(items), f).value)
    ensures RenderWidget(chat + [Delivered(dumps(Enriched(Arr(items), f).value))], parse).Crashed?
  {
    var v := Enriched(Arr(items), f).value;
    UnmatchedMetricLeftAlone(w, params, f);
    assert v.items[i] == Obj(w);
    assert TagOf(Some(Str("showSpreadsheet"))) == Some(ShowSpreadsheet);
    assert RenderOne(v.items[i]).Err?;
    DeliveredDetailsAreTheServerList(chat, v, dumps, parse);
  }
}
