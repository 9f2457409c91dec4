/**
 * The widget extractor and widget registry of the web client (`renderWidget` in
 * nextjs-client/src/app/page.tsx): find the most recent chat entry whose type is
 * "widget", parse the `details` string it carries, and map every descriptor of the
 * parsed array to the component its `type` tag names, or to null for an unknown tag.
 *
 * JavaScript values are `Option<Json>`: `None` is `undefined`. Reading a property of
 * `undefined` or `null` throws a TypeError; the model returns `Err` there, and a throw
 * anywhere while rendering makes the whole render `Crashed`.
 */
module WidgetRender {
  import opened Wrappers
  import opened JsonData

  /** One entry of the chat history owned by the orchestrator client. */
  datatype ChatEntry = ChatEntry(kind: string, message: Option<Json>)

  const WidgetKind: string := "widget"

  /** `chatHistory.findLast(chat => chat.type === 'widget')`, as an index. */
  function LastWidgetIndex(history: seq<ChatEntry>): (r: Option<nat>)
    ensures r.Some? ==> r.value < |history| && history[r.value].kind == WidgetKind
    ensures r.Some? ==> forall j :: r.value < j < |history| ==> history[j].kind != WidgetKind
    ensures r.None? ==> forall j :: 0 <= j < |history| ==> history[j].kind != WidgetKind
  {
    if history == [] then None
    else if history[|history| - 1].kind == WidgetKind then Some(|history| - 1)
    else LastWidgetIndex(history[..|history| - 1])
  }

  /** JavaScript truthiness: `undefined`, `null`, `false`, `0` and `""` are falsy. */
  predicate Truthy(v: Option<Json>) {
    match v
    case None => false
    case Some(Null) => false
    case Some(Bool(b)) => b
    case Some(Num(n)) => n != 0
    case Some(Str(s)) => s != ""
    case Some(_) => true
  }

  /** `v.key`; only the keys a descriptor is read with are ever asked for. */
  function Prop(v: Option<Json>, key: string): Result<Option<Json>> {
    match v
    case None => Err("TypeError")
    case Some(Null) => Err("TypeError")
    case Some(Obj(m)) => Ok(if key in m then Some(m[key]) else None)
    case Some(_) => Ok(None)
  }

  /** The value a destructuring `const { key } = d` binds, for a `d` that is not null. */
  function Field(d: Json, key: string): Option<Json> {
    if d.Obj? && key in d.fields then Some(d.fields[key]) else None
  }

  /**
   * `JSON.parse(widget.details)` inside the try block, with the catch block's `[]`.
   * A `details` that is not a string is treated as one that does not parse.
   */
  function ParsedDetails(widget: Option<Json>, parse: string -> Option<Json>): Json {
    match Prop(widget, "details")
    case Ok(Some(Str(text))) => (match parse(text) case Some(v) => v case None => Arr([]))
    case _ => Arr([])
  }

  /**
   * What `details` holds once the early `return null` has been passed: `None` when there is
   * no widget entry or its message is falsy.
   */
  function LatestDetails(history: seq<ChatEntry>, parse: string -> Option<Json>): Option<Json> {
    match LastWidgetIndex(history)
    case None => None
    case Some(i) =>
      var widget := history[i].message;
      if Truthy(widget) then Some(ParsedDetails(widget, parse)) else None
  }

  /** The eleven cases of the `switch (type)`. */
  datatype Tag =
    | ShowStockPrice | ShowStockChart | ShowStockFinancials | ShowStockNews
    | ShowStockScreener | ShowMarketOverview | ShowMarketHeatmap | ShowETFHeatmap
    | ShowTrendingStocks | ShowInformation | ShowSpreadsheet

  function TagName(t: Tag): string {
    match t
    case ShowStockPrice => "showStockPrice"
    case ShowStockChart => "showStockChart"
    case ShowStockFinancials => "showStockFinancials"
    case ShowStockNews => "showStockNews"
    case ShowStockScreener => "showStockScreener"
    case ShowMarketOverview => "showMarketOverview"
    case ShowMarketHeatmap => "showMarketHeatmap"
    case ShowETFHeatmap => "showETFHeatmap"
    case ShowTrendingStocks => "showTrendingStocks"
    case ShowInformation => "showInformation"
    case ShowSpreadsheet => "showSpreadsheet"
  }

  /** Strict equality of the descriptor's `type` against the case labels. */
  function TagOf(v: Option<Json>): (r: Option<Tag>)
    ensures r.Some? ==> v == Some(Str(TagName(r.value)))
    ensures r.None? ==> forall t :: v != Some(Str(TagName(t)))
  {
    if v.Some? && v.value.Str? then
      var s := v.value.s;
      if s == "showStockPrice" then Some(ShowStockPrice)
      else if s == "showStockChart" then Some(ShowStockChart)
      else if s == "showStockFinancials" then Some(ShowStockFinancials)
      else if s == "showStockNews" then Some(ShowStockNews)
      else if s == "showStockScreener" then Some(ShowStockScreener)
      else if s == "showMarketOverview" then Some(ShowMarketOverview)
      else if s == "showMarketHeatmap" then Some(ShowMarketHeatmap)
      else if s == "showETFHeatmap" then Some(ShowETFHeatmap)
      else if s == "showTrendingStocks" then Some(ShowTrendingStocks)
      else if s == "showInformation" then Some(ShowInformation)
      else if s == "showSpreadsheet" then Some(ShowSpreadsheet)
      else None
    else None
  }

  /** One table row of the spreadsheet widget: `item.date` and `item.value`. */
  datatype Row = Row(date: Option<Json>, value: Json)

  /** The component each case renders, with the props it is given. */
  datatype Widget =
    | StockPrice(symbol: Option<Json>)
    | StockChart(symbol: Option<Json>, comparisonSymbols: Option<Json>)
    | StockFinancials(symbol: Option<Json>)
    | StockNews(symbol: Option<Json>)
    | StockScreener
    | MarketOverview
    | MarketHeatmap
    | EtfHeatmap
    | MarketTrending
    | Information(title: Option<Json>, content: Option<Json>)
    | Spreadsheet(symbol: Option<Json>, metricLabel: string, rows: seq<Row>)

  function KindOf(w: Widget): Tag {
    match w
    case StockPrice(_) => ShowStockPrice
    case StockChart(_, _) => ShowStockChart
    case StockFinancials(_) => ShowStockFinancials
    case StockNews(_) => ShowStockNews
    case StockScreener => ShowStockScreener
    case MarketOverview => ShowMarketOverview
    case MarketHeatmap => ShowMarketHeatmap
    case EtfHeatmap => ShowETFHeatmap
    case MarketTrending => ShowTrendingStocks
    case Information(_, _) => ShowInformation
    case Spreadsheet(_, _, _) => ShowSpreadsheet
  }

  /** The cases whose markup reads `parameters.<something>`. */
  predicate ReadsParameters(t: Tag) {
    t in {ShowStockPrice, ShowStockChart, ShowStockFinancials, ShowStockNews, ShowInformation, ShowSpreadsheet}
  }

  /** `s.toUpperCase()` on one character, for the ASCII letters only (see the README). */
  function UpperChar(c: char): char {
    if 'a' <= c <= 'z' then (c as int - 32) as char else c
  }

  /** `metric.charAt(0).toUpperCase() + metric.slice(1)`. */
  function Capitalize(s: string): string {
    if s == "" then "" else [UpperChar(s[0])] + s[1..]
  }

  /** `{ date, value }` of one element of `data`; `value.toLocaleString()` throws on undefined and null. */
  function RowOf(item: Json): (r: Result<Row>)
    ensures r.Ok? <==> !item.Null? && Field(item, "value").Some? && !Field(item, "value").value.Null?
    ensures r.Ok? ==> r.value == Row(Field(item, "date"), Field(item, "value").value)
  {
    var date :- Prop(Some(item), "date");
    var value :- Prop(Some(item), "value");
    if value.None? || value.value.Null? then Err("TypeError") else Ok(Row(date, value.value))
  }

  /** `data.map(...)`: anything but an array has no `map` to call. */
  function RowsOf(data: Option<Json>): (r: Result<seq<Row>>)
    ensures r.Ok? ==> data.Some? && data.value.Arr? && |r.value| == |data.value.items|
    ensures r.Ok? ==> forall i :: 0 <= i < |r.value| ==> RowOf(data.value.items[i]) == Ok(r.value[i])
    ensures !(data.Some? && data.value.Arr?) ==> r.Err?
    ensures data.Some? && data.value.Arr? ==> (r.Err? <==> exists i :: 0 <= i < |data.value.items| && RowOf(data.value.items[i]).Err?)
  {
    if data.Some? && data.value.Arr? then MapOrThrow(data.value.items, RowOf) else Err("TypeError")
  }

  /** The body of one `case`, given the destructured `parameters` and `data`. */
  function Build(tag: Tag, params: Option<Json>, data: Option<Json>): (r: Result<Widget>)
    ensures r.Ok? ==> KindOf(r.value) == tag
    ensures !ReadsParameters(tag) ==> r.Ok?
    ensures ReadsParameters(tag) && (params.None? || params == Some(Null)) ==> r.Err?
    ensures ReadsParameters(tag) && tag != ShowSpreadsheet && params.Some? && params != Some(Null) ==> r.Ok?
    ensures tag == ShowSpreadsheet ==>
      (r.Ok? <==> && params.Some? && params != Some(Null)
                  && Field(params.value, "metric").Some? && Field(params.value, "metric").value.Str?
                  && RowsOf(data).Ok?)
    ensures r.Ok? && (r.value.StockPrice? || r.value.StockFinancials? || r.value.StockNews?) ==>
      params.Some? && r.value.symbol == Field(params.value, "symbol")
    ensures r.Ok? && r.value.StockChart? ==>
      params.Some? && r.value.symbol == Field(params.value, "symbol")
      && r.value.comparisonSymbols == Field(params.value, "comparisonSymbols")
    ensures r.Ok? && r.value.Information? ==>
      params.Some? && r.value.title == Field(params.value, "title") && r.value.content == Field(params.value, "content")
    ensures r.Ok? && r.value.Spreadsheet? ==>
      && params.Some? && r.value.symbol == Field(params.value, "symbol")
      && r.value.metricLabel == Capitalize(Field(params.value, "metric").value.s)
      && r.value.rows == RowsOf(data).value
  {
    match tag
    case ShowStockPrice =>
      var symbol :- Prop(params, "symbol");
      Ok(StockPrice(symbol))
    case ShowStockChart =>
      var symbol :- Prop(params, "symbol");
      Ok(StockChart(symbol, Field(params.value, "comparisonSymbols")))
    case ShowStockFinancials =>
      var symbol :- Prop(params, "symbol");
      Ok(StockFinancials(symbol))
    case ShowStockNews =>
      var symbol :- Prop(params, "symbol");
      Ok(StockNews(symbol))
    case ShowStockScreener => Ok(StockScreener)
    case ShowMarketOverview => Ok(MarketOverview)
    case ShowMarketHeatmap => Ok(MarketHeatmap)
    case ShowETFHeatmap => Ok(EtfHeatmap)
    case ShowTrendingStocks => Ok(MarketTrending)
    case ShowInformation =>
      var title :- Prop(params, "title");
      Ok(Information(title, Field(params.value, "content")))
    case ShowSpreadsheet =>
      var symbol :- Prop(params, "symbol");
      var metric := Field(params.value, "metric");
      if metric.None? || !metric.value.Str? then Err("TypeError")
      else
        var rows :- RowsOf(data);
        Ok(Spreadsheet(symbol, Capitalize(metric.value.s), rows))
  }

  /**
   * One descriptor through `const { type, parameters, data } = widget` and the `switch`:
   * `Ok(None)` is the `default: return null` slot.
   */
  function RenderOne(d: Json): (r: Result<Option<Widget>>)
    ensures d.Null? ==> r.Err?
    ensures r == Ok(None) <==> !d.Null? && TagOf(Field(d, "type")).None?
    ensures r.Ok? && r.value.Some? ==> TagOf(Field(d, "type")) == Some(KindOf(r.value.value))
    ensures !d.Null? && TagOf(Field(d, "type")).Some? ==>
      var b := Build(TagOf(Field(d, "type")).value, Field(d, "parameters"), Field(d, "data"));
      && (r.Err? <==> b.Err?)
      && (b.Ok? ==> r == Ok(Some(b.value)))
  {
    if d.Null? then Err("TypeError")
    else
      match TagOf(Field(d, "type"))
      case None => Ok(None)
      case Some(tag) =>
        var w :- Build(tag, Field(d, "parameters"), Field(d, "data"));
        Ok(Some(w))
  }

  /** What `renderWidget` produces: nothing, one slot per descriptor, or a render that threw. */
  datatype Rendered = NoWidget | Widgets(slots: seq<Option<Widget>>) | Crashed(error: string)

  function RenderWidget(history: seq<ChatEntry>, parse: string -> Option<Json>): (r: Rendered)
    ensures LastWidgetIndex(history).None? ==> r == NoWidget
    ensures var d := LatestDetails(history, parse);
            (d.None? || !d.value.Arr? || d.value.items == []) ==> r == NoWidget
    ensures var d := LatestDetails(history, parse);
            r.Widgets? ==> d.Some? && d.value.Arr? && 0 < |r.slots| == |d.value.items| &&
                           forall i :: 0 <= i < |r.slots| ==> RenderOne(d.value.items[i]) == Ok(r.slots[i])
    ensures var d := LatestDetails(history, parse);
            r.Crashed? <==> d.Some? && d.value.Arr? && exists i :: 0 <= i < |d.value.items| && RenderOne(d.value.items[i]).Err?
    ensures var d := LatestDetails(history, parse);
            (&& d.Some? && d.value.Arr? && d.value.items != []
             && forall i :: 0 <= i < |d.value.items| ==> RenderOne(d.value.items[i]).Ok?) ==> r.Widgets?
  {
    match LatestDetails(history, parse)
    case None => NoWidget
    case Some(details) =>
      if details.Arr? && |details.items| > 0 then
        match MapOrThrow(details.items, RenderOne)
        case Ok(slots) => Widgets(slots)
        case Err(e) => Crashed(e)
      else NoWidget
  }

  /** Entries appended after the latest widget entry that are not widgets leave it the latest. */
  lemma {:induction false} LaterEntriesKeepIndex(history: seq<ChatEntry>, later: seq<ChatEntry>)
    requires forall j :: 0 <= j < |later| ==> later[j].kind != WidgetKind
    ensures LastWidgetIndex(history + later) == LastWidgetIndex(history)
  {
    if later == [] {
      assert history + later == history;
    } else {
      var whole := history + later;
      assert whole[|whole| - 1] == later[|later| - 1];
      assert whole[..|whole| - 1] == history + later[..|later| - 1];
      LaterEntriesKeepIndex(history, later[..|later| - 1]);
    }
  }

  /** ... and so they change nothing on screen. */
  lemma LaterEntriesKeepWidget(history: seq<ChatEntry>, later: seq<ChatEntry>, parse: string -> Option<Json>)
    requires forall j :: 0 <= j < |later| ==> later[j].kind != WidgetKind
    ensures RenderWidget(history + later, parse) == RenderWidget(history, parse)
  {
    LaterEntriesKeepIndex(history, later);
    var i := LastWidgetIndex(history);
    if i.Some? {
      assert (history + later)[i.value] == history[i.value];
    }
  }

  /** A newly appended widget entry is the one rendered from then on. */
  lemma NewWidgetEntryWins(history: seq<ChatEntry>, entry: ChatEntry)
    requires entry.kind == WidgetKind
    ensures LastWidgetIndex(history + [entry]) == Some(|history|)
  {
  }

  /** A `details` string that does not parse renders nothing, and nothing is thrown. */
  lemma ParseFailureRendersNothing(history: seq<ChatEntry>, parse: string -> Option<Json>, i: nat, fields: map<string, Json>)
    requires LastWidgetIndex(history) == Some(i)
    requires history[i].message == Some(Obj(fields))
    requires "details" in fields && fields["details"].Str? && parse(fields["details"].s).None?
    ensures RenderWidget(history, parse) == NoWidget
  {
  }

  /** The eleven case labels are distinct, so the `switch` is a closed dispatch. */
  lemma TagNameInjective(a: Tag, b: Tag)
    ensures TagName(a) == TagName(b) ==> a == b
  {
    assert TagOf(Some(Str(TagName(a)))) == Some(a);
  }

  /** Only the first character of the metric name changes, and capitalising twice changes nothing more. */
  lemma CapitalizeFirstOnly(s: string)
    ensures |Capitalize(s)| == |s|
    ensures forall i :: 0 < i < |s| ==> Capitalize(s)[i] == s[i]
    ensures s != "" ==> !('a' <= Capitalize(s)[0] <= 'z')
    ensures Capitalize(Capitalize(s)) == Capitalize(s)
  {
  }

  /** The first worked example: one price descriptor for NVDA renders one StockPrice slot. */
  lemma PriceWidgetScenario(details: string, parse: string -> Option<Json>)
    requires parse(details) == Some(Arr([Obj(map["type" := Str("showStockPrice"), "parameters" := Obj(map["symbol" := Str("NVDA")])])]))
    ensures RenderWidget([ChatEntry("widget", Some(Obj(map["details" := Str(details)])))], parse)
            == Widgets([Some(StockPrice(Some(Str("NVDA"))))])
  {
  }

  /** The second worked example: a `details` that is not JSON renders nothing. */
  lemma MalformedDetailsScenario(parse: string -> Option<Json>)
    requires parse("not json").None?
    ensures RenderWidget([ChatEntry("widget", Some(Obj(map["details" := Str("not json")])))], parse) == NoWidget
  {
  }
}
