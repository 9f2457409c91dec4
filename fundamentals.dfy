/**
 * `get_stock_fundamentals` of reasoning/app/agent/utils/stock_utils.py: a company profile
 * served from a twenty-minute cache when both of its entries are there, otherwise built
 * from the market-data client, with every missing field replaced by "not available",
 * and written back to the cache as a text and a JSON rendering.
 */
module Fundamentals {
  import opened Wrappers
  import opened JsonData
  import opened Financials

  const CacheSeconds: nat := 1200
  const NotAvailable: string := "not available"
  const KeyPrefix: string := "stock_fundamentals_"

  function TextKey(ticker: string): string {
    KeyPrefix + ticker + "_text"
  }

  function JsonKey(ticker: string): string {
    KeyPrefix + ticker + "_json"
  }

  /** The text and JSON entries never share a key, whatever the two tickers. */
  lemma TextAndJsonKeysDiffer(a: string, b: string)
    ensures TextKey(a) != JsonKey(b)
  {
    var t, j := TextKey(a), JsonKey(b);
    assert t[|t| - 1] == 't';
    assert j[|j| - 1] == 'n';
  }

  /** Different tickers are cached under different keys. */
  lemma TextKeyInjective(a: string, b: string)
    ensures TextKey(a) == TextKey(b) ==> a == b
  {
    var t, u := TextKey(a), TextKey(b);
    if t == u {
      assert t[|KeyPrefix|..|t| - 5] == a;
      assert u[|KeyPrefix|..|u| - 5] == b;
    }
  }

  lemma JsonKeyInjective(a: string, b: string)
    ensures JsonKey(a) == JsonKey(b) ==> a == b
  {
    var t, u := JsonKey(a), JsonKey(b);
    if t == u {
      assert t[|KeyPrefix|..|t| - 5] == a;
      assert u[|KeyPrefix|..|u| - 5] == b;
    }
  }

  /** The Redis store, holding the unpickled string of each key; expiry is not modelled. */
  class RedisCache {
    var entries: map<string, string>

    constructor (entries: map<string, string>)
      ensures this.entries == entries
    {
      this.entries := entries;
    }

    /** `get_cached_data`: the stored value, or nothing on a miss. */
    function Get(key: string): (r: Option<string>)
      reads this
      ensures r.Some? <==> key in entries
      ensures r.Some? ==> r.value == entries[key]
    {
      if key in entries then Some(entries[key]) else None
    }

    /** `set_cached_data`; the expiry in seconds is not modelled. */
    method SetEx(key: string, value: string, seconds: nat)
      modifies this
      ensures entries == old(entries)[key := value]
    {
      entries := entries[key := value];
    }
  }

  /** The cached pair, served only when both entries are present and non-empty. */
  function CachedPair(entries: map<string, string>, ticker: string): (r: Option<(string, string)>)
    ensures r.Some? <==> TextKey(ticker) in entries && JsonKey(ticker) in entries
                         && entries[TextKey(ticker)] != "" && entries[JsonKey(ticker)] != ""
    ensures r.Some? ==> r.value == (entries[TextKey(ticker)], entries[JsonKey(ticker)])
  {
    var text, json := TextKey(ticker), JsonKey(ticker);
    if text in entries && json in entries && entries[text] != "" && entries[json] != ""
    then Some((entries[text], entries[json]))
    else None
  }

  /** Once a fetch has written both entries, the next request for the ticker is a hit returning them. */
  lemma WrittenPairIsServed(entries: map<string, string>, ticker: string, text: string, json: string)
    requires text != "" && json != ""
    ensures CachedPair(entries[TextKey(ticker) := text][JsonKey(ticker) := json], ticker) == Some((text, json))
  {
    TextAndJsonKeysDiffer(ticker, ticker);
  }

  /** What `get_ticker_details` returns: an optional address and the other attributes; an absent attribute reads as null. */
  datatype Details = Details(address: Option<map<string, Json>>, attributes: map<string, Json>)

  const AddressFields: seq<string> := ["address1", "address2", "city", "state", "country", "postal_code"]

  const InfoFields: seq<string> := [
    "cik", "currency_name", "description", "homepage_url", "list_date", "locale", "market_cap",
    "name", "primary_exchange", "share_class_shares_outstanding", "sic_description", "ticker",
    "total_employees", "weighted_shares_outstanding"]

  function Attr(m: map<string, Json>, k: string): Json {
    if k in m then m[k] else Null
  }

  /** The profile before filling: every address field null when there is no address. */
  function RelevantInfo(d: Details): (info: map<string, Json>)
    ensures info.Keys == (set k | k in InfoFields) + {"address"}
    ensures info["address"].Obj? && info["address"].fields.Keys == set a | a in AddressFields
    ensures forall k :: k in InfoFields ==> info[k] == Attr(d.attributes, k)
    ensures d.address.Some? ==> forall a :: a in AddressFields ==> info["address"].fields[a] == Attr(d.address.value, a)
    ensures d.address.None? ==> forall a :: a in AddressFields ==> info["address"].fields[a] == Null
  {
    var address := map a | a in AddressFields :: if d.address.Some? then Attr(d.address.value, a) else Null;
    (map k | k in InfoFields :: Attr(d.attributes, k))["address" := Obj(address)]
  }

  function OrNotAvailable(v: Json): Json {
    if v == Null then Str(NotAvailable) else v
  }

  function FilledFields(fields: map<string, Json>): map<string, Json> {
    map a | a in fields :: OrNotAvailable(fields[a])
  }

  /** Every null value, including those of the address, replaced by "not available". */
  function Filled(info: map<string, Json>): map<string, Json> {
    map k | k in info :: if k == "address" && info[k].Obj? then Obj(FilledFields(info[k].fields)) else OrNotAvailable(info[k])
  }

  /** After filling, no field of the profile and no field of its address is null. */
  lemma FilledHasNoNull(info: map<string, Json>)
    ensures forall k :: k in Filled(info) ==> Filled(info)[k] != Null
    ensures "address" in info && info["address"].Obj? ==>
      && Filled(info)["address"].Obj?
      && forall a :: a in Filled(info)["address"].fields ==> Filled(info)["address"].fields[a] != Null
  {
  }

  /** Filling keeps every key and every value that was already there. */
  lemma FilledKeepsValues(info: map<string, Json>)
    ensures Filled(info).Keys == info.Keys
    ensures forall k :: k in info && k != "address" && info[k] != Null ==> Filled(info)[k] == info[k]
    ensures "address" in info && info["address"].Obj? ==>
      forall a :: a in info["address"].fields && info["address"].fields[a] != Null ==>
        Filled(info)["address"].fields[a] == info["address"].fields[a]
  {
  }

  /** Filling twice changes nothing more. */
  lemma {:induction false} FilledIdempotent(info: map<string, Json>)
    ensures Filled(Filled(info)) == Filled(info)
  {
    var f := Filled(info);
    forall k | k in f
      ensures Filled(f)[k] == f[k]
    {
      if k == "address" && info[k].Obj? {
        assert FilledFields(FilledFields(info[k].fields)) == FilledFields(info[k].fields);
      }
    }
  }

  /** The inner loop: each null address field becomes "not available". */
  method FillAddress(fields: map<string, Json>) returns (out: map<string, Json>)
    ensures out == FilledFields(fields)
  {
    out := fields;
    var pending := fields.Keys;
    while pending != {}
      invariant pending <= fields.Keys
      invariant out.Keys == fields.Keys
      invariant forall a :: a in fields ==> out[a] == if a in pending then fields[a] else OrNotAvailable(fields[a])
      decreases pending
    {
      var key :| key in pending;
      if fields[key] == Null {
        out := out[key := Str(NotAvailable)];
      }
      pending := pending - {key};
    }
  }

  /** The fill loop; the address is read as a dictionary, so it must be one. */
  method FillMissing(info: map<string, Json>) returns (out: map<string, Json>)
    requires "address" in info ==> info["address"].Obj?
    ensures out == Filled(info)
  {
    out := info;
    var pending := info.Keys;
    while pending != {}
      invariant pending <= info.Keys
      invariant out.Keys == info.Keys
      invariant forall k :: k in info ==> out[k] == if k in pending then info[k] else Filled(info)[k]
      decreases pending
    {
      var key :| key in pending;
      var value := info[key];
      if key == "address" {
        var filled := FillAddress(value.fields);
        out := out[key := Obj(filled)];
      } else if value == Null {
        out := out[key := Str(NotAvailable)];
      }
      pending := pending - {key};
    }
  }

  /** The snapshot: the day's close (absent when there is no day) and today's change. */
  datatype Snapshot = Snapshot(dayClose: Option<int>, todaysChange: Option<int>, todaysChangePercent: Option<int>)

  /** The text rendering formats the price and both changes as numbers: a missing one raises. */
  predicate SnapshotComplete(s: Option<Snapshot>) {
    s.Some? && s.value.dayClose.Some? && s.value.todaysChange.Some? && s.value.todaysChangePercent.Some?
  }

  /**
   * What one fetch sees: `None` details when the request raised, the snapshot, the
   * historical changes, the financials table (`None` when its fetch failed), and the two
   * renderings of the finished profile (text layout and `json.dumps`).
   */
  datatype Sources = Sources(
    details: Option<Details>,
    snapshot: Option<Snapshot>,
    historical: map<string, Json>,
    financials: Option<Table>,
    describe: (map<string, Json>, Option<Trailing>) -> string,
    dumps: map<string, Json> -> string)

  const MarketKeys: set<string> := {"live_price", "todays_change", "todays_change_percent", "historical_changes"}

  /** The filled profile with the market data added. */
  function WithMarketData(info: map<string, Json>, s: Snapshot, historical: map<string, Json>): (p: map<string, Json>)
    requires s.dayClose.Some? && s.todaysChange.Some? && s.todaysChangePercent.Some?
    ensures p.Keys == info.Keys + MarketKeys
    ensures forall k :: k in info && k !in MarketKeys ==> p[k] == info[k]
    ensures forall k :: k in MarketKeys ==> p[k] != Null
    ensures p["live_price"] == Num(s.dayClose.value)
    ensures p["todays_change"] == Num(s.todaysChange.value)
    ensures p["todays_change_percent"] == Num(s.todaysChangePercent.value)
    ensures p["historical_changes"] == Obj(historical)
  {
    info["live_price" := Num(s.dayClose.value)]
        ["todays_change" := Num(s.todaysChange.value)]
        ["todays_change_percent" := Num(s.todaysChangePercent.value)]
        ["historical_changes" := Obj(historical)]
  }

  /** The published profile has all fourteen attributes, the address and the four market fields, none null. */
  lemma PublishedProfileComplete(d: Details, s: Snapshot, historical: map<string, Json>)
    requires s.dayClose.Some? && s.todaysChange.Some? && s.todaysChangePercent.Some?
    ensures var p := WithMarketData(Filled(RelevantInfo(d)), s, historical);
      && p.Keys == (set k | k in InfoFields) + {"address"} + MarketKeys
      && (forall k :: k in p ==> p[k] != Null)
      && p["address"].Obj? && (forall a :: a in p["address"].fields ==> p["address"].fields[a] != Null)
  {
    var info := RelevantInfo(d);
    var f := Filled(info);
    FilledHasNoNull(info);
    FilledKeepsValues(info);
    assert "address" !in MarketKeys;
    var p := WithMarketData(f, s, historical);
    assert p["address"] == f["address"];
  }

  function ErrorText(ticker: string): string {
    "Error: Unable to fetch fundamental data for " + ticker
  }

  /** The fetch path: the text and JSON renderings, or the failure that ends in the error reply. */
  function Fetch(src: Sources): (r: Result<(string, string)>)
    ensures r.Ok? <==> src.details.Some? && SnapshotComplete(src.snapshot) && TrailingFigures(src.financials).Ok?
    ensures r.Ok? ==>
      var p := WithMarketData(Filled(RelevantInfo(src.details.value)), src.snapshot.value, src.historical);
      r.value == (src.describe(p, TrailingFigures(src.financials).value), src.dumps(p))
  {
    if src.details.None? then Err("request failed")
    else
      var trailing :- TrailingFigures(src.financials);
      if !SnapshotComplete(src.snapshot) then Err("TypeError")
      else
        var p := WithMarketData(Filled(RelevantInfo(src.details.value)), src.snapshot.value, src.historical);
        Ok((src.describe(p, trailing), src.dumps(p)))
  }

  /**
   * `get_stock_fundamentals`: a cache hit is returned as stored; otherwise a successful
   * fetch is written under both keys and returned, and a failed one returns the error
   * text and an empty JSON object without touching the cache.
   */
  method GetStockFundamentals(cache: RedisCache, ticker: string, src: Sources) returns (text: string, json: string)
    modifies cache
    ensures CachedPair(old(cache.entries), ticker).Some? ==>
      (text, json) == CachedPair(old(cache.entries), ticker).value && cache.entries == old(cache.entries)
    ensures CachedPair(old(cache.entries), ticker).None? ==>
      match Fetch(src)
      case Ok(pair) =>
        (text, json) == pair && cache.entries == old(cache.entries)[TextKey(ticker) := pair.0][JsonKey(ticker) := pair.1]
      case Err(_) =>
        text == ErrorText(ticker) && json == "{}" && cache.entries == old(cache.entries)
  {
    var cachedText := cache.Get(TextKey(ticker));
    var cachedJson := cache.Get(JsonKey(ticker));
    if cachedText.Some? && cachedText.value != "" && cachedJson.Some? && cachedJson.value != "" {
      return cachedText.value, cachedJson.value;
    }
    if src.details.None? {
      return ErrorText(ticker), "{}";
    }
    var info := FillMissing(RelevantInfo(src.details.value));
    var trailing := TrailingFigures(src.financials);
    if trailing.Err? || !SnapshotComplete(src.snapshot) {
      return ErrorText(ticker), "{}";
    }
    var profile := WithMarketData(info, src.snapshot.value, src.historical);
    text := src.describe(profile, trailing.value);
    json := src.dumps(profile);
    cache.SetEx(TextKey(ticker), text, CacheSeconds);
    cache.SetEx(JsonKey(ticker), json, CacheSeconds);
  }

  /**
   * Two requests for one ticker on an empty cache: when the first fetch succeeds with
   * non-empty renderings, the second is served from the cache, whatever its sources.
   */
  method AskTwice(ticker: string, first: Sources, second: Sources) returns (a: (string, string), b: (string, string))
    requires Fetch(first).Ok? && Fetch(first).value.0 != "" && Fetch(first).value.1 != ""
    ensures a == b == Fetch(first).value
  {
    var cache := new RedisCache(map[]);
    var t, j := GetStockFundamentals(cache, ticker, first);
    a := (t, j);
    WrittenPairIsServed(map[], ticker, t, j);
    t, j := GetStockFundamentals(cache, ticker, second);
    b := (t, j);
  }
}
