/**
 * What `FetchPriceFromApi` does with an upstream response once it has
 * arrived: reject failed or blank responses, parse the body, pick the
 * response shape from the URL, dig out the closing price, and turn every
 * failure (including every exception on the way) into "no price".
 * JSON parsing and `double.TryParse` are foreign and are given as
 * functions; the JSON document is an already-parsed value.
 */
module Extraction {

  import opened Wrappers

  /** A parsed JSON document. Object members keep their order and may repeat a name. */
  datatype Json =
    | JNull
    | JBool(b: bool)
    | JNumber(number: real)
    | JString(text: string)
    | JArray(items: seq<Json>)
    | JObject(members: seq<(string, Json)>)

  /** The HTTP response: whether it succeeded, and its body (null when absent). */
  datatype Response = Response(isSuccessful: bool, content: Option<string>)

  /** The foreign parsers: JsonDocument.Parse and double.TryParse; None stands for "throws" / "fails". */
  datatype Parsers = Parsers(parseJson: string -> Option<Json>, tryParseDouble: string -> Option<real>)

  /** The two upstream endpoints: hourly candles, latest one only. Written in short pieces so that
      the verifier can see which characters each holds where. */
  const BitstampUrl: string := "https://www." + "bitstamp" + ".net/api/v2/ohlc/btcusd/?step=3600&limit=1"
  const BitfinexUrl: string := "https://api." + "bitfinex" + ".com/v2/candles/" + "trade:1h:tBTCUSD" + "/hist?limit=1"

  /** Ordinal substring test, string.Contains. */
  predicate Contains(s: string, part: string)
  {
    exists i :: 0 <= i <= |s| - |part| && OccursAt(s, part, i)
  }

  predicate OccursAt(s: string, part: string, i: int)
    requires 0 <= i <= |s| - |part|
  {
    s[i..i + |part|] == part
  }

  /** The characters char.IsWhiteSpace accepts (the Unicode White_Space set). */
  predicate IsWhiteSpace(c: char)
  {
    var u := c as int;
    || u == 0x20 || 0x09 <= u <= 0x0D || u == 0x85 || u == 0xA0 || u == 0x1680
    || 0x2000 <= u <= 0x200A || u == 0x2028 || u == 0x2029 || u == 0x202F
    || u == 0x205F || u == 0x3000
  }

  predicate IsNullOrWhiteSpace(content: Option<string>)
  {
    content.None? || forall i :: 0 <= i < |content.value| ==> IsWhiteSpace(content.value[i])
  }

  // JsonElement accessors. Each returns None exactly where the library throws.

  /** The value of the last member called `name` (a repeated name matches its last definition). */
  function LastMember(members: seq<(string, Json)>, name: string): Option<Json>
  {
    if members == [] then None
    else if members[|members| - 1].0 == name then Some(members[|members| - 1].1)
    else LastMember(members[..|members| - 1], name)
  }

  /** GetProperty: throws on a non-object and on a missing name. */
  function GetProperty(e: Json, name: string): Option<Json>
  {
    if e.JObject? then LastMember(e.members, name) else None
  }

  /** GetArrayLength: throws on a non-array. */
  function GetArrayLength(e: Json): Option<nat>
  {
    if e.JArray? then Some(|e.items|) else None
  }

  /** The indexer e[i]: throws on a non-array and out of range. */
  function ElementAt(e: Json, i: nat): Option<Json>
  {
    if e.JArray? && i < |e.items| then Some(e.items[i]) else None
  }

  /** GetString: a string's text, null for JSON null; throws otherwise. */
  function GetString(e: Json): Option<Option<string>>
  {
    match e
    case JString(s) => Some(Some(s))
    case JNull => Some(None)
    case _ => None
  }

  /** GetDouble: throws on anything but a number. */
  function GetDouble(e: Json): Option<real>
  {
    if e.JNumber? then Some(e.number) else None
  }

  /** Bitstamp shape: root.data.ohlc[0].close, a string that must parse as a number. */
  function BitstampClose(root: Json, parsers: Parsers): Option<real>
  {
    match GetProperty(root, "data")
    case None => None
    case Some(data) =>
      match GetProperty(data, "ohlc")
      case None => None
      case Some(ohlc) =>
        match GetArrayLength(ohlc)
        case None => None
        case Some(n) =>
          if n == 0 then None
          else
            match GetProperty(ohlc.items[0], "close")
            case None => None
            case Some(close) =>
              match GetString(close)
              case None => None
              case Some(None) => None
              case Some(Some(text)) => parsers.tryParseDouble(text)
  }

  /** Bitfinex shape: root[0][2], a number. */
  function BitfinexClose(root: Json): Option<real>
  {
    match GetArrayLength(root)
    case None => None
    case Some(n) =>
      if n == 0 then None
      else
        match ElementAt(root.items[0], 2)
        case None => None
        case Some(close) => GetDouble(close)
  }

  /** FetchPriceFromApi, from the received response on. */
  function ExtractPrice(url: string, response: Response, parsers: Parsers): (r: Option<real>)
    ensures r.Some? ==> response.isSuccessful && !IsNullOrWhiteSpace(response.content)
    ensures r.Some? ==> Contains(url, "bitstamp") || Contains(url, "bitfinex")
  {
    if !response.isSuccessful || IsNullOrWhiteSpace(response.content) then None
    else
      match parsers.parseJson(response.content.value)
      case None => None
      case Some(root) =>
        if Contains(url, "bitstamp") then BitstampClose(root, parsers)
        else if Contains(url, "bitfinex") then BitfinexClose(root)
        else None
  }

  // An independent description of where each shape keeps its price.

  datatype Selector = Field(name: string) | Index(i: nat)

  /** Follows a path of member names and array positions; None as soon as a step does not apply. */
  function Navigate(e: Json, path: seq<Selector>): Option<Json>
    decreases path
  {
    if path == [] then Some(e)
    else
      match path[0]
      case Field(name) =>
        (match GetProperty(e, name)
         case None => None
         case Some(child) => Navigate(child, path[1..]))
      case Index(i) =>
        (match ElementAt(e, i)
         case None => None
         case Some(child) => Navigate(child, path[1..]))
  }

  const BitstampClosePath: seq<Selector> := [Field("data"), Field("ohlc"), Index(0), Field("close")]
  const BitfinexClosePath: seq<Selector> := [Index(0), Index(2)]

  /** A number is extracted exactly when the URL names a known source and the body is one that
      holds the closing price at that source's path (a parseable string for Bitstamp, a number for
      Bitfinex); the number is then that price. Bitstamp is chosen when the URL names both. */
  lemma ExtractPriceFollowsPath(url: string, response: Response, parsers: Parsers)
    ensures ExtractPrice(url, response, parsers)
         == if !response.isSuccessful || IsNullOrWhiteSpace(response.content) then None
            else match parsers.parseJson(response.content.value)
              case None => None
              case Some(root) =>
                if Contains(url, "bitstamp") then
                  (match Navigate(root, BitstampClosePath)
                   case Some(JString(text)) => parsers.tryParseDouble(text)
                   case _ => None)
                else if Contains(url, "bitfinex") then
                  (match Navigate(root, BitfinexClosePath)
                   case Some(JNumber(close)) => Some(close)
                   case _ => None)
                else None
  {
  }

  /** The Bitstamp chain of accesses reads exactly the close at `data.ohlc[0].close`, which must be a parseable string. */
  lemma BitstampCloseFollowsPath(root: Json, parsers: Parsers)
    ensures BitstampClose(root, parsers)
         == match Navigate(root, BitstampClosePath)
            case Some(JString(text)) => parsers.tryParseDouble(text)
            case _ => None
  {
  }

  /** The Bitfinex chain of accesses reads exactly the number at `[0][2]`. */
  lemma BitfinexCloseFollowsPath(root: Json)
    ensures BitfinexClose(root)
         == match Navigate(root, BitfinexClosePath)
            case Some(JNumber(close)) => Some(close)
            case _ => None
  {
  }

  /** A failed response or a blank body yields no price, whatever the URL. */
  lemma ExtractPriceRejectsFailedResponse(url: string, response: Response, parsers: Parsers)
    requires !response.isSuccessful || IsNullOrWhiteSpace(response.content)
    ensures ExtractPrice(url, response, parsers) == None
  {
  }

  /** A URL that names neither source yields no price, whatever the body. */
  lemma ExtractPriceRejectsUnknownSource(url: string, response: Response, parsers: Parsers)
    requires !Contains(url, "bitstamp") && !Contains(url, "bitfinex")
    ensures ExtractPrice(url, response, parsers) == None
  {
  }

  /** Bitstamp body with an empty data.ohlc array: no price. */
  lemma BitstampEmptyOhlc(url: string, response: Response, parsers: Parsers, root: Json)
    requires Contains(url, "bitstamp")
    requires response.content.Some? && parsers.parseJson(response.content.value) == Some(root)
    requires GetProperty(root, "data").Some? && GetProperty(GetProperty(root, "data").value, "ohlc") == Some(JArray([]))
    ensures ExtractPrice(url, response, parsers) == None
  {
  }

  /** Bitfinex body whose root array is empty: no price. */
  lemma BitfinexEmptyRoot(url: string, response: Response, parsers: Parsers)
    requires !Contains(url, "bitstamp") && Contains(url, "bitfinex")
    requires response.content.Some? && parsers.parseJson(response.content.value) == Some(JArray([]))
    ensures ExtractPrice(url, response, parsers) == None
  {
  }

  /** The two configured URLs select the two shapes: Bitstamp's names "bitstamp"; Bitfinex's names
      "bitfinex" and not "bitstamp", so the Bitstamp test that comes first lets it through to the
      Bitfinex shape. */
  lemma ConfiguredUrlsNameTheirSources()
    ensures Contains(BitstampUrl, "bitstamp")
    ensures Contains(BitfinexUrl, "bitfinex")
    ensures !Contains(BitfinexUrl, "bitstamp")
  {
    assert OccursAt(BitstampUrl, "bitstamp", 12);
    assert OccursAt(BitfinexUrl, "bitfinex", 12);
    assert forall j | 0 <= j < |BitfinexUrl| :: BitfinexUrl[j] == 'b' ==> j == 12;
    forall i | 0 <= i <= |BitfinexUrl| - 8 ensures !OccursAt(BitfinexUrl, "bitstamp", i) {
      assert BitfinexUrl[i..i + 8][0] == BitfinexUrl[i] && BitfinexUrl[i..i + 8][3] == BitfinexUrl[i + 3];
    }
  }

  /** With the configured URLs, the Bitstamp response is read in the Bitstamp shape and the Bitfinex
      response in the Bitfinex shape. */
  lemma ConfiguredUrlsSelectTheirShapes(response: Response, parsers: Parsers, root: Json)
    requires response.isSuccessful && !IsNullOrWhiteSpace(response.content)
    requires parsers.parseJson(response.content.value) == Some(root)
    ensures ExtractPrice(BitstampUrl, response, parsers) == BitstampClose(root, parsers)
    ensures ExtractPrice(BitfinexUrl, response, parsers) == BitfinexClose(root)
  {
    ConfiguredUrlsNameTheirSources();
  }

}
