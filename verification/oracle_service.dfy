/**
 * The RedStone oracle service (`frontend/src/services/oracleService.js`):
 * route selection, price extraction from the several reply shapes,
 * batch fetching into a symbol-keyed map, condition checks and the record
 * sent to the ledger. `axios.get` is the `get` parameter; the clock reading
 * `new Date().toISOString()` is a `timestamp` parameter.
 */
module OracleService {
  import opened Wrappers
  import opened Js
  import Text
  import Url
  import OracleProxy

  const RedstoneApiUrl: string := "https://api.redstone.finance/prices"

  /** The build and browser facts the route choice reads: `import.meta.env.PROD` and `window.location.hostname`. */
  datatype Env = Env(prod: bool, hostname: string)

  /** An explicit `useProxy` wins; by default the proxy is used except in a development build served from localhost. */
  function UseProxyRoute(useProxy: Option<bool>, env: Env): (r: bool)
    ensures useProxy.Some? ==> r == useProxy.value
    ensures useProxy.None? ==> (!r <==> !env.prod && env.hostname == "localhost")
  {
    if useProxy.Some? then useProxy.value else env.prod || env.hostname != "localhost"
  }

  /** The URL fetched for `symbol`: the same-origin proxy route, or RedStone directly. */
  function PriceUrl(symbol: string, proxy: bool): string {
    var e := Url.Encode(Text.Upper(symbol));
    if proxy then "/api/oracle?symbol=" + e else RedstoneApiUrl + "?symbol=" + e + "&provider=redstone"
  }

  /**
   * Both routes reach the same upstream: the direct URL is exactly the one the
   * proxy handler builds for the upper-cased symbol, and the encoded symbol
   * cannot carry a second query parameter.
   */
  lemma RoutesAgree(symbol: string)
    ensures PriceUrl(symbol, false) == OracleProxy.PriceUrl(Text.Upper(symbol))
    ensures var e := Url.Encode(Text.Upper(symbol)); '&' !in e && '=' !in e && '#' !in e
  {
    Url.EncodeHasNoDelimiters(Text.Upper(symbol));
  }

  /** For an ASCII symbol the proxy route's query value decodes to the upper-cased symbol the handler reads. */
  lemma ProxyRouteDecodes(symbol: string)
    requires forall i :: 0 <= i < |symbol| ==> symbol[i] as int < 0x80
    ensures Url.DecodeAscii(Url.Encode(Text.Upper(symbol))) == Text.Upper(symbol)
  {
    var u := Text.Upper(symbol);
    forall i | 0 <= i < |u| ensures u[i] as int < 0x80 {
      assert u[i] == Text.UpperChar(symbol[i]);
    }
    Url.DecodeEncodeAscii(u);
  }

  /** Symbols differing only in ASCII case are fetched from the same URL. */
  lemma CaseInsensitiveUrl(symbol: string, proxy: bool)
    ensures PriceUrl(Text.Upper(symbol), proxy) == PriceUrl(symbol, proxy)
  {
    Text.UpperIdempotent(symbol);
  }

  /** The reply data from which no price can be read without a TypeError. */
  predicate Unreadable(data: Value) {
    || data.Undefined? || data.Null?
    || (data.Arr? && |data.items| > 0 && (data.items[0].Undefined? || data.items[0].Null?))
  }

  /**
   * The price found in RedStone's reply, trying in order a truthy `price`
   * field, a truthy `value` field, the first element of a non-empty array
   * (its `value`, else its `price`), and a bare number; `null` otherwise.
   * Reading a field of `null`/`undefined` fails with the TypeError message.
   */
  function ExtractPrice(data: Value): (r: Result<Value, string>)
    ensures r.Failure? <==> Unreadable(data)
    ensures data.Obj? && Truthy(Lookup(data.fields, "price")) ==> r == Success(Lookup(data.fields, "price"))
    ensures data.Obj? && !Truthy(Lookup(data.fields, "price")) ==> r == Success(Or(Lookup(data.fields, "value"), Null))
    ensures data.Arr? && |data.items| == 0 ==> r == Success(Null)
    ensures data.Arr? && |data.items| > 0 && data.items[0].Obj? ==>
      r == Success(Or(Lookup(data.items[0].fields, "value"), Lookup(data.items[0].fields, "price")))
    ensures data.Num? ==> r == Success(data)
    ensures data.Bool? || data.Str? ==> r == Success(Null)
  {
    var price :- Prop(data, "price");
    if Truthy(price) then Success(price)
    else
      var value := Prop(data, "value").value;
      if Truthy(value) then Success(value)
      else if data.Arr? && |data.items| > 0 then
        var first := data.items[0];
        match Prop(first, "value")
        case Failure(msg) => Failure(msg)
        case Success(v) => Success(if Truthy(v) then v else Prop(first, "price").value)
      else if data.Num? then Success(data)
      else Success(Null)
  }

  /** A truthy `price` beats `value`; a falsy `price` (0 included) falls through to `value`, and to `null` when that is falsy too. */
  lemma PricePrecedence(p: Value, v: Value)
    ensures Truthy(p) ==> ExtractPrice(Obj([("price", p), ("value", v)])) == Success(p)
    ensures !Truthy(p) && Truthy(v) ==> ExtractPrice(Obj([("price", p), ("value", v)])) == Success(v)
    ensures !Truthy(p) && !Truthy(v) ==> ExtractPrice(Obj([("price", p), ("value", v)])) == Success(Null)
  {
    var fs := [("price", p), ("value", v)];
    assert Lookup(fs, "price") == p by { assert fs[..1] == [("price", p)]; }
    assert Lookup(fs, "value") == v;
  }

  /**
   * An array reply yields its first element's `value`, falling back to that
   * element's `price`, and `undefined` when the element has neither; a `null`
   * first element throws, and an empty array reads as `null`.
   */
  lemma ArrayFirstElement(fields: seq<(string, Value)>, rest: seq<Value>, p: Value)
    requires forall i :: 0 <= i < |fields| ==> fields[i].0 != "value" && fields[i].0 != "price"
    ensures Truthy(p) ==> ExtractPrice(Arr([Obj(fields + [("value", p)])] + rest)) == Success(p)
    ensures ExtractPrice(Arr([Obj(fields + [("price", p)])] + rest)) == Success(p)
    ensures ExtractPrice(Arr([Obj(fields)] + rest)) == Success(Undefined)
    ensures ExtractPrice(Arr([Null] + rest)).Failure?
    ensures ExtractPrice(Arr([])) == Success(Null)
  {
    Js.LookupAbsent(fields, "value");
    Js.LookupAbsent(fields, "price");
    Js.LookupAt(fields + [("value", p)], "value", |fields|);
    Js.LookupAt(fields + [("price", p)], "price", |fields|);
    Js.LookupAbsent(fields + [("price", p)], "value");
    Js.LookupAbsent(fields + [("value", p)], "price");
    assert (Arr([Obj(fields + [("value", p)])] + rest)).items[0] == Obj(fields + [("value", p)]);
    assert (Arr([Obj(fields + [("price", p)])] + rest)).items[0] == Obj(fields + [("price", p)]);
    assert (Arr([Obj(fields)] + rest)).items[0] == Obj(fields);
    assert (Arr([Null] + rest)).items[0] == Null;
  }

  /** What the service hands back: the upper-cased symbol, the extracted price, the reply as received. */
  datatype OracleData = OracleData(symbol: string, price: Value, timestamp: string, source: string, rawData: Value)

  /** What `axios.get` settled to. */
  datatype Fetched = Got(data: Value) | GetFailed(message: string)

  type Get = string -> Fetched

  /** The message of the error `fetchPrice` rethrows. */
  function FailureMessage(symbol: string, message: string): (m: string)
    ensures m != ""
  {
    "Failed to fetch " + symbol + " price from RedStone: " + message
  }

  /**
   * `fetchPrice(symbol, useProxy)`: one GET of the chosen URL. A rejection or
   * an unreadable reply becomes an error naming the symbol as given; success
   * carries the upper-cased symbol, the source `RedStone` and the raw reply.
   */
  function FetchPrice(symbol: string, useProxy: Option<bool>, env: Env, get: Get, timestamp: string): (r: Result<OracleData, string>)
    ensures var reply := get(PriceUrl(symbol, UseProxyRoute(useProxy, env)));
      && (reply.GetFailed? ==> r == Failure(FailureMessage(symbol, reply.message)))
      && (reply.Got? ==> (r.Failure? <==> Unreadable(reply.data)))
      && (reply.Got? && r.Failure? ==> r == Failure(FailureMessage(symbol, ExtractPrice(reply.data).error)))
      && (r.Success? ==> reply.Got? && r.value == OracleData(Text.Upper(symbol), ExtractPrice(reply.data).value, timestamp, "RedStone", reply.data))
  {
    match get(PriceUrl(symbol, UseProxyRoute(useProxy, env)))
    case GetFailed(m) => Failure(FailureMessage(symbol, m))
    case Got(data) =>
      match ExtractPrice(data)
      case Failure(m) => Failure(FailureMessage(symbol, m))
      case Success(price) => Success(OracleData(Text.Upper(symbol), price, timestamp, "RedStone", data))
  }

  /** One value of the map `fetchMultiplePrices` resolves to. */
  datatype PriceEntry = Priced(data: OracleData) | Errored(error: string)

  /**
   * The key and value one settled fetch contributes: a failure is stored
   * under the symbol as given, a success under its upper-cased symbol.
   */
  function EntryOf(symbol: string, r: Result<OracleData, string>): (string, PriceEntry) {
    match r
    case Failure(m) => (symbol, Errored(m))
    case Success(d) => (d.symbol, Priced(d))
  }

  /** The `forEach` that fills the map: the entries written one after another, later writes replacing earlier ones. */
  function Assemble(entries: seq<(string, PriceEntry)>): map<string, PriceEntry> {
    if |entries| == 0 then map[]
    else Assemble(entries[..|entries| - 1])[entries[|entries| - 1].0 := entries[|entries| - 1].1]
  }

  /** Exactly the keys some entry wrote are present. */
  lemma {:induction false} AssembleKeys(entries: seq<(string, PriceEntry)>, k: string)
    ensures k in Assemble(entries) <==> exists i :: 0 <= i < |entries| && entries[i].0 == k
  {
    if |entries| > 0 {
      var init := entries[..|entries| - 1];
      AssembleKeys(init, k);
      if exists i :: 0 <= i < |init| && init[i].0 == k {
        var i :| 0 <= i < |init| && init[i].0 == k;
        assert entries[i].0 == k;
      }
      if k in Assemble(entries) && k != entries[|entries| - 1].0 {
        var i :| 0 <= i < |init| && init[i].0 == k;
        assert entries[i] == init[i];
      }
    }
  }

  /** A key holds the value of the last entry that wrote it. */
  lemma {:induction false} AssembleLast(entries: seq<(string, PriceEntry)>, i: nat)
    requires i < |entries|
    requires forall j :: i < j < |entries| ==> entries[j].0 != entries[i].0
    ensures entries[i].0 in Assemble(entries) && Assemble(entries)[entries[i].0] == entries[i].1
  {
    if i < |entries| - 1 {
      var init := entries[..|entries| - 1];
      assert init[i] == entries[i];
      assert entries[|entries| - 1].0 != entries[i].0;
      forall j | i < j < |init| ensures init[j].0 != init[i].0 {
        assert init[j] == entries[j];
      }
      AssembleLast(init, i);
    }
  }

  /** The settled fetch for each symbol, in order; every fetch reads the environment's default route. */
  function Entries(symbols: seq<string>, env: Env, get: Get, timestamps: nat -> string): (es: seq<(string, PriceEntry)>)
    ensures |es| == |symbols|
    ensures forall i :: 0 <= i < |symbols| ==> es[i] == EntryOf(symbols[i], FetchPrice(symbols[i], None, env, get, timestamps(i)))
  {
    seq(|symbols|, i requires 0 <= i < |symbols| => EntryOf(symbols[i], FetchPrice(symbols[i], None, env, get, timestamps(i))))
  }

  /**
   * `fetchMultiplePrices(symbols)`: every fetch settles; the map holds a key
   * for each symbol's entry and no other, and a key written once holds that
   * symbol's entry.
   */
  function FetchMultiplePrices(symbols: seq<string>, env: Env, get: Get, timestamps: nat -> string): (m: map<string, PriceEntry>)
    ensures var es := Entries(symbols, env, get, timestamps);
      forall k :: k in m <==> exists i :: 0 <= i < |symbols| && es[i].0 == k
    ensures var es := Entries(symbols, env, get, timestamps);
      forall i :: 0 <= i < |symbols| && (forall j :: i < j < |symbols| ==> es[j].0 != es[i].0) ==>
        es[i].0 in m && m[es[i].0] == es[i].1
  {
    var es := Entries(symbols, env, get, timestamps);
    assert forall k :: k in Assemble(es) <==> exists i :: 0 <= i < |symbols| && es[i].0 == k by {
      forall k ensures k in Assemble(es) <==> exists i :: 0 <= i < |symbols| && es[i].0 == k {
        AssembleKeys(es, k);
      }
    }
    assert forall i :: 0 <= i < |symbols| && (forall j :: i < j < |symbols| ==> es[j].0 != es[i].0) ==>
        es[i].0 in Assemble(es) && Assemble(es)[es[i].0] == es[i].1 by {
      forall i | 0 <= i < |symbols| && (forall j :: i < j < |symbols| ==> es[j].0 != es[i].0)
        ensures es[i].0 in Assemble(es) && Assemble(es)[es[i].0] == es[i].1 {
        AssembleLast(es, i);
      }
    }
    Assemble(es)
  }

  /**
   * The keys follow the outcome: a fetched symbol appears upper-cased, a
   * failed one as given, and a key written once holds that symbol's entry.
   */
  lemma MultipleKeys(symbols: seq<string>, env: Env, get: Get, timestamps: nat -> string, i: nat)
    requires i < |symbols|
    ensures var r := FetchPrice(symbols[i], None, env, get, timestamps(i));
      var m := FetchMultiplePrices(symbols, env, get, timestamps);
      && (r.Success? ==> Text.Upper(symbols[i]) in m)
      && (r.Failure? ==> symbols[i] in m)
  {
    var es := Entries(symbols, env, get, timestamps);
    assert es[i].0 in FetchMultiplePrices(symbols, env, get, timestamps);
  }

  /**
   * The last symbol wins: when two symbols differing only in case are both
   * fetched, the later fetch's data is kept under their common key.
   */
  lemma LaterSymbolWins(a: string, b: string, env: Env, get: Get, timestamps: nat -> string)
    requires Text.Upper(a) == Text.Upper(b)
    requires FetchPrice(b, None, env, get, timestamps(1)).Success?
    ensures FetchMultiplePrices([a, b], env, get, timestamps)[Text.Upper(a)] ==
      Priced(FetchPrice(b, None, env, get, timestamps(1)).value)
  {
    var es := Entries([a, b], env, get, timestamps);
    assert es[1] == (Text.Upper(b), Priced(FetchPrice(b, None, env, get, timestamps(1)).value));
  }

  /** A failed lower-case symbol is filed under the lower-case key, not the upper-case one a success would use. */
  lemma FailureKeptUnderGivenCase(env: Env, get: Get, timestamps: nat -> string)
    requires get(PriceUrl("btc", UseProxyRoute(None, env))).GetFailed?
    ensures "btc" in FetchMultiplePrices(["btc"], env, get, timestamps)
    ensures "BTC" !in FetchMultiplePrices(["btc"], env, get, timestamps)
  {
    var es := Entries(["btc"], env, get, timestamps);
    assert es[0].0 == "btc";
  }

  function Pow10(n: nat): (p: nat)
    ensures p >= 1
  {
    if n == 0 then 1 else 10 * Pow10(n - 1)
  }

  /** The length of the run of decimal digits `s` starts with. */
  function DigitRun(s: string): (k: nat)
    ensures k <= |s| && Text.AllDigits(s[..k])
    ensures k < |s| ==> !Text.IsDigit(s[k])
  {
    if |s| > 0 && Text.IsDigit(s[0]) then
      var k := 1 + DigitRun(s[1..]);
      assert s[..k] == [s[0]] + s[1..][..k - 1];
      k
    else 0
  }

  /** The digits before the point. */
  function WholeDigits(s: string): (w: string)
    ensures Text.AllDigits(w)
  {
    s[..DigitRun(s)]
  }

  /** The digits after the point that directly follows the whole digits; empty without a point. */
  function FractionDigits(s: string): (f: string)
    ensures Text.AllDigits(f)
  {
    var rest := s[DigitRun(s)..];
    if |rest| > 0 && rest[0] == '.' then WholeDigits(rest[1..]) else ""
  }

  /** The number `w.f` denotes. */
  function DecimalValue(w: string, f: string): (x: real)
    requires Text.AllDigits(w) && Text.AllDigits(f)
    ensures x >= 0.0
  {
    if |f| == 0 then Text.ParseDigits(w) as real
    else Text.ParseDigits(w) as real + Text.ParseDigits(f) as real / Pow10(|f|) as real
  }

  /** An unsigned decimal `digits[.digits]` prefix; none when no digit precedes or follows the point. */
  function ParseUnsigned(s: string): (r: Option<real>)
    ensures r.Some? ==> r.value >= 0.0
  {
    var w := WholeDigits(s);
    var f := FractionDigits(s);
    if |w| == 0 && |f| == 0 then None else Some(DecimalValue(w, f))
  }

  /** The characters `parseFloat` skips before the number: ECMAScript white space and line terminators. */
  predicate Space(c: char) {
    || c == '\t' || c == '\n' || c == '\U{000B}' || c == '\U{000C}' || c == '\r' || c == ' '
    || c == '\U{00A0}' || c == '\U{1680}' || ('\U{2000}' <= c <= '\U{200A}')
    || c == '\U{2028}' || c == '\U{2029}' || c == '\U{202F}' || c == '\U{205F}' || c == '\U{3000}' || c == '\U{FEFF}'
  }

  function TrimStart(s: string): (r: string)
    ensures |r| <= |s| && r == s[|s| - |r|..]
    ensures |r| > 0 ==> !Space(r[0])
  {
    if |s| > 0 && Space(s[0]) then TrimStart(s[1..]) else s
  }

  /** Unary minus; NaN stays NaN. */
  function Negate(x: Option<real>): Option<real> {
    match x
    case None => None
    case Some(v) => Some(-v)
  }

  /** `parseFloat` on text: leading white space, an optional sign, then the longest decimal prefix; none stands for NaN. */
  function ParseFloatText(s: string): Option<real> {
    var t := TrimStart(s);
    if |t| > 0 && t[0] == '-' then Negate(ParseUnsigned(t[1..]))
    else if |t| > 0 && t[0] == '+' then ParseUnsigned(t[1..])
    else ParseUnsigned(t)
  }

  /** `parseFloat` skips any leading white space, a vertical tab or a no-break space as much as a blank. */
  lemma ParseFloatSkipsSpace(ws: string, s: string)
    requires forall i :: 0 <= i < |ws| ==> Space(ws[i])
    ensures ParseFloatText(ws + s) == ParseFloatText(s)
  {
    TrimStartSkips(ws, s);
  }

  lemma {:induction false} TrimStartSkips(ws: string, s: string)
    requires forall i :: 0 <= i < |ws| ==> Space(ws[i])
    ensures TrimStart(ws + s) == TrimStart(s)
    decreases |ws|
  {
    if |ws| > 0 {
      var xs := ws + s;
      assert xs[0] == ws[0] && Space(xs[0]);
      assert TrimStart(xs) == TrimStart(xs[1..]);
      assert xs[1..] == ws[1..] + s;
      TrimStartSkips(ws[1..], s);
    } else {
      assert ws + s == s;
    }
  }

  /** `parseFloat(price)`: a number reads as itself, a string by its decimal prefix, anything else as NaN. */
  function ParseFloat(v: Value): (r: Option<real>)
    ensures v.Num? ==> r == Some(v.n)
    ensures v.Str? ==> r == ParseFloatText(v.s)
    ensures !v.Num? && !v.Str? ==> r.None?
  {
    match v
    case Num(n) => Some(n)
    case Str(s) => ParseFloatText(s)
    case _ => None
  }

  lemma {:induction false} DigitRunOfDigits(a: string, t: string)
    requires Text.AllDigits(a)
    requires |t| == 0 || !Text.IsDigit(t[0])
    ensures DigitRun(a + t) == |a|
    decreases |a|
  {
    if |a| > 0 {
      assert (a + t)[1..] == a[1..] + t;
      DigitRunOfDigits(a[1..], t);
    } else {
      assert a + t == t;
    }
  }

  lemma WholeWithoutFraction(a: string, t: string)
    requires Text.AllDigits(a)
    requires |t| == 0 || (!Text.IsDigit(t[0]) && t[0] != '.')
    ensures WholeDigits(a + t) == a && FractionDigits(a + t) == ""
  {
    DigitRunOfDigits(a, t);
    assert (a + t)[..|a|] == a;
    assert (a + t)[|a|..] == t;
  }

  /** A digit run not followed by a point reads as that whole number. */
  lemma ParseUnsignedWhole(a: string, t: string)
    requires |a| >= 1 && Text.AllDigits(a)
    requires |t| == 0 || (!Text.IsDigit(t[0]) && t[0] != '.')
    ensures ParseUnsigned(a + t) == Some(Text.ParseDigits(a) as real)
  {
    WholeWithoutFraction(a, t);
  }

  /** Digits, a point and digits read as the whole part plus the fraction. */
  lemma ParseUnsignedDecimal(a: string, b: string)
    requires Text.AllDigits(a) && Text.AllDigits(b) && |a| + |b| >= 1
    ensures ParseUnsigned(a + "." + b) == Some(DecimalValue(a, b))
  {
    var s := a + "." + b;
    DigitRunOfDigits(a, "." + b);
    assert s == a + ("." + b);
    assert s[..|a|] == a;
    assert s[|a|..] == "." + b;
    assert ("." + b)[1..] == b;
    DigitRunOfDigits(b, "");
    assert b + "" == b;
    assert WholeDigits(b) == b;
    assert WholeDigits(s) == a;
    assert FractionDigits(s) == b;
  }

  /** Leading digits read as their whole number. */
  lemma ParseFloatDigits(a: string, t: string)
    requires |a| >= 1 && Text.AllDigits(a)
    requires |t| == 0 || (!Text.IsDigit(t[0]) && t[0] != '.')
    ensures ParseFloatText(a + t) == Some(Text.ParseDigits(a) as real)
  {
    ParseUnsignedWhole(a, t);
    var s := a + t;
    assert Text.IsDigit(s[0]);
    DigitNotSpace(s[0]);
    assert TrimStart(s) == s;
    assert s[0] != '-' && s[0] != '+';
    assert ParseFloatText(s) == ParseUnsigned(s);
  }

  /**
   * `parseFloat` reads a rendered whole number back, ignoring any suffix that
   * does not continue the number (as in `"42 USD"`).
   */
  lemma ParseFloatWholeNumber(n: nat, t: string)
    requires |t| == 0 || (!Text.IsDigit(t[0]) && t[0] != '.')
    ensures ParseFloatText(Text.NatToString(n) + t) == Some(n as real)
  {
    Text.NatToStringRoundTrip(n);
    ParseFloatDigits(Text.NatToString(n), t);
  }

  /** A decimal in text form, as RedStone may send a price, keeps its fractional part. */
  lemma ParseFloatDecimal(a: string, b: string)
    requires |a| >= 1 && Text.AllDigits(a) && Text.AllDigits(b)
    ensures ParseFloatText(a + "." + b) == Some(DecimalValue(a, b))
  {
    ParseUnsignedDecimal(a, b);
    var s := a + "." + b;
    assert s[0] == a[0];
    DigitNotSpace(s[0]);
    assert TrimStart(s) == s;
    assert s[0] != '-' && s[0] != '+';
  }

  lemma DigitNotSpace(c: char)
    requires Text.IsDigit(c)
    ensures !Space(c) && c != '-' && c != '+'
  {
  }

  /** The comparison a market resolution condition asks for. */
  datatype Condition = Condition(operator: string, value: real)

  /** The operators `checkCondition` knows. */
  predicate KnownOperator(op: string) {
    op == ">" || op == ">=" || op == "<" || op == "<=" || op == "=="
  }

  /**
   * `checkCondition(oracleData, condition)`: false without a truthy price;
   * otherwise the parsed price compared with the condition's value, false
   * for NaN and for an unknown operator.
   */
  function CheckCondition(d: OracleData, c: Condition): (r: bool)
    ensures r ==> Truthy(d.price) && ParseFloat(d.price).Some? && KnownOperator(c.operator)
  {
    if !Truthy(d.price) then false
    else
      match ParseFloat(d.price)
      case None => false
      case Some(p) =>
        if c.operator == ">" then p > c.value
        else if c.operator == ">=" then p >= c.value
        else if c.operator == "<" then p < c.value
        else if c.operator == "<=" then p <= c.value
        else if c.operator == "==" then p == c.value
        else false
  }

  /**
   * With a readable price the operators pair up as complements and `==` is
   * `>=` and `<=` together; the comparison is the one on the parsed price.
   */
  lemma ConditionsComplement(d: OracleData, v: real)
    requires Truthy(d.price) && ParseFloat(d.price).Some?
    ensures CheckCondition(d, Condition(">", v)) == !CheckCondition(d, Condition("<=", v))
    ensures CheckCondition(d, Condition(">=", v)) == !CheckCondition(d, Condition("<", v))
    ensures CheckCondition(d, Condition("==", v)) ==
      (CheckCondition(d, Condition(">=", v)) && CheckCondition(d, Condition("<=", v)))
    ensures CheckCondition(d, Condition(">", v)) <==> ParseFloat(d.price).value > v
    ensures CheckCondition(d, Condition(">=", v)) <==> ParseFloat(d.price).value >= v
    ensures CheckCondition(d, Condition("<", v)) <==> ParseFloat(d.price).value < v
    ensures CheckCondition(d, Condition("<=", v)) <==> ParseFloat(d.price).value <= v
    ensures CheckCondition(d, Condition("==", v)) <==> ParseFloat(d.price).value == v
  {
  }

  /**
   * Without a truthy, parseable price every condition is false, including a
   * price of 0 against `<= 5`; complements then no longer hold.
   */
  lemma MissingPriceMeetsNothing(d: OracleData, c: Condition)
    requires !Truthy(d.price) || ParseFloat(d.price).None?
    ensures !CheckCondition(d, c)
    ensures d.price == Num(0.0) ==> !CheckCondition(d, Condition("<=", 5.0)) && !CheckCondition(d, Condition(">", 5.0))
  {
  }

  /**
   * A non-empty string price passes the truthiness guard and is compared by
   * its numeric prefix, so the text `"0 USD"` is compared as 0 where the
   * number 0 is rejected outright.
   */
  lemma StringPriceCompared(d: OracleData, n: nat, v: real)
    requires d.price == Str(Text.NatToString(n) + " USD")
    ensures CheckCondition(d, Condition(">=", v)) <==> n as real >= v
    ensures CheckCondition(d, Condition("<", v)) <==> n as real < v
  {
    assert Truthy(d.price);
    assert ParseFloat(d.price) == Some(n as real) by { ParseFloatWholeNumber(n, " USD"); }
  }

  /** The object `formatForLedger` serialises; `JSON.stringify` drops a key whose value is `undefined`. */
  function LedgerRecord(d: OracleData): (v: Value)
    ensures v.Obj? && |v.fields| == if d.price.Undefined? then 3 else 4
    ensures forall i :: 0 <= i < |v.fields| ==> v.fields[i].0 != "rawData"
  {
    if d.price.Undefined? then
      Obj([("symbol", Str(d.symbol)), ("timestamp", Str(d.timestamp)), ("source", Str(d.source))])
    else
      Obj([("symbol", Str(d.symbol)), ("price", d.price), ("timestamp", Str(d.timestamp)), ("source", Str(d.source))])
  }

  /** Reading the ledger record back gives every field of the oracle data except the raw reply. */
  lemma LedgerRecordReadsBack(d: OracleData)
    ensures var fs := LedgerRecord(d).fields;
      && Lookup(fs, "symbol") == Str(d.symbol)
      && Lookup(fs, "price") == d.price
      && Lookup(fs, "timestamp") == Str(d.timestamp)
      && Lookup(fs, "source") == Str(d.source)
      && Lookup(fs, "rawData") == Undefined
  {
    var fs := LedgerRecord(d).fields;
    forall i | 0 <= i < |fs| ensures fs[i].0 != "rawData" { }
    LookupAbsent(fs, "rawData");
    if d.price.Undefined? {
      LookupAt(fs, "symbol", 0);
      LookupAbsent(fs, "price");
      LookupAt(fs, "timestamp", 1);
      LookupAt(fs, "source", 2);
    } else {
      LookupAt(fs, "symbol", 0);
      LookupAt(fs, "price", 1);
      LookupAt(fs, "timestamp", 2);
      LookupAt(fs, "source", 3);
    }
  }
}
