/** The futures position client of LNMarkets/Positions.py.

    Amounts written with "%.2f" (leverage, price, stoploss, takeprofit, value)
    are fixed-point hundredths; margins, quantities, amounts and profits are
    integers. */
module Positions {

  import opened Wrappers
  import opened Text
  import opened Json
  import opened Http

  /** A position as the server lists it. */
  datatype Position = Position(
    pid: string,
    side: string,      // "b" or "s"
    closed: bool,
    canceled: bool,
    margin: int,
    pl: int)

  /** The decoded body of a listing: position sets by name ("open", "closed", ...). */
  type Listing = map<string, seq<Position>>

  // ---------------------------------------------------------------------------
  // getPositions

  function PositionsRequest(token: string, kind: Option<string>): Request {
    Request(Get, Lnapi + PositionUrl,
            if kind.None? then [] else [("type", Text(kind.value))],
            Bearer(token), None)
  }

  /** Retrieves a position listing, filtered by the "type" parameter only when
      one is given. */
  function GetPositions<T>(token: string, kind: Option<string>, server: Request -> HttpResponse<T>): (r: Call<T>)
    ensures |r.sent| == 1 && r.sent[0].verb == Get && r.sent[0].url == Lnapi + PositionUrl
    ensures r.sent[0].authorization == Bearer(token) && r.sent[0].body.None?
    ensures Lookup(r.sent[0].params, "type") == if kind.None? then None else Some(Text(kind.value))
    ensures kind.None? ==> r.sent[0].params == []
    ensures kind.Some? ==> r.sent[0].params == [("type", Text(kind.value))]
    ensures r.result.Ok? <==> server(r.sent[0]).status == 200
    ensures r.result.Ok? ==> r.result.value == server(r.sent[0]).json
    ensures r.result.Err? ==> r.result.error == RuntimeError(
      if kind.None? then "Unable to get positions" else "Unable to get positions: " + server(r.sent[0]).text)
  {
    var req := PositionsRequest(token, kind);
    if kind.None? then
      var resp := server(req);
      Call([req], if resp.status == 200 then Ok(resp.json) else Err(RuntimeError("Unable to get positions")))
    else
      Exchange(req, server, "Unable to get positions: ")
  }

  // ---------------------------------------------------------------------------
  // createPosition and its forwarders

  /** The arguments of createPosition after the token. */
  datatype OrderForm = OrderForm(
    kind: string,              // "l" for a limit order, "m" for a market order
    side: string,              // "b" for buy, "s" for sell
    leverage: int,
    margin: Option<int>,
    quantity: Option<int>,
    stoploss: Option<int>,
    takeprofit: Option<int>,
    price: Option<int>)

  const MissingSize := "Either margin or quantity must be provided"
  const MissingPrice := "Limit Price must be pprovided for limit order"

  /** The checks createPosition makes before anything is sent: a margin or a
      quantity, and a price for a limit order. */
  predicate ValidOrder(o: OrderForm) {
    (o.margin.Some? || o.quantity.Some?) && (o.kind == "l" ==> o.price.Some?)
  }

  /** The fields of the order body: type, side and leverage; the price of a
      limit order; the margin when one is given and otherwise the quantity;
      then stoploss and takeprofit when given. */
  function OrderFields(o: OrderForm): seq<Field>
    requires ValidOrder(o)
  {
    HeadPart(o) + PricePart(o) + SizePart(o) + StopPart(o) + TakePart(o)
  }

  function HeadPart(o: OrderForm): seq<Field> {
    [Field("type", Str(o.kind)), Field("side", Str(o.side)), Field("leverage", Fixed(o.leverage))]
  }

  function PricePart(o: OrderForm): seq<Field>
    requires ValidOrder(o)
  {
    if o.kind == "l" then [Field("price", Fixed(o.price.value))] else []
  }

  function SizePart(o: OrderForm): seq<Field>
    requires ValidOrder(o)
  {
    if o.margin.None? then [Field("quantity", Int(o.quantity.value))] else [Field("margin", Int(o.margin.value))]
  }

  function StopPart(o: OrderForm): seq<Field> {
    if o.stoploss.Some? then [Field("stoploss", Fixed(o.stoploss.value))] else []
  }

  function TakePart(o: OrderForm): seq<Field> {
    if o.takeprofit.Some? then [Field("takeprofit", Fixed(o.takeprofit.value))] else []
  }

  /** Where each key of the order body may stand. */
  function OrderRank(key: string): nat {
    if key == "type" then 0
    else if key == "side" then 1
    else if key == "leverage" then 2
    else if key == "price" then 3
    else if key == "margin" || key == "quantity" then 4
    else if key == "stoploss" then 5
    else if key == "takeprofit" then 6
    else 7
  }

  /** The keys the order body carries, in the order they are written. */
  function OrderKeyList(o: OrderForm): seq<string> {
    ["type", "side", "leverage"] + KeyIf(o.kind == "l", "price")
    + [if o.margin.Some? then "margin" else "quantity"]
    + KeyIf(o.stoploss.Some?, "stoploss") + KeyIf(o.takeprofit.Some?, "takeprofit")
  }

  /** The keys of the order body, in the order they are written. */
  lemma OrderKeys(o: OrderForm)
    requires ValidOrder(o)
    ensures Keys(OrderFields(o)) == OrderKeyList(o)
  {
    var head, pr, size, sl, tp := HeadPart(o), PricePart(o), SizePart(o), StopPart(o), TakePart(o);
    assert Keys(head) == ["type", "side", "leverage"];
    assert Keys(pr) == KeyIf(o.kind == "l", "price");
    assert Keys(size) == [if o.margin.Some? then "margin" else "quantity"];
    assert Keys(sl) == KeyIf(o.stoploss.Some?, "stoploss");
    assert Keys(tp) == KeyIf(o.takeprofit.Some?, "takeprofit");
    KeysAppend(head + pr + size + sl, tp);
    KeysAppend(head + pr + size, sl);
    KeysAppend(head + pr, size);
    KeysAppend(head, pr);
  }

  /** The order body carries a price exactly for limit orders, exactly one of
      margin and quantity (margin whenever it is given), and stoploss and
      takeprofit exactly when they are given. */
  lemma OrderFieldsPresence(o: OrderForm)
    requires ValidOrder(o)
    ensures var keys := Keys(OrderFields(o));
      && ("price" in keys <==> o.kind == "l")
      && ("margin" in keys <==> o.margin.Some?)
      && ("quantity" in keys <==> o.margin.None?)
      && ("stoploss" in keys <==> o.stoploss.Some?)
      && ("takeprofit" in keys <==> o.takeprofit.Some?)
  {
    OrderKeys(o);
    KeyListPresence(o);
  }

  lemma KeyListPresence(o: OrderForm)
    ensures var keys := OrderKeyList(o);
      && ("price" in keys <==> o.kind == "l")
      && ("margin" in keys <==> o.margin.Some?)
      && ("quantity" in keys <==> o.margin.None?)
      && ("stoploss" in keys <==> o.stoploss.Some?)
      && ("takeprofit" in keys <==> o.takeprofit.Some?)
  {
  }

  /** The order body keeps its keys in one fixed order, each at most once,
      and uses no other key. */
  lemma OrderFieldsOrdered(o: OrderForm)
    requires ValidOrder(o)
    ensures Ascending(Keys(OrderFields(o)), OrderRank)
    ensures RankedBelow(Keys(OrderFields(o)), OrderRank, 7)
  {
    OrderKeys(o);
    KeyListOrdered(o);
  }

  lemma KeyListOrdered(o: OrderForm)
    ensures Ascending(OrderKeyList(o), OrderRank) && RankedBelow(OrderKeyList(o), OrderRank, 7)
  {
    var k0 := ["type", "side", "leverage"];
    var k1 := k0 + KeyIf(o.kind == "l", "price");
    var size := if o.margin.Some? then "margin" else "quantity";
    var k2 := k1 + [size];
    assert KeyIf(true, size) == [size];
    var k3 := k2 + KeyIf(o.stoploss.Some?, "stoploss");
    OrderRanks();
    assert OrderRank(size) == 4;
    HeadRanked();
    AscendingKeyIf(k0, o.kind == "l", "price", OrderRank, 3);
    AscendingKeyIf(k1, true, size, OrderRank, 4);
    AscendingKeyIf(k2, o.stoploss.Some?, "stoploss", OrderRank, 5);
    AscendingKeyIf(k3, o.takeprofit.Some?, "takeprofit", OrderRank, 6);
  }

  lemma HeadRanked()
    ensures Ascending(["type", "side", "leverage"], OrderRank) && RankedBelow(["type", "side", "leverage"], OrderRank, 3)
  {
    OrderRanks();
  }

  lemma OrderRanks()
    ensures OrderRank("type") == 0 && OrderRank("side") == 1 && OrderRank("leverage") == 2
    ensures OrderRank("price") == 3 && OrderRank("margin") == 4 && OrderRank("quantity") == 4
    ensures OrderRank("stoploss") == 5 && OrderRank("takeprofit") == 6
  {
  }

  /** The order body starts with type, side and leverage, and carries each
      given amount under its own key. */
  lemma OrderFieldsValues(o: OrderForm)
    requires ValidOrder(o)
    ensures var fs := OrderFields(o);
      && |fs| >= 4
      && fs[..3] == [Field("type", Str(o.kind)), Field("side", Str(o.side)), Field("leverage", Fixed(o.leverage))]
      && (o.kind == "l" ==> Field("price", Fixed(o.price.value)) in fs)
      && (o.margin.Some? ==> Field("margin", Int(o.margin.value)) in fs)
      && (o.margin.None? ==> Field("quantity", Int(o.quantity.value)) in fs)
      && (o.stoploss.Some? ==> Field("stoploss", Fixed(o.stoploss.value)) in fs)
      && (o.takeprofit.Some? ==> Field("takeprofit", Fixed(o.takeprofit.value)) in fs)
  {
  }

  /** The opening text createPosition writes in one format: type, side and
      leverage. */
  lemma OrderHead(kind: string, side: string, leverage: int)
    ensures Opened([Field("type", Str(kind)), Field("side", Str(side)), Field("leverage", Fixed(leverage))])
         == "{\"type\":\"" + kind + "\",\"side\":\"" + side + "\",\"leverage\":" + FixedText(leverage)
  {
    var f1, f2, f3 := Field("type", Str(kind)), Field("side", Str(side)), Field("leverage", Fixed(leverage));
    OrderType(kind);
    OrderSide("{\"type\":\"" + kind + "\"", kind, side);
    AppendFixed([f1, f2], "leverage", leverage, ",\"leverage\":");
    assert [f1, f2] + [f3] == [f1, f2, f3];
    HeadText(kind, side, FixedText(leverage));
  }

  /** The pieces of the opening text glued into the one format. */
  lemma HeadText(kind: string, side: string, amount: string)
    ensures "{\"type\":\"" + kind + "\"" + ",\"side\":\"" + side + "\"" + (",\"leverage\":" + amount)
         == "{\"type\":\"" + kind + "\",\"side\":\"" + side + "\",\"leverage\":" + amount
  {
    var x := "{\"type\":\"" + kind;
    var y := x + "\",\"side\":\"" + side;
    Regroup(x + "\"" + ",\"side\":\"" + side + "\"", ",\"leverage\":", amount);
    Regroup(x, "\"", ",\"side\":\"");
    Regroup(y, "\"", ",\"leverage\":");
    SideGlue();
    LeverageGlue();
  }

  lemma OrderType(kind: string)
    ensures Opened([Field("type", Str(kind))]) == "{\"type\":\"" + kind + "\""
  {
    FirstField("type", Str(kind));
    assert Opened([Field("type", Str(kind))]) == "{\"" + "type" + "\":" + Render(Str(kind));
    assert Render(Str(kind)) == "\"" + kind + "\"";
    assert "{\"" + "type" + "\":" == "{\"type\":";
    Regroup("{\"type\":", "\"" + kind, "\"");
    Regroup("{\"type\":", "\"", kind);
  }

  lemma OrderSide(t1: string, kind: string, side: string)
    requires Opened([Field("type", Str(kind))]) == t1
    ensures Opened([Field("type", Str(kind)), Field("side", Str(side))]) == t1 + ",\"side\":\"" + side + "\""
  {
    var f1, f2 := Field("type", Str(kind)), Field("side", Str(side));
    Append([f1], "side", Str(side), ",\"side\":");
    assert Render(Str(side)) == "\"" + side + "\"";
    assert [f1] + [f2] == [f1, f2];
    Regroup(",\"side\":", "\"" + side, "\"");
    Regroup(",\"side\":", "\"", side);
    Regroup(t1, ",\"side\":\"" + side, "\"");
    Regroup(t1, ",\"side\":\"", side);
  }

  function OrderRequest(token: string, payload: string): Request {
    Request(Post, Lnapi + PositionUrl, [], Bearer(token), Some(payload))
  }

  /** What createPosition does: a failed check raises ValueError and sends
      nothing; otherwise one POST carries the order body. */
  function CreatePositionCall<T>(token: string, o: OrderForm, server: Request -> HttpResponse<T>): (r: Call<T>)
    ensures r.sent == [] <==> !ValidOrder(o)
    ensures o.margin.None? && o.quantity.None? ==> r.result == Err(ValueError(MissingSize))
    ensures (o.margin.Some? || o.quantity.Some?) && o.kind == "l" && o.price.None? ==>
              r.result == Err(ValueError(MissingPrice))
    ensures ValidOrder(o) ==> r.sent == [OrderRequest(token, Serialize(OrderFields(o)))]
    ensures ValidOrder(o) && Plain(o.kind) && Plain(o.side) ==>
              Decode(r.sent[0].body.value) == Some(OrderFields(o))
    ensures ValidOrder(o) ==> (r.result.Ok? <==> server(r.sent[0]).status == 200)
    ensures ValidOrder(o) && r.result.Ok? ==> r.result.value == server(r.sent[0]).json
    ensures ValidOrder(o) && r.result.Err? ==>
              r.result.error == RuntimeError("Unable to create position: " + server(r.sent[0]).text)
  {
    assert ValidOrder(o) && Plain(o.kind) && Plain(o.side) ==>
             Decode(Serialize(OrderFields(o))) == Some(OrderFields(o)) by {
      if ValidOrder(o) && Plain(o.kind) && Plain(o.side) {
        OrderWellFormed(o);
        DecodeSerialize(OrderFields(o));
      }
    }
    if o.margin.None? && o.quantity.None? then Call([], Err(ValueError(MissingSize)))
    else if o.kind == "l" && o.price.None? then Call([], Err(ValueError(MissingPrice)))
    else Exchange(OrderRequest(token, Serialize(OrderFields(o))), server, "Unable to create position: ")
  }

  lemma OrderWellFormed(o: OrderForm)
    requires ValidOrder(o) && Plain(o.kind) && Plain(o.side)
    ensures WellFormed(OrderFields(o))
  {
    var head, pr, size, sl, tp := HeadPart(o), PricePart(o), SizePart(o), StopPart(o), TakePart(o);
    HeadWellFormed(o);
    OrderKeysPlain();
    assert WellFormed(pr) && WellFormed(size) && WellFormed(sl) && WellFormed(tp);
    WellFormedAppend(head, pr);
    WellFormedAppend(head + pr, size);
    WellFormedAppend(head + pr + size, sl);
    WellFormedAppend(head + pr + size + sl, tp);
  }

  lemma HeadWellFormed(o: OrderForm)
    requires Plain(o.kind) && Plain(o.side)
    ensures WellFormed(HeadPart(o))
  {
    OrderKeysPlain();
  }

  /** createPosition: validates, writes the body, sends it. */
  method CreatePosition<T>(token: string, kind: string, side: string, leverage: int,
                           margin: Option<int>, quantity: Option<int>, stoploss: Option<int>,
                           takeprofit: Option<int>, price: Option<int>,
                           server: Request -> HttpResponse<T>)
    returns (call: Call<T>)
    ensures call == CreatePositionCall(token, OrderForm(kind, side, leverage, margin, quantity, stoploss, takeprofit, price), server)
  {
    if margin.None? && quantity.None? {
      return Call([], Err(ValueError(MissingSize)));
    }
    if kind == "l" && price.None? {
      return Call([], Err(ValueError(MissingPrice)));
    }
    var payload := WriteOrder(OrderForm(kind, side, leverage, margin, quantity, stoploss, takeprofit, price));
    call := Exchange(OrderRequest(token, payload), server, "Unable to create position: ");
  }

  /** The body createPosition writes piece by piece: the head in one format,
      then each optional field behind a comma. */
  method WriteOrder(o: OrderForm) returns (payload: string)
    requires ValidOrder(o)
    ensures payload == Serialize(OrderFields(o))
  {
    payload := "{\"type\":\"" + o.kind + "\",\"side\":\"" + o.side + "\",\"leverage\":" + FixedText(o.leverage);
    OrderHead(o.kind, o.side, o.leverage);
    ghost var fs := HeadPart(o);
    OrderLeads();
    if o.kind == "l" {
      payload, fs := WriteFixed(payload, fs, "price", ",\"price\":", o.price.value);
    }
    assert fs == HeadPart(o) + PricePart(o);
    if o.margin.None? {
      payload, fs := WriteInt(payload, fs, "quantity", ",\"quantity\":", o.quantity.value);
    } else {
      payload, fs := WriteInt(payload, fs, "margin", ",\"margin\":", o.margin.value);
    }
    assert fs == HeadPart(o) + PricePart(o) + SizePart(o);
    if o.stoploss.Some? {
      payload, fs := WriteFixed(payload, fs, "stoploss", ",\"stoploss\":", o.stoploss.value);
    }
    assert fs == HeadPart(o) + PricePart(o) + SizePart(o) + StopPart(o);
    if o.takeprofit.Some? {
      payload, fs := WriteFixed(payload, fs, "takeprofit", ",\"takeprofit\":", o.takeprofit.value);
    }
    assert fs == OrderFields(o);
    Close(fs);
    payload := payload + "}";
  }

  /** buy: a market order on the buy side. */
  method Buy<T>(token: string, leverage: int, margin: Option<int>, quantity: Option<int>,
                stoploss: Option<int>, takeprofit: Option<int>, server: Request -> HttpResponse<T>)
    returns (call: Call<T>)
    ensures call == CreatePositionCall(token, OrderForm("m", "b", leverage, margin, quantity, stoploss, takeprofit, None), server)
  {
    call := CreatePosition(token, "m", "b", leverage, margin, quantity, stoploss, takeprofit, None, server);
  }

  /** sell: a market order on the sell side. */
  method Sell<T>(token: string, leverage: int, margin: Option<int>, quantity: Option<int>,
                 stoploss: Option<int>, takeprofit: Option<int>, server: Request -> HttpResponse<T>)
    returns (call: Call<T>)
    ensures call == CreatePositionCall(token, OrderForm("m", "s", leverage, margin, quantity, stoploss, takeprofit, None), server)
  {
    call := CreatePosition(token, "m", "s", leverage, margin, quantity, stoploss, takeprofit, None, server);
  }

  /** limitBuy: a limit order on the buy side at `price`. */
  method LimitBuy<T>(token: string, leverage: int, price: int, margin: Option<int>, quantity: Option<int>,
                     stoploss: Option<int>, takeprofit: Option<int>, server: Request -> HttpResponse<T>)
    returns (call: Call<T>)
    ensures call == CreatePositionCall(token, OrderForm("l", "b", leverage, margin, quantity, stoploss, takeprofit, Some(price)), server)
  {
    call := CreatePosition(token, "l", "b", leverage, margin, quantity, stoploss, takeprofit, Some(price), server);
  }

  /** limitSell: a limit order on the sell side at `price`. */
  method LimitSell<T>(token: string, leverage: int, price: int, margin: Option<int>, quantity: Option<int>,
                      stoploss: Option<int>, takeprofit: Option<int>, server: Request -> HttpResponse<T>)
    returns (call: Call<T>)
    ensures call == CreatePositionCall(token, OrderForm("l", "s", leverage, margin, quantity, stoploss, takeprofit, Some(price)), server)
  {
    call := CreatePosition(token, "l", "s", leverage, margin, quantity, stoploss, takeprofit, Some(price), server);
  }

  // ---------------------------------------------------------------------------
  // updatePosition

  /** The body updatePosition writes in one format. */
  function UpdateBody(pid: string, kind: string, value: int): string {
    "{\"pid\":\"" + pid + "\",\"type\":\"" + kind + "\",\"value\":" + FixedText(value) + "}"
  }

  function UpdateFields(pid: string, kind: string, value: int): seq<Field> {
    [Field("pid", Str(pid)), Field("type", Str(kind)), Field("value", Fixed(value))]
  }

  /** The update body is the serialisation of pid, type and value, in that order. */
  lemma UpdateBodyFields(pid: string, kind: string, value: int)
    ensures UpdateBody(pid, kind, value) == Serialize(UpdateFields(pid, kind, value))
  {
    var f1, f2, f3 := Field("pid", Str(pid)), Field("type", Str(kind)), Field("value", Fixed(value));
    FirstStr("pid", pid);
    assert "{\"" + "pid" + "\":\"" == "{\"pid\":\"";
    assert Opened([f1]) == "{\"pid\":\"" + pid + "\"";
    NextStr([f1], "type", kind);
    assert [f1] + [f2] == [f1, f2];
    Regroup4("{\"pid\":\"" + pid, "\"", ",\"", "type", "\":\"");
    assert "\"" + ",\"" + "type" + "\":\"" == "\",\"type\":\"";
    assert Opened([f1, f2]) == "{\"pid\":\"" + pid + "\",\"type\":\"" + kind + "\"";
    NextFixed([f1, f2], "value", value);
    assert [f1, f2] + [f3] == [f1, f2, f3];
    Regroup4("{\"pid\":\"" + pid + "\",\"type\":\"" + kind, "\"", ",\"", "value", "\":");
    assert "\"" + ",\"" + "value" + "\":" == "\",\"value\":";
    Close([f1, f2, f3]);
  }

  /** updatePosition: one PUT whose body reads back as pid, type and value. */
  function UpdatePosition<T>(token: string, pid: string, kind: string, value: int,
                             server: Request -> HttpResponse<T>): (r: Call<T>)
    ensures |r.sent| == 1 && r.sent[0].verb == Put && r.sent[0].url == Lnapi + PositionUrl
    ensures r.sent[0].authorization == Bearer(token) && r.sent[0].params == []
    ensures r.sent[0].body == Some(Serialize(UpdateFields(pid, kind, value)))
    ensures Plain(pid) && Plain(kind) ==>
              Decode(r.sent[0].body.value) == Some(UpdateFields(pid, kind, value))
    ensures r.result.Ok? <==> server(r.sent[0]).status == 200
    ensures r.result.Ok? ==> r.result.value == server(r.sent[0]).json
    ensures r.result.Err? ==>
              (r.result.error == RuntimeError("Unable to update position " + pid + ", reason: " + server(r.sent[0]).text))
  {
    UpdateBodyFields(pid, kind, value);
    assert Plain(pid) && Plain(kind) ==> Decode(UpdateBody(pid, kind, value)) == Some(UpdateFields(pid, kind, value)) by {
      if Plain(pid) && Plain(kind) {
        UpdateKeysPlain();
        DecodeSerialize(UpdateFields(pid, kind, value));
      }
    }
    Exchange(Request(Put, Lnapi + PositionUrl, [], Bearer(token), Some(UpdateBody(pid, kind, value))),
             server, "Unable to update position " + pid + ", reason: ")
  }

  // ---------------------------------------------------------------------------
  // closePosition

  function CloseRequest(token: string, pid: string): Request {
    Request(Delete, Lnapi + PositionUrl, [("pid", Text(pid))], Bearer(token), None)
  }

  /** closePosition: one DELETE naming the position in its "pid" parameter. */
  function ClosePosition<T>(token: string, pid: string, server: Request -> HttpResponse<T>): (r: Call<T>)
    ensures r.sent == [CloseRequest(token, pid)]
    ensures |r.sent| == 1 && r.sent[0].verb == Delete && r.sent[0].url == Lnapi + PositionUrl
    ensures r.sent[0].authorization == Bearer(token) && r.sent[0].body.None?
    ensures Lookup(r.sent[0].params, "pid") == Some(Text(pid)) && |r.sent[0].params| == 1
    ensures r.result.Ok? <==> server(r.sent[0]).status == 200
    ensures r.result.Ok? ==> r.result.value == server(r.sent[0]).json
    ensures r.result.Err? ==>
              (r.result.error == RuntimeError("Unable to close position " + pid + ", reason: " + server(r.sent[0]).text))
  {
    Exchange(CloseRequest(token, pid), server, "Unable to close position " + pid + ", reason: ")
  }

  // ---------------------------------------------------------------------------
  // closeAllLongs and closeAllShorts

  /** The positions closeAll closes on `side`: those on that side that are
      neither closed nor canceled, in listing order. */
  predicate Chosen(p: Position, side: string) {
    p.side == side && !p.closed && !p.canceled
  }

  function Selected(ps: seq<Position>, side: string): (r: seq<Position>)
    ensures forall p :: p in r <==> p in ps && Chosen(p, side)
    ensures |r| <= |ps|
  {
    if ps == [] then []
    else
      var rest := Selected(ps[1..], side);
      assert forall p :: p in ps <==> p == ps[0] || p in ps[1..];
      if Chosen(ps[0], side) then [ps[0]] + rest else rest
  }

  lemma {:induction false} SelectedAppend(a: seq<Position>, b: seq<Position>, side: string)
    ensures Selected(a + b, side) == Selected(a, side) + Selected(b, side)
  {
    if a == [] {
      assert a + b == b;
    } else {
      assert (a + b)[1..] == a[1..] + b;
      SelectedAppend(a[1..], b, side);
    }
  }

  /** The "pl" entry of a close response, or the KeyError reading it raises. */
  function ReturnedPl(closed: map<string, int>): (r: Result<int>)
    ensures r.Ok? <==> "pl" in closed
    ensures r.Ok? ==> r.value == closed["pl"]
    ensures r.Err? ==> r.error == KeyError("pl")
  {
    if "pl" in closed then Ok(closed["pl"]) else Err(KeyError("pl"))
  }

  /** Closing one position inside closeAll: the close request, then the
      "pl" entry of its answer. */
  function CloseFirst(token: string, p: Position, closer: Request -> HttpResponse<map<string, int>>): (r: Call<int>)
    ensures r.sent == [CloseRequest(token, p.pid)]
    ensures r.result.Ok? <==> Closes(token, p, closer)
    ensures r.result.Ok? ==> r.result.value == ClosedPl(token, p, closer)
    ensures r.result.Err? ==>
              (var resp := closer(CloseRequest(token, p.pid));
               r.result.error ==
                 if resp.status != 200 then RuntimeError("Unable to close position " + p.pid + ", reason: " + resp.text)
                 else KeyError("pl"))
  {
    var first := ClosePosition(token, p.pid, closer);
    if first.result.Err? then Call(first.sent, Err(first.result.error))
    else
      var pl := ReturnedPl(first.result.value);
      if pl.Err? then Call(first.sent, Err(pl.error)) else Call(first.sent, Ok(pl.value))
  }

  /** Closing the positions one after another and adding up the profit each
      close returns; the first failure ends the run and is raised. */
  function CloseInOrder(token: string, ps: seq<Position>, closer: Request -> HttpResponse<map<string, int>>): (r: Call<int>)
    ensures |r.sent| <= |ps|
    ensures r.sent == CloseRequests(token, ps[..|r.sent|])
    ensures r.result.Ok? ==> |r.sent| == |ps|
    decreases |ps|
  {
    if ps == [] then Call([], Ok(0))
    else
      var rest := CloseInOrder(token, ps[1..], closer);
      CloseRequestsCons(token, ps, |rest.sent|);
      Then(CloseFirst(token, ps[0], closer), rest)
  }

  /** The close requests of a prefix: the first position's, then those of
      the rest's prefix. */
  lemma CloseRequestsCons(token: string, ps: seq<Position>, k: nat)
    requires k < |ps|
    ensures CloseRequests(token, ps[..k + 1]) == [CloseRequest(token, ps[0].pid)] + CloseRequests(token, ps[1..][..k])
    ensures CloseRequests(token, ps[..1]) == [CloseRequest(token, ps[0].pid)]
  {
    assert ps[..k + 1][1..] == ps[1..][..k];
  }

  /** Whether closing `p` succeeds and reports its profit. */
  predicate Closes(token: string, p: Position, closer: Request -> HttpResponse<map<string, int>>) {
    var resp := closer(CloseRequest(token, p.pid));
    resp.status == 200 && "pl" in resp.json
  }

  /** Whether every position of `ps` closes cleanly. */
  predicate AllClose(token: string, ps: seq<Position>, closer: Request -> HttpResponse<map<string, int>>) {
    forall i :: 0 <= i < |ps| ==> Closes(token, ps[i], closer)
  }

  /** The profit the close of `p` reports. */
  function ClosedPl(token: string, p: Position, closer: Request -> HttpResponse<map<string, int>>): int
    requires Closes(token, p, closer)
  {
    closer(CloseRequest(token, p.pid)).json["pl"]
  }

  function CloseRequests(token: string, ps: seq<Position>): (r: seq<Request>)
    ensures |r| == |ps|
    ensures forall i :: 0 <= i < |ps| ==> r[i] == CloseRequest(token, ps[i].pid)
  {
    seq(|ps|, i requires 0 <= i < |ps| => CloseRequest(token, ps[i].pid))
  }

  /** The profits the closes of `ps` report, in order. */
  function ClosedPls(token: string, ps: seq<Position>, closer: Request -> HttpResponse<map<string, int>>): (r: seq<int>)
    requires forall i :: 0 <= i < |ps| ==> Closes(token, ps[i], closer)
    ensures |r| == |ps|
    ensures forall i :: 0 <= i < |ps| ==> r[i] == ClosedPl(token, ps[i], closer)
  {
    seq(|ps|, i requires 0 <= i < |ps| => ClosedPl(token, ps[i], closer))
  }

  /** When every close succeeds, each position is closed once, in order, and
      the result is the sum of the reported profits. */
  lemma CloseInOrderSucceeds(token: string, ps: seq<Position>, closer: Request -> HttpResponse<map<string, int>>)
    requires forall i :: 0 <= i < |ps| ==> Closes(token, ps[i], closer)
    ensures CloseInOrder(token, ps, closer) == Call(CloseRequests(token, ps), Ok(Sum(ClosedPls(token, ps, closer))))
  {
    SucceedsTotal(token, ps, closer);
    assert ps[..|ps|] == ps;
  }

  /** The total a run of clean closes returns. */
  lemma {:induction false} SucceedsTotal(token: string, ps: seq<Position>, closer: Request -> HttpResponse<map<string, int>>)
    requires forall i :: 0 <= i < |ps| ==> Closes(token, ps[i], closer)
    ensures CloseInOrder(token, ps, closer).result == Ok(Sum(ClosedPls(token, ps, closer)))
    decreases |ps|
  {
    if ps != [] {
      SucceedsTotal(token, ps[1..], closer);
      var pls := ClosedPls(token, ps, closer);
      assert pls[1..] == ClosedPls(token, ps[1..], closer);
    }
  }

  /** When the first `k` closes succeed and the next one fails, exactly those
      `k + 1` requests are sent and the failure is raised. */
  lemma CloseInOrderAborts(token: string, ps: seq<Position>, closer: Request -> HttpResponse<map<string, int>>, k: nat)
    requires k < |ps|
    requires forall i :: 0 <= i < k ==> Closes(token, ps[i], closer)
    requires !Closes(token, ps[k], closer)
    ensures CloseInOrder(token, ps, closer).sent == CloseRequests(token, ps[..k + 1])
    ensures CloseInOrder(token, ps, closer).result ==
              (var resp := closer(CloseRequest(token, ps[k].pid));
               if resp.status != 200 then Err(RuntimeError("Unable to close position " + ps[k].pid + ", reason: " + resp.text))
               else Err(KeyError("pl")))
  {
    AbortsAt(token, ps, closer, k);
  }

  /** A run whose first failing close is the k-th stops after k + 1 requests
      with that close's failure. */
  lemma {:induction false} AbortsAt(token: string, ps: seq<Position>, closer: Request -> HttpResponse<map<string, int>>, k: nat)
    requires k < |ps|
    requires forall i :: 0 <= i < k ==> Closes(token, ps[i], closer)
    requires !Closes(token, ps[k], closer)
    ensures |CloseInOrder(token, ps, closer).sent| == k + 1
    ensures CloseInOrder(token, ps, closer).result == CloseFirst(token, ps[k], closer).result
    decreases k
  {
    if k > 0 {
      AbortsAt(token, ps[1..], closer, k - 1);
    }
  }

  /** The selection of one more listed position. */
  lemma SelectedSnoc(ps: seq<Position>, i: nat, side: string)
    requires i < |ps|
    ensures Selected(ps[..i + 1], side) == Selected(ps[..i], side) + if Chosen(ps[i], side) then [ps[i]] else []
  {
    assert ps[..i + 1] == ps[..i] + [ps[i]];
    SelectedAppend(ps[..i], [ps[i]], side);
    assert [ps[i]][1..] == [];
  }

  /** Runs `a` and then `b` as closeAll does: a failure in `a` ends the run. */
  function Then(a: Call<int>, b: Call<int>): Call<int> {
    if a.result.Err? then a
    else Call(a.sent + b.sent, if b.result.Ok? then Ok(a.result.value + b.result.value) else b.result)
  }

  lemma {:induction false} CloseInOrderAppend(token: string, a: seq<Position>, b: seq<Position>,
                                              closer: Request -> HttpResponse<map<string, int>>)
    ensures CloseInOrder(token, a + b, closer) == Then(CloseInOrder(token, a, closer), CloseInOrder(token, b, closer))
    decreases |a|
  {
    if a == [] {
      assert a + b == b;
    } else {
      assert (a + b)[0] == a[0] && (a + b)[1..] == a[1..] + b;
      CloseInOrderAppend(token, a[1..], b, closer);
      ThenAssoc(CloseFirst(token, a[0], closer), CloseInOrder(token, a[1..], closer), CloseInOrder(token, b, closer));
    }
  }

  lemma ThenAssoc(x: Call<int>, y: Call<int>, z: Call<int>)
    ensures Then(Then(x, y), z) == Then(x, Then(y, z))
  {
    if x.result.Ok? && y.result.Ok? {
      assert x.sent + y.sent + z.sent == x.sent + (y.sent + z.sent);
    }
  }

  /** What closeAllLongs (side "b") and closeAllShorts (side "s") do: list
      the open positions, then close the selected ones in order. */
  function CloseSide(token: string, side: string, lister: Request -> HttpResponse<Listing>,
                     closer: Request -> HttpResponse<map<string, int>>): (r: Call<int>)
    ensures |r.sent| >= 1 && r.sent[0] == PositionsRequest(token, Some("open"))
    ensures lister(r.sent[0]).status != 200 ==>
              r == Call([r.sent[0]], Err(RuntimeError("Unable to get positions: " + lister(r.sent[0]).text)))
    ensures lister(r.sent[0]).status == 200 && "open" !in lister(r.sent[0]).json ==>
              r == Call([r.sent[0]], Err(KeyError("open")))
    ensures lister(r.sent[0]).status == 200 && "open" in lister(r.sent[0]).json ==>
              (var chosen := Selected(lister(r.sent[0]).json["open"], side);
               r.sent[1..] == CloseInOrder(token, chosen, closer).sent
               && r.result == CloseInOrder(token, chosen, closer).result)
  {
    var listing := GetPositions(token, Some("open"), lister);
    if listing.result.Err? then Call(listing.sent, Err(listing.result.error))
    else if "open" !in listing.result.value then Call(listing.sent, Err(KeyError("open")))
    else
      var closing := CloseInOrder(token, Selected(listing.result.value["open"], side), closer);
      Call(listing.sent + closing.sent, closing.result)
  }

  /** The closeAll promise: when the listing succeeds and every selected
      position closes cleanly, the listing is sent, then one close per
      selected position in list order, and the result is the sum of the
      profits the closes report. */
  lemma CloseSideSucceeds(token: string, side: string, lister: Request -> HttpResponse<Listing>,
                          closer: Request -> HttpResponse<map<string, int>>)
    requires lister(PositionsRequest(token, Some("open"))).status == 200
    requires "open" in lister(PositionsRequest(token, Some("open"))).json
    requires AllClose(token, Selected(lister(PositionsRequest(token, Some("open"))).json["open"], side), closer)
    ensures var chosen := Selected(lister(PositionsRequest(token, Some("open"))).json["open"], side);
      CloseSide(token, side, lister, closer) ==
        Call([PositionsRequest(token, Some("open"))] + CloseRequests(token, chosen), Ok(Sum(ClosedPls(token, chosen, closer))))
  {
    var chosen := Selected(lister(PositionsRequest(token, Some("open"))).json["open"], side);
    var r := CloseSide(token, side, lister, closer);
    assert AllClose(token, chosen, closer);
    CloseInOrderSucceeds(token, chosen, closer);
    assert r.sent == [r.sent[0]] + r.sent[1..];
  }

  /** One more listed position: closing the selection of a longer prefix
      continues the run over the shorter one. */
  lemma CloseNext(token: string, ps: seq<Position>, i: nat, side: string,
                  closer: Request -> HttpResponse<map<string, int>>)
    requires i < |ps|
    ensures var before := CloseInOrder(token, Selected(ps[..i], side), closer);
      CloseInOrder(token, Selected(ps[..i + 1], side), closer) ==
        if Chosen(ps[i], side) then Then(before, CloseInOrder(token, [ps[i]], closer)) else before
  {
    assert ps[..i + 1] == ps[..i] + [ps[i]];
    SelectedAppend(ps[..i], [ps[i]], side);
    assert Selected([ps[i]], side) == if Chosen(ps[i], side) then [ps[i]] else [];
    if Chosen(ps[i], side) {
      CloseInOrderAppend(token, Selected(ps[..i], side), [ps[i]], closer);
    } else {
      assert Selected(ps[..i + 1], side) == Selected(ps[..i], side);
    }
  }

  /** The loop step on a position closeAll closes, when the close reports a
      profit: the request joins the log and the profit the running sum. */
  lemma CloseStep(token: string, ps: seq<Position>, i: nat, side: string,
                  closer: Request -> HttpResponse<map<string, int>>, log: seq<Request>, pl: int,
                  closed: Call<map<string, int>>, got: Result<int>)
    requires i < |ps| && Chosen(ps[i], side)
    requires CloseInOrder(token, Selected(ps[..i], side), closer) == Call(log, Ok(pl))
    requires closed == ClosePosition(token, ps[i].pid, closer) && closed.result.Ok?
    requires got == ReturnedPl(closed.result.value) && got.Ok?
    ensures CloseInOrder(token, Selected(ps[..i + 1], side), closer) == Call(log + closed.sent, Ok(pl + got.value))
  {
    ClosedAnswer(token, ps[i], closer);
    SelectedSnoc(ps, i, side);
    ExtendOk(token, Selected(ps[..i], side), Selected(ps[..i + 1], side), ps[i], closer, log, pl);
  }

  /** One more clean close after a clean run. */
  lemma ExtendOk(token: string, chosen: seq<Position>, longer: seq<Position>, p: Position,
                 closer: Request -> HttpResponse<map<string, int>>, log: seq<Request>, pl: int)
    requires longer == chosen + [p]
    requires CloseInOrder(token, chosen, closer) == Call(log, Ok(pl))
    requires Closes(token, p, closer)
    ensures CloseInOrder(token, longer, closer) ==
              Call(log + [CloseRequest(token, p.pid)], Ok(pl + ClosedPl(token, p, closer)))
  {
    CloseInOrderAppend(token, chosen, [p], closer);
    CloseOne(token, p, closer);
  }

  /** What a close that reports a profit answers. */
  lemma ClosedAnswer(token: string, p: Position, closer: Request -> HttpResponse<map<string, int>>)
    ensures var closed := ClosePosition(token, p.pid, closer);
      && closed.sent == [CloseRequest(token, p.pid)]
      && (closed.result.Ok? && ReturnedPl(closed.result.value).Ok? <==> Closes(token, p, closer))
      && (Closes(token, p, closer) ==> ReturnedPl(closed.result.value).value == ClosedPl(token, p, closer))
  {
  }

  /** The loop step on a position closeAll closes, when the close fails:
      the failure is the outcome of the whole run. */
  lemma FailStep(token: string, ps: seq<Position>, i: nat, side: string,
                 closer: Request -> HttpResponse<map<string, int>>, log: seq<Request>, pl: int,
                 closed: Call<map<string, int>>, failure: Error)
    requires i < |ps| && Chosen(ps[i], side)
    requires CloseInOrder(token, Selected(ps[..i], side), closer) == Call(log, Ok(pl))
    requires closed == ClosePosition(token, ps[i].pid, closer)
    requires if closed.result.Err? then failure == closed.result.error
             else ReturnedPl(closed.result.value) == Err(failure)
    ensures CloseInOrder(token, Selected(ps, side), closer) == Call(log + closed.sent, Err(failure))
  {
    ClosedAnswer(token, ps[i], closer);
    CloseNext(token, ps, i, side, closer);
    CloseOne(token, ps[i], closer);
    CloseRest(token, ps, i + 1, side, closer);
  }

  /** Closing a single position. */
  lemma CloseOne(token: string, p: Position, closer: Request -> HttpResponse<map<string, int>>)
    ensures CloseInOrder(token, [p], closer) == CloseFirst(token, p, closer)
  {
    assert [p][1..] == [];
  }

  /** A failure while closing the selection of a prefix is the failure of the
      whole run. */
  lemma CloseRest(token: string, ps: seq<Position>, i: nat, side: string,
                  closer: Request -> HttpResponse<map<string, int>>)
    requires i <= |ps|
    requires CloseInOrder(token, Selected(ps[..i], side), closer).result.Err?
    ensures CloseInOrder(token, Selected(ps, side), closer) == CloseInOrder(token, Selected(ps[..i], side), closer)
  {
    assert ps[..i] + ps[i..] == ps;
    SelectedAppend(ps[..i], ps[i..], side);
    CloseInOrderAppend(token, Selected(ps[..i], side), Selected(ps[i..], side), closer);
  }

  /** closeAllLongs and closeAllShorts: list the open positions, then close
      the selected ones in one pass. */
  method CloseMatching(token: string, side: string, lister: Request -> HttpResponse<Listing>,
                       closer: Request -> HttpResponse<map<string, int>>)
    returns (call: Call<int>)
    ensures call == CloseSide(token, side, lister, closer)
  {
    var listing := GetPositions(token, Some("open"), lister);
    if listing.result.Err? {
      return Call(listing.sent, Err(listing.result.error));
    }
    if "open" !in listing.result.value {
      return Call(listing.sent, Err(KeyError("open")));
    }
    var closing := CloseSelected(token, side, listing.result.value["open"], closer);
    call := Call(listing.sent + closing.sent, closing.result);
  }

  /** The loop of closeAllLongs and closeAllShorts: filter and close in one
      pass over the listing, adding up the returned profits; the first failed
      close ends the loop. */
  method CloseSelected(token: string, side: string, positions: seq<Position>,
                       closer: Request -> HttpResponse<map<string, int>>)
    returns (closing: Call<int>)
    ensures closing == CloseInOrder(token, Selected(positions, side), closer)
  {
    var sent: seq<Request> := [];
    var pl := 0;
    for i := 0 to |positions|
      invariant CloseInOrder(token, Selected(positions[..i], side), closer) == Call(sent, Ok(pl))
    {
      var p := positions[i];
      if p.side == side && !p.closed && !p.canceled {
        var closed := ClosePosition(token, p.pid, closer);
        if closed.result.Err? {
          FailStep(token, positions, i, side, closer, sent, pl, closed, closed.result.error);
          return Call(sent + closed.sent, Err(closed.result.error));
        }
        var got := ReturnedPl(closed.result.value);
        if got.Err? {
          FailStep(token, positions, i, side, closer, sent, pl, closed, got.error);
          return Call(sent + closed.sent, Err(got.error));
        }
        CloseStep(token, positions, i, side, closer, sent, pl, closed, got);
        sent, pl := sent + closed.sent, pl + got.value;
      } else {
        assert CloseInOrder(token, Selected(positions[..i + 1], side), closer)
            == CloseInOrder(token, Selected(positions[..i], side), closer) by {
          CloseNext(token, positions, i, side, closer);
        }
      }
    }
    assert positions[..|positions|] == positions;
    closing := Call(sent, Ok(pl));
  }

  /** closeAllLongs: closes every open long position; returns the total profit. */
  method CloseAllLongs(token: string, lister: Request -> HttpResponse<Listing>,
                       closer: Request -> HttpResponse<map<string, int>>)
    returns (call: Call<int>)
    ensures call == CloseSide(token, "b", lister, closer)
  {
    call := CloseMatching(token, "b", lister, closer);
  }

  /** closeAllShorts: closes every open short position; returns the total profit. */
  method CloseAllShorts(token: string, lister: Request -> HttpResponse<Listing>,
                        closer: Request -> HttpResponse<map<string, int>>)
    returns (call: Call<int>)
    ensures call == CloseSide(token, "s", lister, closer)
  {
    call := CloseMatching(token, "s", lister, closer);
  }

  // ---------------------------------------------------------------------------
  // marginWithheld, calculateProfit, realizedProfit, unrealizedProfit

  function Sum(xs: seq<int>): int {
    if xs == [] then 0 else xs[0] + Sum(xs[1..])
  }

  lemma {:induction false} SumAppend(a: seq<int>, b: seq<int>)
    ensures Sum(a + b) == Sum(a) + Sum(b)
  {
    if a != [] {
      assert (a + b)[1..] == a[1..] + b;
      SumAppend(a[1..], b);
    } else {
      assert a + b == b;
    }
  }

  function Margins(ps: seq<Position>): (r: seq<int>)
    ensures |r| == |ps| && forall i :: 0 <= i < |ps| ==> r[i] == ps[i].margin
  {
    seq(|ps|, i requires 0 <= i < |ps| => ps[i].margin)
  }

  function Pls(ps: seq<Position>): (r: seq<int>)
    ensures |r| == |ps| && forall i :: 0 <= i < |ps| ==> r[i] == ps[i].pl
  {
    seq(|ps|, i requires 0 <= i < |ps| => ps[i].pl)
  }

  /** marginWithheld: the total margin of the given positions. */
  method MarginWithheld(ps: seq<Position>) returns (total: int)
    ensures total == Sum(Margins(ps))
  {
    total := 0;
    for i := 0 to |ps|
      invariant total == Sum(Margins(ps[..i]))
    {
      assert ps[..i + 1] == ps[..i] + [ps[i]];
      assert Margins(ps[..i + 1]) == Margins(ps[..i]) + [ps[i].margin];
      SumAppend(Margins(ps[..i]), [ps[i].margin]);
      total := total + ps[i].margin;
    }
    assert ps[..|ps|] == ps;
  }

  /** calculateProfit: the total profit of the given positions. */
  method CalculateProfit(ps: seq<Position>) returns (total: int)
    ensures total == Sum(Pls(ps))
  {
    total := 0;
    for i := 0 to |ps|
      invariant total == Sum(Pls(ps[..i]))
    {
      assert ps[..i + 1] == ps[..i] + [ps[i]];
      assert Pls(ps[..i + 1]) == Pls(ps[..i]) + [ps[i].pl];
      SumAppend(Pls(ps[..i]), [ps[i].pl]);
      total := total + ps[i].pl;
    }
    assert ps[..|ps|] == ps;
  }

  /** Totals over the union of two position lists add up. */
  lemma TotalsAppend(a: seq<Position>, b: seq<Position>)
    ensures Sum(Margins(a + b)) == Sum(Margins(a)) + Sum(Margins(b))
    ensures Sum(Pls(a + b)) == Sum(Pls(a)) + Sum(Pls(b))
  {
    assert Margins(a + b) == Margins(a) + Margins(b);
    assert Pls(a + b) == Pls(a) + Pls(b);
    SumAppend(Margins(a), Margins(b));
    SumAppend(Pls(a), Pls(b));
  }

  /** No margin is withheld beyond the margins themselves: with every margin
      at least zero the total is at least every single margin. */
  lemma {:induction false} MarginBounds(ps: seq<Position>)
    requires forall i :: 0 <= i < |ps| ==> ps[i].margin >= 0
    ensures Sum(Margins(ps)) >= 0
    ensures forall i :: 0 <= i < |ps| ==> ps[i].margin <= Sum(Margins(ps))
  {
    if ps != [] {
      MarginBounds(ps[1..]);
      assert Margins(ps)[1..] == Margins(ps[1..]);
      forall i | 1 <= i < |ps| ensures ps[i].margin <= Sum(Margins(ps)) {
        assert ps[1..][i - 1] == ps[i];
      }
    }
  }

  /** realizedProfit (kind "closed") and unrealizedProfit (kind "open"): the
      total profit of the positions listed under `kind`. */
  function ListedProfit(token: string, kind: string, lister: Request -> HttpResponse<Listing>): (r: Call<int>)
    ensures r.sent == [PositionsRequest(token, Some(kind))]
    ensures var resp := lister(r.sent[0]);
      && (resp.status != 200 ==> r.result == Err(RuntimeError("Unable to get positions: " + resp.text)))
      && (resp.status == 200 && kind !in resp.json ==> r.result == Err(KeyError(kind)))
      && (resp.status == 200 && kind in resp.json ==> r.result == Ok(Sum(Pls(resp.json[kind]))))
  {
    var listing := GetPositions(token, Some(kind), lister);
    if listing.result.Err? then Call(listing.sent, Err(listing.result.error))
    else if kind !in listing.result.value then Call(listing.sent, Err(KeyError(kind)))
    else Call(listing.sent, Ok(Sum(Pls(listing.result.value[kind]))))
  }

  method ProfitOf(token: string, kind: string, lister: Request -> HttpResponse<Listing>) returns (call: Call<int>)
    ensures call == ListedProfit(token, kind, lister)
  {
    var listing := GetPositions(token, Some(kind), lister);
    if listing.result.Err? {
      return Call(listing.sent, Err(listing.result.error));
    }
    if kind !in listing.result.value {
      return Call(listing.sent, Err(KeyError(kind)));
    }
    var total := CalculateProfit(listing.result.value[kind]);
    call := Call(listing.sent, Ok(total));
  }

  /** realizedProfit: the total profit of the closed positions. */
  method RealizedProfit(token: string, lister: Request -> HttpResponse<Listing>) returns (call: Call<int>)
    ensures call == ListedProfit(token, "closed", lister)
  {
    call := ProfitOf(token, "closed", lister);
  }

  /** unrealizedProfit: the total profit of the open positions. */
  method UnrealizedProfit(token: string, lister: Request -> HttpResponse<Listing>) returns (call: Call<int>)
    ensures call == ListedProfit(token, "open", lister)
  {
    call := ProfitOf(token, "open", lister);
  }

  // ---------------------------------------------------------------------------
  // addMargin, cashin, cancelPosition

  /** The body addMargin and cashin write in one format. */
  function AmountBody(amount: int, pid: string): string {
    "{\"amount\":" + IntText(amount) + ",\"pid\":\"" + pid + "\"}"
  }

  function AmountFields(amount: int, pid: string): seq<Field> {
    [Field("amount", Int(amount)), Field("pid", Str(pid))]
  }

  /** The amount body is the serialisation of amount and pid, in that order. */
  lemma AmountBodyFields(amount: int, pid: string)
    ensures AmountBody(amount, pid) == Serialize(AmountFields(amount, pid))
  {
    AmountOpened(amount, pid);
    Close(AmountFields(amount, pid));
    AmountGlue(IntText(amount), pid);
  }

  lemma AmountOpened(amount: int, pid: string)
    ensures Opened(AmountFields(amount, pid)) == "{\"amount\":" + IntText(amount) + ",\"" + "pid" + "\":\"" + pid + "\""
  {
    var f1 := Field("amount", Int(amount));
    FirstInt("amount", amount);
    assert "{\"" + "amount" + "\":" == "{\"amount\":";
    NextStr([f1], "pid", pid);
    assert [f1] + [Field("pid", Str(pid))] == AmountFields(amount, pid);
  }

  /** One POST of an amount body to `url`. */
  function AmountCall<T>(token: string, url: string, pid: string, amount: int, failure: string,
                         server: Request -> HttpResponse<T>): (r: Call<T>)
    ensures r.sent == [Request(Post, Lnapi + url, [], Bearer(token), Some(Serialize(AmountFields(amount, pid))))]
    ensures Plain(pid) ==> Decode(r.sent[0].body.value) == Some(AmountFields(amount, pid))
    ensures r.result.Ok? <==> server(r.sent[0]).status == 200
    ensures r.result.Ok? ==> r.result.value == server(r.sent[0]).json
    ensures r.result.Err? ==> r.result.error == RuntimeError(failure + pid + ", reason: " + server(r.sent[0]).text)
  {
    AmountBodyFields(amount, pid);
    assert Plain(pid) ==> Decode(AmountBody(amount, pid)) == Some(AmountFields(amount, pid)) by {
      if Plain(pid) {
        UpdateKeysPlain();
        DecodeSerialize(AmountFields(amount, pid));
      }
    }
    Exchange(Request(Post, Lnapi + url, [], Bearer(token), Some(AmountBody(amount, pid))), server, failure + pid + ", reason: ")
  }

  /** addMargin: adds `amount` to the margin of a running position. */
  function AddMargin<T>(token: string, pid: string, amount: int, server: Request -> HttpResponse<T>): (r: Call<T>)
    ensures r == AmountCall(token, AddMarginUrl, pid, amount, "Unable to add margin to position ", server)
  {
    AmountCall(token, AddMarginUrl, pid, amount, "Unable to add margin to position ", server)
  }

  /** cashin as written: the endpoint attribute it reads does not exist, so
      it raises AttributeError before anything is sent. */
  function CashinAsWritten<T>(token: string, pid: string, amount: int, server: Request -> HttpResponse<T>): (r: Call<T>)
    ensures r.sent == [] && r.result == Err(AttributeError("cashinnUrl"))
  {
    Call([], Err(AttributeError("cashinnUrl")))
  }

  /** cashin as intended: the amount body posted to the cash-in endpoint. */
  function Cashin<T>(token: string, pid: string, amount: int, server: Request -> HttpResponse<T>): (r: Call<T>)
    ensures r == AmountCall(token, CashinUrl, pid, amount, "Unable to cash-in position ", server)
  {
    AmountCall(token, CashinUrl, pid, amount, "Unable to cash-in position ", server)
  }

  /** The written cashin never reaches the server, while the intended one
      always sends its request. */
  lemma CashinDiscrepancy<T>(token: string, pid: string, amount: int, server: Request -> HttpResponse<T>)
    ensures CashinAsWritten(token, pid, amount, server).sent == []
    ensures |Cashin(token, pid, amount, server).sent| == 1
    ensures Cashin(token, pid, amount, server).sent[0].url == "https://api.lnmarkets.com/positions/cash-in"
  {
    assert Cashin(token, pid, amount, server).sent[0].url == Lnapi + CashinUrl;
    CashinUrlText();
  }

  /** The body cancelPosition writes. */
  function CancelBody(pid: string): string {
    "{\"pid\":\"" + pid + "\"}"
  }

  lemma CancelBodyFields(pid: string)
    ensures CancelBody(pid) == Serialize([Field("pid", Str(pid))])
  {
    FirstStr("pid", pid);
    assert "{\"" + "pid" + "\":\"" == "{\"pid\":\"";
    Close([Field("pid", Str(pid))]);
  }

  /** cancelPosition: one POST to the cancel endpoint naming the position. */
  function CancelPosition<T>(token: string, pid: string, server: Request -> HttpResponse<T>): (r: Call<T>)
    ensures r.sent == [Request(Post, Lnapi + CancelUrl, [], Bearer(token), Some(Serialize([Field("pid", Str(pid))])))]
    ensures Plain(pid) ==> Decode(r.sent[0].body.value) == Some([Field("pid", Str(pid))])
    ensures r.result.Ok? <==> server(r.sent[0]).status == 200
    ensures r.result.Ok? ==> r.result.value == server(r.sent[0]).json
    ensures r.result.Err? ==>
              (r.result.error == RuntimeError("Unable to cancel position " + pid + ", reason: " + server(r.sent[0]).text))
  {
    CancelBodyFields(pid);
    assert Plain(pid) ==> Decode(CancelBody(pid)) == Some([Field("pid", Str(pid))]) by {
      if Plain(pid) {
        UpdateKeysPlain();
        DecodeSerialize([Field("pid", Str(pid))]);
      }
    }
    Exchange(Request(Post, Lnapi + CancelUrl, [], Bearer(token), Some(CancelBody(pid))),
             server, "Unable to cancel position " + pid + ", reason: ")
  }

  // ---------------------------------------------------------------------------
  // String-literal facts: how literal pieces of the request text glue
  // together, and that the literal keys are plain. They say nothing about
  // the client; they only spare the solver from rediscovering them inside
  // larger proofs.

  lemma SideGlue()
    ensures "\"" + ",\"side\":\"" == "\",\"side\":\""
  {
  }

  lemma LeverageGlue()
    ensures "\"" + ",\"leverage\":" == "\",\"leverage\":"
  {
  }

  lemma OrderLeads()
    ensures ",\"price\":" == ",\"" + "price" + "\":" && ",\"quantity\":" == ",\"" + "quantity" + "\":"
    ensures ",\"margin\":" == ",\"" + "margin" + "\":" && ",\"stoploss\":" == ",\"" + "stoploss" + "\":"
    ensures ",\"takeprofit\":" == ",\"" + "takeprofit" + "\":"
  {
  }

  lemma CashinUrlText()
    ensures Lnapi + CashinUrl == "https://api.lnmarkets.com/positions/cash-in"
  {
  }

  lemma AmountGlue(t: string, pid: string)
    ensures "{\"amount\":" + t + ",\"" + "pid" + "\":\"" + pid + "\"" + "}" == "{\"amount\":" + t + ",\"pid\":\"" + pid + "\"}"
  {
    assert ",\"" + "pid" + "\":\"" == ",\"pid\":\"";
    Regroup("{\"amount\":" + t + ",\"pid\":\"" + pid, "\"", "}");
  }

  lemma OrderKeysPlain()
    ensures Plain("type") && Plain("side") && Plain("leverage") && Plain("price")
    ensures Plain("margin") && Plain("quantity") && Plain("stoploss") && Plain("takeprofit")
  {
    HeadKeysPlain();
    AmountKeysPlain();
  }

  lemma HeadKeysPlain()
    ensures Plain("type") && Plain("side") && Plain("leverage") && Plain("price")
  {
  }

  lemma AmountKeysPlain()
    ensures Plain("margin") && Plain("quantity") && Plain("stoploss") && Plain("takeprofit")
  {
  }

  lemma UpdateKeysPlain()
    ensures Plain("pid") && Plain("type") && Plain("value") && Plain("amount")
  {
  }

}
