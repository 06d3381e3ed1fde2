/** The account client of LNMarkets/User.py: account information and
    balance, the profile update, token generation and the transaction
    history query. */
module User {

  import opened Wrappers
  import opened Text
  import opened Json
  import opened Http

  // ---------------------------------------------------------------------------
  // userInformation and getBalance

  function UserRequest(token: string): Request {
    Request(Get, Lnapi + UserUrl, [], Bearer(token), None)
  }

  /** userInformation: one GET of the account. */
  function UserInformation<T>(token: string, server: Request -> HttpResponse<T>): (r: Call<T>)
    ensures r.sent == [UserRequest(token)]
    ensures r.result.Ok? <==> server(UserRequest(token)).status == 200
    ensures r.result.Ok? ==> r.result.value == server(UserRequest(token)).json
    ensures r.result.Err? ==>
              r.result.error == RuntimeError("Unable to get user information: " + server(UserRequest(token)).text)
  {
    Exchange(UserRequest(token), server, "Unable to get user information: ")
  }

  /** getBalance: the "balance" entry of the account information, or the
      KeyError reading it raises. */
  function GetBalance(token: string, server: Request -> HttpResponse<map<string, int>>): (r: Call<int>)
    ensures r.sent == [UserRequest(token)]
    ensures var resp := server(UserRequest(token));
      && (resp.status == 200 && "balance" in resp.json ==> r.result == Ok(resp.json["balance"]))
      && (resp.status == 200 && "balance" !in resp.json ==> r.result == Err(KeyError("balance")))
      && (resp.status != 200 ==> r.result == Err(RuntimeError("Unable to get user information: " + resp.text)))
  {
    var info := UserInformation(token, server);
    if info.result.Err? then Call(info.sent, Err(info.result.error))
    else if "balance" !in info.result.value then Call(info.sent, Err(KeyError("balance")))
    else Call(info.sent, Ok(info.result.value["balance"]))
  }

  // ---------------------------------------------------------------------------
  // updateUser

  /** The fields of the profile update: show_username, show_leaderboard and
      username, each only when given, in that order. */
  function ProfileFields(leaderboard: Option<bool>, showUsername: Option<bool>, username: Option<string>): seq<Field> {
    (if showUsername.Some? then [Field("show_username", Bool(showUsername.value))] else [])
    + (if leaderboard.Some? then [Field("show_leaderboard", Bool(leaderboard.value))] else [])
    + (if username.Some? then [Field("username", Str(username.value))] else [])
  }

  function ProfileRank(key: string): nat {
    if key == "show_username" then 0
    else if key == "show_leaderboard" then 1
    else if key == "username" then 2
    else 3
  }

  /** The keys of the profile update, in the order they are written. */
  lemma ProfileKeys(leaderboard: Option<bool>, showUsername: Option<bool>, username: Option<string>)
    ensures Keys(ProfileFields(leaderboard, showUsername, username)) ==
              KeyIf(showUsername.Some?, "show_username") + KeyIf(leaderboard.Some?, "show_leaderboard")
              + KeyIf(username.Some?, "username")
  {
    var a := if showUsername.Some? then [Field("show_username", Bool(showUsername.value))] else [];
    var b := if leaderboard.Some? then [Field("show_leaderboard", Bool(leaderboard.value))] else [];
    var c := if username.Some? then [Field("username", Str(username.value))] else [];
    KeysAppend(a + b, c);
    KeysAppend(a, b);
  }

  /** Each profile key is written exactly when its argument is given, with
      the argument's value. */
  lemma ProfilePresence(leaderboard: Option<bool>, showUsername: Option<bool>, username: Option<string>)
    ensures var keys := Keys(ProfileFields(leaderboard, showUsername, username));
      && ("show_username" in keys <==> showUsername.Some?)
      && ("show_leaderboard" in keys <==> leaderboard.Some?)
      && ("username" in keys <==> username.Some?)
    ensures var fs := ProfileFields(leaderboard, showUsername, username);
      && (showUsername.Some? ==> Field("show_username", Bool(showUsername.value)) in fs)
      && (leaderboard.Some? ==> Field("show_leaderboard", Bool(leaderboard.value)) in fs)
      && (username.Some? ==> Field("username", Str(username.value)) in fs)
  {
    ProfileKeys(leaderboard, showUsername, username);
  }

  /** The profile keys are written in one fixed order, each at most once. */
  lemma ProfileOrdered(leaderboard: Option<bool>, showUsername: Option<bool>, username: Option<string>)
    ensures Ascending(Keys(ProfileFields(leaderboard, showUsername, username)), ProfileRank)
    ensures RankedBelow(Keys(ProfileFields(leaderboard, showUsername, username)), ProfileRank, 3)
  {
    ProfileKeys(leaderboard, showUsername, username);
    var k1 := KeyIf(showUsername.Some?, "show_username");
    var k2 := k1 + KeyIf(leaderboard.Some?, "show_leaderboard");
    assert ProfileRank("show_username") == 0 && ProfileRank("show_leaderboard") == 1 && ProfileRank("username") == 2;
    assert [] + k1 == k1;
    AscendingKeyIf([], showUsername.Some?, "show_username", ProfileRank, 0);
    AscendingKeyIf(k1, leaderboard.Some?, "show_leaderboard", ProfileRank, 1);
    AscendingKeyIf(k2, username.Some?, "username", ProfileRank, 2);
  }

  /** With nothing to update the body is exactly "{}". */
  lemma EmptyProfile()
    ensures Serialize(ProfileFields(None, None, None)) == "{}"
  {
  }

  function ProfileRequest(token: string, payload: string): Request {
    Request(Put, Lnapi + UserUrl, [], Bearer(token), Some(payload))
  }

  /** The body updateUser writes, with its comma flag telling whether a field
      has been written yet. */
  method WriteProfile(leaderboard: Option<bool>, showUsername: Option<bool>, username: Option<string>)
    returns (payload: string)
    ensures payload == Serialize(ProfileFields(leaderboard, showUsername, username))
  {
    payload := "{";
    var comma := false;
    ghost var fs: seq<Field> := [];
    if showUsername != None {
      payload, fs := WriteFlag(payload, fs, comma, "show_username", showUsername.value);
      comma := true;
    }
    if leaderboard != None {
      payload, fs := WriteFlag(payload, fs, comma, "show_leaderboard", leaderboard.value);
      comma := true;
    }
    assert fs == ProfileFields(leaderboard, showUsername, None);
    if username == None {
      Close(fs);
      payload := payload + "}";
    } else {
      payload, fs := WriteLastName(payload, fs, comma, username.value);
    }
    assert fs == ProfileFields(leaderboard, showUsername, username);
  }

  /** One boolean entry of updateUser: a comma when one is due, then the key
      and true or false. */
  method WriteFlag(payload: string, ghost fs: seq<Field>, comma: bool, key: string, b: bool)
    returns (written: string, ghost gs: seq<Field>)
    requires payload == Opened(fs) && comma == (fs != [])
    ensures gs == fs + [Field(key, Bool(b))] && written == Opened(gs)
  {
    var lead := if comma then ",\"" + key + "\":" else "\"" + key + "\":";
    AppendBool(fs, key, b, lead);
    written := payload + (lead + BoolText(b));
    gs := fs + [Field(key, Bool(b))];
  }

  /** The closing username entry of updateUser: a comma when one is due, then
      the quoted name and the closing brace. */
  method WriteLastName(payload: string, ghost fs: seq<Field>, comma: bool, name: string)
    returns (written: string, ghost gs: seq<Field>)
    requires payload == Opened(fs) && comma == (fs != [])
    ensures gs == fs + [Field("username", Str(name))] && written == Serialize(gs)
  {
    var lead := if comma then ",\"username\":\"" else "\"username\":\"";
    UsernameLead();
    CloseStr(fs, "username", name, lead);
    written := payload + (lead + name + "\"}");
    gs := fs + [Field("username", Str(name))];
  }

  /** updateUser: one PUT carrying the profile body. */
  method UpdateUser<T>(token: string, leaderboard: Option<bool>, showUsername: Option<bool>, username: Option<string>,
                       server: Request -> HttpResponse<T>)
    returns (call: Call<T>)
    ensures call.sent == [ProfileRequest(token, Serialize(ProfileFields(leaderboard, showUsername, username)))]
    ensures username.None? || Plain(username.value) ==>
              Decode(call.sent[0].body.value) == Some(ProfileFields(leaderboard, showUsername, username))
    ensures call.result.Ok? <==> server(call.sent[0]).status == 200
    ensures call.result.Ok? ==> call.result.value == server(call.sent[0]).json
    ensures call.result.Err? ==>
              call.result.error == RuntimeError("Unable to update user information: " + server(call.sent[0]).text)
  {
    var payload := WriteProfile(leaderboard, showUsername, username);
    if username.None? || Plain(username.value) {
      ProfileWellFormed(leaderboard, showUsername, username);
      DecodeSerialize(ProfileFields(leaderboard, showUsername, username));
    }
    call := Exchange(ProfileRequest(token, payload), server, "Unable to update user information: ");
  }

  lemma ProfileWellFormed(leaderboard: Option<bool>, showUsername: Option<bool>, username: Option<string>)
    requires username.None? || Plain(username.value)
    ensures WellFormed(ProfileFields(leaderboard, showUsername, username))
  {
    var a := if showUsername.Some? then [Field("show_username", Bool(showUsername.value))] else [];
    var b := if leaderboard.Some? then [Field("show_leaderboard", Bool(leaderboard.value))] else [];
    var c := if username.Some? then [Field("username", Str(username.value))] else [];
    ProfileKeysPlain();
    assert WellFormed(a) && WellFormed(b) && WellFormed(c);
    WellFormedAppend(a, b);
    WellFormedAppend(a + b, c);
  }

  // ---------------------------------------------------------------------------
  // generateToken

  /** The scopes granted, in the order deposit, withdraw, positions, user. */
  function Scopes(deposit: bool, withdraw: bool, positions: bool, user: bool): seq<string> {
    KeyIf(deposit, "deposit") + KeyIf(withdraw, "withdraw") + KeyIf(positions, "positions") + KeyIf(user, "user")
  }

  function ScopeRank(scope: string): nat {
    if scope == "deposit" then 0
    else if scope == "withdraw" then 1
    else if scope == "positions" then 2
    else if scope == "user" then 3
    else 4
  }

  /** The scopes array holds exactly the enabled scopes; it is empty when
      none is enabled. */
  lemma ScopesPresence(deposit: bool, withdraw: bool, positions: bool, user: bool)
    ensures var s := Scopes(deposit, withdraw, positions, user);
      && ("deposit" in s <==> deposit)
      && ("withdraw" in s <==> withdraw)
      && ("positions" in s <==> positions)
      && ("user" in s <==> user)
      && (s == [] <==> !deposit && !withdraw && !positions && !user)
  {
  }

  /** The scopes are written in one fixed order, each at most once. */
  lemma ScopesOrdered(deposit: bool, withdraw: bool, positions: bool, user: bool)
    ensures Ascending(Scopes(deposit, withdraw, positions, user), ScopeRank)
    ensures RankedBelow(Scopes(deposit, withdraw, positions, user), ScopeRank, 4)
  {
    var k1 := KeyIf(deposit, "deposit");
    var k2 := k1 + KeyIf(withdraw, "withdraw");
    var k3 := k2 + KeyIf(positions, "positions");
    assert ScopeRank("deposit") == 0 && ScopeRank("withdraw") == 1;
    assert ScopeRank("positions") == 2 && ScopeRank("user") == 3;
    assert [] + k1 == k1;
    AscendingKeyIf([], deposit, "deposit", ScopeRank, 0);
    AscendingKeyIf(k1, withdraw, "withdraw", ScopeRank, 1);
    AscendingKeyIf(k2, positions, "positions", ScopeRank, 2);
    AscendingKeyIf(k3, user, "user", ScopeRank, 3);
  }

  function TokenFields(expiry: int, scopes: seq<string>): seq<Field> {
    [Field("expiry", Int(expiry)), Field("scopes", Strs(scopes))]
  }

  /** The token body: the expiry, then the scopes array. */
  lemma TokenBody(expiry: int, scopes: seq<string>)
    ensures Serialize(TokenFields(expiry, scopes))
         == "{\"expiry\":" + IntText(expiry) + ",\"scopes\":[" + Join(QuoteAll(scopes)) + "]}"
  {
    var j := Join(QuoteAll(scopes));
    TokenOpened(expiry, scopes);
    Close(TokenFields(expiry, scopes));
    assert Render(Strs(scopes)) == "[" + j + "]";
    ScopesGlue("{\"expiry\":" + IntText(expiry), j);
  }

  lemma TokenOpened(expiry: int, scopes: seq<string>)
    ensures Opened(TokenFields(expiry, scopes)) == "{\"expiry\":" + IntText(expiry) + ",\"scopes\":" + Render(Strs(scopes))
  {
    var f1 := Field("expiry", Int(expiry));
    FirstInt("expiry", expiry);
    assert "{\"" + "expiry" + "\":" == "{\"expiry\":";
    Append([f1], "scopes", Strs(scopes), ",\"scopes\":");
    assert [f1] + [Field("scopes", Strs(scopes))] == TokenFields(expiry, scopes);
  }

  function TokenRequest(payload: string): Request {
    Request(Post, Lnapi + TokenUrl, [], None, Some(payload))
  }

  /** The body generateToken writes, with its putComma flag telling whether a
      scope has been written yet. */
  method WriteToken(expiry: int, deposit: bool, withdraw: bool, positions: bool, user: bool)
    returns (payload: string)
    ensures payload == Serialize(TokenFields(expiry, Scopes(deposit, withdraw, positions, user)))
  {
    payload := "{\"expiry\":" + IntText(expiry) + ",\"scopes\":[";
    ghost var head := payload;
    var putComma := false;
    ghost var items: seq<string> := [];
    assert payload == head + Join(QuoteAll(items));
    if deposit {
      payload, items := WriteScope(head, payload, items, putComma, "deposit");
      putComma := true;
    }
    assert items == KeyIf(deposit, "deposit");
    if withdraw {
      payload, items := WriteScope(head, payload, items, putComma, "withdraw");
      putComma := true;
    }
    assert items == KeyIf(deposit, "deposit") + KeyIf(withdraw, "withdraw");
    if positions {
      payload, items := WriteScope(head, payload, items, putComma, "positions");
      putComma := true;
    }
    assert items == KeyIf(deposit, "deposit") + KeyIf(withdraw, "withdraw") + KeyIf(positions, "positions");
    if user {
      payload, items := WriteScope(head, payload, items, putComma, "user");
      putComma := true;
    }
    assert items == Scopes(deposit, withdraw, positions, user);
    TokenBody(expiry, items);
    payload := payload + "]}";
  }

  /** One scope of generateToken: a comma when one is due, then the quoted
      scope. */
  method WriteScope(ghost head: string, payload: string, ghost items: seq<string>, putComma: bool, scope: string)
    returns (written: string, ghost extended: seq<string>)
    requires payload == head + Join(QuoteAll(items)) && putComma == (items != [])
    ensures extended == items + [scope] && written == head + Join(QuoteAll(extended))
  {
    written := payload;
    if putComma {
      written := written + ",";
    }
    written := written + ("\"" + scope + "\"");
    extended := items + [scope];
    AppendItem(items, scope);
    Regroup(head, Join(QuoteAll(items)), if items == [] then "" else ",");
    Regroup(head, Join(QuoteAll(items)) + (if items == [] then "" else ","), Quote(scope));
  }

  /** generateToken: one POST without authorization; the result is the
      "token" entry of the answer. */
  method GenerateToken(expiry: int, deposit: bool, withdraw: bool, positions: bool, user: bool,
                       server: Request -> HttpResponse<map<string, string>>)
    returns (call: Call<string>)
    ensures call.sent == [TokenRequest(Serialize(TokenFields(expiry, Scopes(deposit, withdraw, positions, user))))]
    ensures Decode(call.sent[0].body.value) == Some(TokenFields(expiry, Scopes(deposit, withdraw, positions, user)))
    ensures var resp := server(call.sent[0]);
      && (resp.status == 200 && "token" in resp.json ==> call.result == Ok(resp.json["token"]))
      && (resp.status == 200 && "token" !in resp.json ==> call.result == Err(KeyError("token")))
      && (resp.status != 200 ==> call.result == Err(RuntimeError("Unable to generate user token: " + resp.text)))
  {
    var payload := WriteToken(expiry, deposit, withdraw, positions, user);
    TokenWellFormed(expiry, deposit, withdraw, positions, user);
    DecodeSerialize(TokenFields(expiry, Scopes(deposit, withdraw, positions, user)));
    var answer := Exchange(TokenRequest(payload), server, "Unable to generate user token: ");
    if answer.result.Err? {
      return Call(answer.sent, Err(answer.result.error));
    }
    if "token" !in answer.result.value {
      return Call(answer.sent, Err(KeyError("token")));
    }
    call := Call(answer.sent, Ok(answer.result.value["token"]));
  }

  lemma TokenWellFormed(expiry: int, deposit: bool, withdraw: bool, positions: bool, user: bool)
    ensures WellFormed(TokenFields(expiry, Scopes(deposit, withdraw, positions, user)))
  {
    TokenNamesPlain();
    var k1 := KeyIf(deposit, "deposit");
    var k2 := k1 + KeyIf(withdraw, "withdraw");
    var k3 := k2 + KeyIf(positions, "positions");
    ItemsAppend(k1, KeyIf(withdraw, "withdraw"));
    ItemsAppend(k2, KeyIf(positions, "positions"));
    ItemsAppend(k3, KeyIf(user, "user"));
  }

  // ---------------------------------------------------------------------------
  // getTransactions

  /** The query getTransactions sends: "type" and "getLength" always, then
      "nbitem" and "index" together unless nbitem is -1, then "start" and
      "end" when given; each with its argument's value. */
  predicate TransactionQuery(params: Params, kind: string, nbitem: int, index: int, getLength: bool,
                             start: Option<int>, end: Option<int>) {
    && ParamKeys(params) == ["type", "getLength"] + (if nbitem != -1 then ["nbitem", "index"] else [])
                            + KeyIf(start.Some?, "start") + KeyIf(end.Some?, "end")
    && Lookup(params, "type") == Some(Text(kind))
    && Lookup(params, "getLength") == Some(Text(BoolText(getLength)))
    && Lookup(params, "nbitem") == (if nbitem != -1 then Some(Number(nbitem)) else None)
    && Lookup(params, "index") == (if nbitem != -1 then Some(Number(index)) else None)
    && Lookup(params, "start") == (if start.Some? then Some(Number(start.value)) else None)
    && Lookup(params, "end") == (if end.Some? then Some(Number(end.value)) else None)
  }

  /** The params dict getTransactions fills in place. */
  method TransactionParams(kind: string, nbitem: int, index: int, getLength: bool, start: Option<int>, end: Option<int>)
    returns (params: Params)
    ensures TransactionQuery(params, kind, nbitem, index, getLength, start, end)
  {
    params := PageParams(kind, getLength, nbitem, index);
    ghost var paged := ["type", "getLength"] + (if nbitem != -1 then ["nbitem", "index"] else []);
    assert "start" !in paged && "end" !in paged;
    params := SetIfGiven(params, "start", start);
    assert "end" !in paged + KeyIf(start.Some?, "start");
    params := SetIfGiven(params, "end", end);
  }

  /** The "type" and "getLength" entries, then "nbitem" and "index" unless
      nbitem is -1. */
  method PageParams(kind: string, getLength: bool, nbitem: int, index: int) returns (params: Params)
    ensures ParamKeys(params) == ["type", "getLength"] + (if nbitem != -1 then ["nbitem", "index"] else [])
    ensures Lookup(params, "type") == Some(Text(kind))
    ensures Lookup(params, "getLength") == Some(Text(BoolText(getLength)))
    ensures Lookup(params, "nbitem") == (if nbitem != -1 then Some(Number(nbitem)) else None)
    ensures Lookup(params, "index") == (if nbitem != -1 then Some(Number(index)) else None)
    ensures Lookup(params, "start") == None && Lookup(params, "end") == None
  {
    params := [("type", Text(kind)), ("getLength", Text(BoolText(getLength)))];
    assert params[1..] == [("getLength", Text(BoolText(getLength)))];
    assert ParamKeys(params) == ["type", "getLength"];
    assert Lookup(params, "type") == Some(Text(kind));
    assert Lookup(params, "getLength") == Some(Text(BoolText(getLength)));
    LookupAbsent(params, "nbitem");
    LookupAbsent(params, "index");
    LookupAbsent(params, "start");
    LookupAbsent(params, "end");
    if nbitem != -1 {
      AssignOthers(params, "nbitem", Number(nbitem));
      params := Assign(params, "nbitem", Number(nbitem));
      AssignOthers(params, "index", Number(index));
      params := Assign(params, "index", Number(index));
    }
  }

  /** `if value != None: params[key] = value` for a key not yet present. */
  method SetIfGiven(before: Params, key: string, value: Option<int>) returns (params: Params)
    requires key !in ParamKeys(before)
    ensures ParamKeys(params) == ParamKeys(before) + KeyIf(value.Some?, key)
    ensures Lookup(params, key) == (if value.Some? then Some(Number(value.value)) else None)
    ensures forall j :: j != key ==> Lookup(params, j) == Lookup(before, j)
  {
    params := before;
    if value != None {
      AssignOthers(params, key, Number(value.value));
      params := Assign(params, key, Number(value.value));
    } else {
      LookupAbsent(params, key);
    }
  }

  /** getTransactions: one GET of the history with that query. */
  method GetTransactions<T>(token: string, kind: string, nbitem: int, index: int, getLength: bool,
                            start: Option<int>, end: Option<int>, server: Request -> HttpResponse<T>)
    returns (call: Call<T>)
    ensures |call.sent| == 1 && call.sent[0].verb == Get && call.sent[0].url == Lnapi + UserHistoryUrl
    ensures call.sent[0].authorization == Bearer(token) && call.sent[0].body.None?
    ensures TransactionQuery(call.sent[0].params, kind, nbitem, index, getLength, start, end)
    ensures call.result.Ok? <==> server(call.sent[0]).status == 200
    ensures call.result.Ok? ==> call.result.value == server(call.sent[0]).json
    ensures call.result.Err? ==>
              call.result.error == RuntimeError("Unable to get user transactions: " + server(call.sent[0]).text)
  {
    var params := TransactionParams(kind, nbitem, index, getLength, start, end);
    call := Exchange(Request(Get, Lnapi + UserHistoryUrl, params, Bearer(token), None), server,
                     "Unable to get user transactions: ");
  }

  // ---------------------------------------------------------------------------
  // String-literal facts: how literal pieces of the request text glue
  // together, and that the literal keys and scopes are plain; kept apart
  // from the lemmas about the client.

  lemma ScopesGlue(o: string, j: string)
    ensures o + ",\"scopes\":" + ("[" + j + "]") + "}" == o + ",\"scopes\":[" + j + "]}"
  {
    Regroup(o, ",\"scopes\":" + ("[" + j), "]");
    Regroup(o, ",\"scopes\":", "[" + j);
    Regroup(o + ",\"scopes\":", "[", j);
    Regroup(o, ",\"scopes\":", "[");
    Regroup(o + ",\"scopes\":[" + j, "]", "}");
  }

  lemma UsernameLead()
    ensures "," + "\"" + "username" + "\":\"" == ",\"username\":\""
    ensures "" + "\"" + "username" + "\":\"" == "\"username\":\""
  {
  }

  lemma ProfileKeysPlain()
    ensures Plain("show_username") && Plain("show_leaderboard") && Plain("username")
  {
  }

  lemma TokenNamesPlain()
    ensures Plain("expiry") && Plain("scopes")
    ensures Plain("deposit") && Plain("withdraw") && Plain("positions") && Plain("user")
  {
  }

}
