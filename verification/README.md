# LNMarkets client, modelled in Dafny

A model of the request-shaping core of the LNMarkets Python client. This is a
thin HTTPS client for the LN Markets futures exchange. The model covers:

- the futures position calls in `LNMarkets/Positions.py`: listing, creating,
  updating, closing and cancelling positions, adding margin, cashing in,
  bulk-closing one side, and the margin and profit totals;
- the account calls in `LNMarkets/User.py`: account information and balance,
  the profile update, API token generation and the transaction history query.

The network is an oracle: a function from request to response,
`Request -> HttpResponse<T>`. A single-request operation receives one such
`server`. The operations that list positions and then close them
(CloseSide, CloseAllLongs, CloseAllShorts) receive the one server split by
response type: a `lister` that answers the listing and a `closer` that
answers the closes. ListedProfit and its callers receive a `lister`. Every
operation returns a `Call`: the requests it sent, in order, plus its
outcome. A Python exception becomes an `Err` outcome naming the exception
class and its message. A status of 200 selects the decoded body; any other
status selects the `RuntimeError` the client raises.

Request bodies are built the way the client builds them. The createPosition,
updateUser and generateToken bodies are appended piece by piece, with the
`comma` and `putComma` flags placing the separators; each of these builders
is a method proved equal to `Json.Serialize` of a structured field list. The
updatePosition, addMargin/cashin and cancelPosition bodies are single format
strings (`UpdateBody`, `AmountBody`, `CancelBody`), each proved equal to
`Json.Serialize` by a lemma. `Json.Decode` reads such text back, and
`Json.DecodeSerialize` proves the round trip. So every body is shown to
carry exactly its fields, in order, whenever its strings are plain
(`Json.Plain`): no quote, backslash or control character.

Numbers:

- `%d` values are integers (`Text.IntText`).
- `%.2f` values (leverage, price, stoploss, takeprofit, value) are
  fixed-point amounts counted in hundredths (`Text.FixedText`).
- `str(b).lower()` is `Text.BoolText`.

Modules:

| module | file | content |
|---|---|---|
| `Wrappers` | wrappers.dfy | `Option` |
| `Text` | text.dfy | number and boolean rendering, digit parsing |
| `Json` | json.dfy | field lists, serialisation, builder lemmas, decoder and round trip |
| `Http` | http.dfy | endpoints, requests, responses, errors, the query dict |
| `Positions` | positions.dfy | `LNMarkets/Positions.py` |
| `User` | user.dfy | `LNMarkets/User.py` |

## Model

| member | source | states |
|---|---|---|
| Http.Exchange | LNMarkets/Positions.py:74-78 | sends exactly one request; the result is the decoded body exactly when the status is 200, otherwise a RuntimeError whose message is the prefix followed by the response text |
| Http.Assign | LNMarkets/User.py:112-117 | `d[k] = v` makes k map to v; an existing key keeps its place and a new key is appended at the end of the insertion order |
| Http.AssignKeepsOthers | LNMarkets/User.py:112-117 | `d[k] = v` leaves the value of every other key unchanged |
| Http.LookupAbsent | LNMarkets/User.py:110-117 | a key never assigned has no value in the dict |
| Text.BoolText | LNMarkets/User.py:51-57 | a boolean is rendered as the lowercase text "true" or "false", and "true" exactly when it is true |
| Json.IntRoundTrip | LNMarkets/Positions.py:59-61 | the `%d` text of any integer (Text.IntText), negative ones included, reads back as that integer and stops exactly where it ends, when a JSON delimiter follows |
| Json.FixedRoundTrip | LNMarkets/Positions.py:63-65 | the `%.2f` text of any amount in hundredths (Text.FixedText), negative ones included, reads back as that amount and stops exactly where it ends, when a JSON delimiter follows |
| Text.ParseNatText | LNMarkets/Positions.py:59-61 | the decimal text of a natural number reads back as that number and stops where the digits end |
| Json.JoinSnoc | LNMarkets/User.py:176-196 | appending an item puts exactly one comma before it, and none before the first item |
| Json.AppendItem | LNMarkets/User.py:177-181 | a scope appended to the array is preceded by a comma exactly when the array already holds an item |
| Json.AppendBool | LNMarkets/User.py:50-58 | a boolean entry written after the right separator extends the open body by one field |
| Json.CloseStr | LNMarkets/User.py:59-65 | a closing string entry written after the right separator gives the serialisation of the extended field list |
| Json.DecodeSerialize | LNMarkets/Positions.py:54-67 | a body whose keys and strings are plain (no quote, backslash or control character) decodes back to exactly its fields, in order |
| Positions.GetPositions | LNMarkets/Positions.py:5-31 | one authorised GET of the positions endpoint; its parameters are exactly {"type": type} when a type is given and empty otherwise; the error message carries the response text only when a type is given |
| Positions.CreatePositionCall | LNMarkets/Positions.py:34-78 | a missing margin and quantity, or a limit order without a price, raises the matching ValueError and sends nothing; otherwise exactly one POST carries the serialised order fields, which decode back when type and side have no quote, backslash or control character; the status decides the result |
| Positions.CreatePosition | LNMarkets/Positions.py:34-78 | the validate-then-append implementation does exactly what CreatePositionCall describes |
| Positions.WriteOrder | LNMarkets/Positions.py:54-67 | the appended payload equals the serialisation of the order fields |
| Positions.OrderKeys | LNMarkets/Positions.py:54-65 | the body keys are type, side, leverage, then price for a limit order, then margin (or quantity when margin is absent), then stoploss and takeprofit when given |
| Positions.OrderFieldsPresence | LNMarkets/Positions.py:56-65 | price appears iff the order is a limit order; margin appears iff margin is given; quantity appears iff margin is absent; stoploss and takeprofit each appear iff given |
| Positions.OrderFieldsOrdered | LNMarkets/Positions.py:54-65 | the keys stand in one fixed order, each at most once, and no other key appears |
| Positions.OrderFieldsValues | LNMarkets/Positions.py:54-65 | the body starts with type, side and leverage, and carries each given amount under its own key |
| Positions.OrderHead | LNMarkets/Positions.py:54 | the one-format opening text is the open body holding type, side and leverage |
| Positions.Buy | LNMarkets/Positions.py:92 | createPosition with type "m" and side "b", all else passed through and no price |
| Positions.Sell | LNMarkets/Positions.py:106 | createPosition with type "m" and side "s", all else passed through and no price |
| Positions.LimitBuy | LNMarkets/Positions.py:121 | createPosition with type "l" and side "b", the price passed through |
| Positions.LimitSell | LNMarkets/Positions.py:136 | createPosition with type "l" and side "s", the price passed through |
| Positions.UpdateBodyFields | LNMarkets/Positions.py:149 | the one-format update body is the serialisation of pid, type and value, in that order |
| Positions.UpdatePosition | LNMarkets/Positions.py:138-159 | one authorised PUT whose body decodes back to pid, type and value when pid and type have no quote, backslash or control character; the error names the pid and the response text |
| Positions.ClosePosition | LNMarkets/Positions.py:161-179 | one authorised DELETE with the single parameter pid; the error names the pid and the response text |
| Positions.Selected | LNMarkets/Positions.py:191-192 | a position is selected iff it is listed and is on the side, not closed and not canceled |
| Positions.SelectedAppend | LNMarkets/Positions.py:191-192 | selection keeps list order: selecting from a concatenation concatenates the selections |
| Positions.ReturnedPl | LNMarkets/Positions.py:194 | the "pl" entry of a close answer, or KeyError("pl") when it is missing |
| Positions.CloseFirst | LNMarkets/Positions.py:193-194 | one close inside closeAll sends exactly the close request; it succeeds iff the answer has status 200 and a "pl" entry, and then yields that pl; otherwise the close error or KeyError("pl") |
| Positions.CloseInOrder | LNMarkets/Positions.py:191-196 | closing positions one after another sends the close requests of a prefix of the list, in list order, and a successful run has sent one for every position |
| Positions.CloseInOrderSucceeds | LNMarkets/Positions.py:191-196 | when every close succeeds, each selected position is closed once, in list order, and the result is the sum of the returned pl |
| Positions.CloseInOrderAborts | LNMarkets/Positions.py:176-179 | when the first k closes succeed and the next fails, exactly k + 1 close requests are sent and that failure is raised, with no sum |
| Positions.CloseInOrderAppend | LNMarkets/Positions.py:191-196 | closing a concatenation is closing the first part, then, unless it failed, the second, with the profits added |
| Positions.CloseSide | LNMarkets/Positions.py:189-196 | the open listing is fetched first; a failed listing or a missing "open" entry raises; otherwise the selected positions are closed in order |
| Positions.CloseSideSucceeds | LNMarkets/Positions.py:181-196 | when the listing succeeds and every selected position closes, the listing request is followed by one close per selected position, in list order, and the result is the sum of the returned pl |
| Positions.CloseSelected | LNMarkets/Positions.py:191-196 | the filter-and-close loop over a listing sends and returns exactly what closing the selected positions in order does, stopping at the first failure |
| Positions.CloseMatching | LNMarkets/Positions.py:189-196 | fetching the listing and then running the filter-and-close loop does exactly what CloseSide describes |
| Positions.CloseAllLongs | LNMarkets/Positions.py:181-196 | CloseSide on side "b" |
| Positions.CloseAllShorts | LNMarkets/Positions.py:198-213 | CloseSide on side "s"; it differs from CloseAllLongs only in the side |
| Positions.SumAppend | LNMarkets/Positions.py:222-224 | the sum of a concatenation is the sum of the parts |
| Positions.MarginWithheld | LNMarkets/Positions.py:215-226 | the loop total is the sum of the margins over the list, which is 0 for an empty list |
| Positions.CalculateProfit | LNMarkets/Positions.py:228-239 | the loop total is the sum of the pl values over the list, which is 0 for an empty list |
| Positions.TotalsAppend | LNMarkets/Positions.py:215-239 | margin and profit totals over a concatenation add up |
| Positions.MarginBounds | LNMarkets/Positions.py:215-226 | with no negative margin, the total is non-negative and at least every single margin |
| Positions.ListedProfit | LNMarkets/Positions.py:241-259 | the positions listed under the kind are fetched; a failed listing or a missing entry raises; otherwise the result is the sum of their pl |
| Positions.ProfitOf | LNMarkets/Positions.py:248-249 | fetch-then-calculateProfit does exactly what ListedProfit describes |
| Positions.RealizedProfit | LNMarkets/Positions.py:241-249 | ListedProfit of the "closed" listing |
| Positions.UnrealizedProfit | LNMarkets/Positions.py:251-259 | ListedProfit of the "open" listing |
| Positions.AmountBodyFields | LNMarkets/Positions.py:276 | the one-format amount body is the serialisation of amount and pid, in that order |
| Positions.AmountCall | LNMarkets/Positions.py:271-281 | one authorised POST of the amount body, which decodes back when the pid has no quote, backslash or control character; the error names the pid and the response text |
| Positions.AddMargin | LNMarkets/Positions.py:261-281 | the amount POST to the add-margin endpoint, with the add-margin error message |
| Positions.CashinAsWritten | LNMarkets/Positions.py:299 | as written, cashin raises AttributeError("cashinnUrl") and sends nothing |
| Positions.Cashin | LNMarkets/Positions.py:283-303 | as intended, cashin posts the amount body to the cash-in endpoint, with the cash-in error message |
| Positions.CashinDiscrepancy | LNMarkets/Positions.py:298-299 | the written cashin sends no request, while the intended one sends one to the cash-in endpoint |
| Positions.CancelBodyFields | LNMarkets/Positions.py:319 | the cancel body is the serialisation of the single field pid |
| Positions.CancelPosition | LNMarkets/Positions.py:305-324 | one authorised POST to the cancel endpoint whose body decodes back to the pid when it has no quote, backslash or control character; the error names the pid and the response text |
| User.UserInformation | LNMarkets/User.py:5-20 | one authorised GET of the user endpoint; the decoded body on 200, a RuntimeError with the response text otherwise |
| User.GetBalance | LNMarkets/User.py:22-30 | exactly the "balance" entry of the account information; KeyError("balance") when it is missing; the account information error otherwise |
| User.ProfileKeys | LNMarkets/User.py:50-65 | the profile keys are show_username, show_leaderboard and username, each only when given, in that order |
| User.ProfilePresence | LNMarkets/User.py:50-65 | each profile key appears iff its argument is given, carrying that argument's value |
| User.ProfileOrdered | LNMarkets/User.py:50-65 | the profile keys stand in one fixed order, each at most once, and no other key appears |
| User.EmptyProfile | LNMarkets/User.py:48-60 | with all three arguments None the body is exactly "{}" |
| User.WriteFlag | LNMarkets/User.py:50-58 | a boolean entry is written with a leading comma exactly when a field precedes it |
| User.WriteLastName | LNMarkets/User.py:59-65 | the username entry is written with a leading comma exactly when a field precedes it, and closes the body |
| User.WriteProfile | LNMarkets/User.py:48-65 | the comma-flag payload equals the serialisation of the profile fields: one comma between each pair of entries, none leading or trailing |
| User.UpdateUser | LNMarkets/User.py:32-71 | one authorised PUT of the profile body, which decodes back to the profile fields when the username has no quote, backslash or control character; the status decides the result |
| User.ScopesPresence | LNMarkets/User.py:177-196 | each scope is in the array iff its flag is set; the array is empty iff no flag is set |
| User.ScopesOrdered | LNMarkets/User.py:177-196 | the scopes stand in the order deposit, withdraw, positions, user, each at most once |
| User.TokenBody | LNMarkets/User.py:175-197 | the token body is the expiry, then the comma-separated quoted scopes in brackets, then the closing brace |
| User.WriteScope | LNMarkets/User.py:177-181 | one scope is appended behind a comma exactly when putComma says a scope precedes it |
| User.WriteToken | LNMarkets/User.py:175-197 | the putComma payload equals the serialisation of the expiry and the enabled scopes |
| User.GenerateToken | LNMarkets/User.py:158-203 | one unauthorised POST of the token body, which decodes back to the expiry and the scopes; the "token" entry on 200, KeyError("token") when it is missing, the RuntimeError otherwise |
| User.PageParams | LNMarkets/User.py:110-113 | the dict starts with type and the lowercase getLength, and gains nbitem then index, with their values, exactly when nbitem is not -1; start and end are absent |
| User.SetIfGiven | LNMarkets/User.py:114-117 | an optional argument adds its key at the end, with its value, exactly when it is given, and leaves every other key's value alone |
| User.TransactionParams | LNMarkets/User.py:110-117 | the query holds type and the lowercase getLength, then nbitem and index together iff nbitem is not -1, then start and end each iff given, each with its argument's value, in that order |
| User.GetTransactions | LNMarkets/User.py:92-123 | one authorised GET of the history endpoint carrying that query; the status decides the result |

## Left out

- Only the authorization header is modelled. The accept and content-type headers are constant and are not part of `Request`.
- The server is a stateless function from request to response. It hands back the decoded JSON body, so a body that fails to parse as JSON is not modelled. Neither are timeouts or connection errors.
- Floating point is not modelled. `%.2f` values are exact hundredths, so no rounding happens. The `float(...)` accumulations in closeAllLongs, closeAllShorts, marginWithheld and calculateProfit are integer sums.
- JSON escaping is not modelled, since the client interpolates strings without escaping. The decode round trip is claimed only for plain strings: a quote, a backslash or a control character (section 7 of RFC 8259) in an interpolated string makes the body mean something else or not be JSON at all.
- Positions are records with every field present. The KeyError a listed position raises for a missing "side", "closed", "canceled", "pid", "margin" or "pl" field is not modelled. A missing "pl" in a close answer and a missing listing entry are modelled.
- User.GetBalance: the account information is a map from names to integers, so only the integer "balance" entry is modelled.
- login, logout, updatePassword, deposit, withdrawInvoice, withdrawLNURL, getTokens and revokeToken in LNMarkets/User.py are fixed-shape passthroughs with no request shaping, so they are not modelled. revokeToken without an argument also reads an undefined name, `tokenUrl`.
- LNMarkets/State.py and LNMarkets/History.py are endpoint wrappers and are not part of this model. Of LNMarkets/APIUrls.py, only the endpoint constants the modelled calls use appear, in `Http`.
- Three details of the source that a reader might not expect are kept as written:
  - leverage is written with `%.2f`, so an order with leverage 2 carries `"leverage":2.00`;
  - unrealizedProfit reads the "open" listing;
  - the ValueError message for a missing limit price keeps the spelling "pprovided".

## Findings

| source | as written | input that shows it | evidently intended | confidence | as-written member | corrected member |
|---|---|---|---|---|---|---|
| LNMarkets/Positions.py:299 | cashin posts to `APIUrls.cashinnUrl`, which LNMarkets/APIUrls.py does not define (it defines `cashinUrl`), so every call raises AttributeError before any request | cashin(token, "p1", 100), or any other arguments | post the amount body to the cash-in endpoint `/positions/cash-in` | high; not executed | Positions.CashinAsWritten | Positions.Cashin |
