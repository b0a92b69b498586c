# Bitcart API: token scopes, live notifications, fiat list and categories

A Dafny model of the decision-making parts of Bitcart's merchant API
(`api/views.py`):

- **`POST /token` (`create_token`)**: the caller authenticates with a bearer
  token, or else with email and password (401 if both fail). A non-superuser
  who asks for `server_management` gets 422 under `strict`. Without `strict`,
  one occurrence of that scope is removed. A caller whose bearer token lacks
  `full_control` must already hold every remaining requested scope, or gets 403.
  Superusers are exempt only from the `server_management` rule. Password
  logins and `full_control` tokens skip the subset check.
  `Tokens.ScopePolicy` states the decision as a function.
  `Tokens.CreateToken` follows the handler step by step, with the
  `list.remove` call and the subset-check loop, and is proved equal to it.
- **The WebSocket notification endpoints** `WalletNotify` and `InvoiceNotify`
  are classes whose fields (`walletId`/`invoiceId`, `accessToken`, `user`,
  `wallet`/`invoice`, `subscriber`, `channel`) are set step by step by
  `OnConnect`. They act on a `WebSocket` object (accept, send a JSON status,
  close with a code) and on a `Broker`. The broker keeps a registry of live
  subscriber handles, each with its channel `"channel:{id}"`.
  - `OnConnect` subscribes exactly when every step before the subscription
    succeeds. Every failure closes the connection with 1008 and leaves the
    registry untouched. An invoice whose status is not `"Pending"` gets one
    `{"status": ...}` message and a normal close instead.
  - `OnDisconnect` unsubscribes exactly when a subscriber was obtained.
  - `WalletSession` and `InvoiceSession` run one connection through both
    handlers, as the WebSocket endpoint does. They prove that the registry
    ends exactly as it began on every path.
- **`GET /fiatlist` (`get_fiatlist`)**: the loop over the coins' fiat lists,
  including its quirk. An empty intermediate intersection is falsy, so the
  next coin's list replaces it instead of being intersected with it. The
  result is then filtered and sorted. `Fiat.Fold` specifies the loop, and
  lemmas relate it to the plain intersection of all lists.
- **`GET /categories` (`categories`)**: the set of non-empty product
  categories plus `"all"`.

Supporting modules:
- `Ints` models Python's `int()` on the `model_id` path parameter and `str()`
  inside the channel f-string. A round-trip lemma makes channel names injective.
- `Ordering` models Python's string order and `sorted()`.

Three behaviours of the code that a reader might not expect are modelled as
written:
- The wallet endpoint does not check ownership. Its query joins wallets to
  users but never filters by the authenticated user, so any token with the
  `wallet_management` scope can follow any existing wallet
  (`Sessions.WalletAdmissionIgnoresOwner`).
- Being a superuser does not exempt a caller from the scope-subset check of
  `create_token`. Only a `full_control` token or a password login skips it.
- With no coin configured, `get_fiatlist` does not return an empty list. The
  accumulator stays `None`, and the handler raises `TypeError`: in the list
  comprehension over it when a query is given, otherwise in `sorted(None)`.
  The model returns `None` for this case.

## Model

| member | source | states |
|---|---|---|
| `Tokens.ScopePolicy` | api/views.py:603-614 | 422 exactly when a non-superuser asks for `server_management` with `strict`. Every other failure is 403. Granted scopes are a sub-multiset of the requested ones. With a token lacking `full_control`, every granted scope is held by that token. When the caller is a superuser or did not ask for `server_management`, a grant is exactly the requested list. |
| `Tokens.CreateToken` | api/views.py:587-622 | 401 when neither the bearer token nor the password login authenticates. Otherwise the result is exactly the scope decision for that user: the status on failure, or a new token for the user's id with the granted scopes. |
| `Tokens.IndexOf` | api/views.py:610 | `list.remove` finds the first occurrence: the index holds the value and no earlier element does. |
| `Tokens.RemoveFirst` | api/views.py:610 | `list.remove` shortens the list by one and removes exactly one copy of the value (multiset difference). |
| `Tokens.NonStrictStripsOneOccurrence` | api/views.py:605-610 | Whatever the caller authenticated with, a grant to a non-superuser who asked for `server_management` happens only without `strict`, and is the request with its first `server_management` dropped. The other scopes keep their order. |
| `Tokens.FullControlSkipsSubsetCheck` | api/views.py:611 | A caller whose bearer token holds `full_control` is never refused with 403. |
| `Tokens.PasswordLoginSkipsSubsetCheck` | api/views.py:592-602 | A password-login caller is never refused with 403. |
| `Tokens.SuperuserNotExemptFromSubsetCheck` | api/views.py:611-614 | A superuser whose token lacks `full_control` gets 403 for any requested scope the token does not hold. |
| `Tokens.SubsetCheckExact` | api/views.py:611-614 | With a token lacking `full_control`, success holds if and only if every scope left after the `server_management` step is in the token. |
| `Tokens.DuplicateServerManagementSurvives` | api/views.py:605-610 | Password login, non-superuser, no `strict`, `server_management` requested twice: the grant contains `server_management`. |
| `Tokens.RemoveAll` | api/views.py:610 | Every occurrence of the value is removed. All other values keep their counts. |
| `Tokens.IntendedScopePolicy` | api/views.py:605-614 | A non-superuser is never granted `server_management`. 422 under the same condition as the code. |
| `Tokens.RemoveFirstIsRemoveAllWhenSingle` | api/views.py:610 | For a value present exactly once, `list.remove` and removing every occurrence agree. |
| `Tokens.IntendedAgreesOnSingleRequest` | api/views.py:605-614 | When `server_management` is requested at most once, the intended policy and the code's policy decide identically. |
| `Fiat.GetFiatList` | api/views.py:324-336 | No answer (the handler raises) exactly when no coin is configured. Otherwise the result is strictly ascending and holds exactly the members of the loop's final set that pass the query filter. |
| `Fiat.FoldWithoutResetIsIntersection` | api/views.py:326-332 | If no intermediate accumulator is empty, the loop yields the intersection of all coins' lists. |
| `Fiat.Step` | api/views.py:327-331 | One loop turn always yields a set, within the coin's list. A non-empty accumulator can only shrink. |
| `Fiat.Fold` | api/views.py:324-331 | The accumulator is unset exactly when no coin was seen. Every currency in it is quoted by the last coin. |
| `Fiat.FoldIsSuffixIntersection` | api/views.py:324-331 | The loop's result is the intersection of the lists from the last reset point onwards. That point is the first coin or a coin reached with an empty accumulator, and no later accumulator is empty. |
| `Fiat.EmptyIntersectionIsReset` | api/views.py:329-332 | Lists USD / EUR / EUR,GBP give {EUR, GBP}, while the intersection of all three is empty. |
| `Ordering.Less` | api/views.py:336 | Python's `<` on strings: no string is below itself, and a proper prefix is below every extension of it. |
| `Ordering.Sorted` | api/views.py:336 | `sorted(s)` is strictly ascending in Python's string order and has exactly the elements of s. |
| `Ordering.Insert` | api/views.py:336 | Inserting into an ascending list keeps it strictly ascending and adds exactly that element. |
| `Ordering.StrictlySortedUnique` | api/views.py:336 | Two strictly ascending lists with the same elements are equal, so the sorted answer is fully determined. |
| `Catalog.Categories` | api/views.py:466-474 | The result always contains `"all"` and never the empty string. Every other category in it occurs in the store's rows. |
| `Catalog.CategoriesExact` | api/views.py:468-474 | A non-empty category other than `"all"` is in the result exactly when some product row carries it. |
| `Catalog.CategoriesOfConcatenation` | api/views.py:468-474 | The result depends only on which categories occur, not on row order or how the rows are split. |
| `Ints.ParseInt` | api/views.py:686 | `int()` on the path parameter: a string with no digit is always rejected. |
| `Ints.ParseIntSkipsOnlyAsciiSpace` | api/views.py:686-690 | Spaces and line breaks around the number are skipped, but a leading U+001C makes `int()` fail, so the connection is refused. |
| `Ints.NatString` | api/views.py:716 | `str(n)` for n >= 0 is a non-empty digit string with no leading zero unless n is 0. |
| `Ints.DecimalString` | api/views.py:716 | `str(n)` is non-empty and has no white space at either end. |
| `Ints.NatStringValue` | api/views.py:716 | The digits printed for n are a well-formed digit run whose value is n. |
| `Ints.ParseDecimalString` | api/views.py:727 | `int(str(n)) == n`. |
| `Ints.DecimalStringInjective` | api/views.py:754 | Distinct ids print differently. |
| `Ints.StripKeepsInterior` | api/views.py:686 | The white-space stripping done by `int()` leaves a contiguous slice of the input, starting after the leading white space, with no white space at either end. |
| `Notifications.ChannelName` | api/views.py:716 | A channel name is the `channel:` prefix followed by the id. |
| `Notifications.ChannelNameInjective` | api/views.py:754 | Distinct entities never share a channel. |
| `Notifications.SubscribeAddsOne` | api/views.py:706 | A new subscription adds exactly its own handle to its channel: the count goes up by one. All other channels are unchanged. |
| `Notifications.SubscribedOn` | api/views.py:744 | Subscribing adds the new handle to its own channel's subscriber set, and to no other channel's. |
| `Notifications.UnsubscribeRemovesOne` | api/views.py:716 | Unsubscribing a live handle removes exactly it from its channel: the count goes down by one. All other channels are unchanged. |
| `Notifications.UnsubscribeUndoesSubscribe` | api/views.py:752-754 | Unsubscribing a fresh subscription restores the registry exactly. |
| `Notifications.UnsubscribeIdempotent` | api/views.py:714-716 | A second unsubscribe with the same handle changes nothing. |
| `Notifications.Broker.constructor` | api/views.py:706 | The registry that `make_subscriber` and `unsubscribe` act on starts with no subscribers. |
| `Notifications.Broker.MakeSubscriber` | api/views.py:706 | `make_subscriber(id)` returns a handle not yet live and the channel `channel:{id}`, and registers the handle on that channel. |
| `Notifications.Broker.Unsubscribe` | api/views.py:716 | `unsubscribe(channel)` removes the handle from the registry if it is live on that channel, and otherwise changes nothing. |
| `Notifications.WebSocket.constructor` | api/views.py:678 | A new connection carries its path and query parameters. Nothing has been sent yet and it is not closed. |
| `Notifications.WebSocket.Accept` | api/views.py:683 | Accepting changes nothing else. |
| `Notifications.WebSocket.SendJson` | api/views.py:740 | The message is appended to what was sent. |
| `Notifications.WebSocket.Close` | api/views.py:689 | The connection records the close code. |
| `Sessions.WalletNotify.constructor` | api/views.py:679-680 | A new endpoint holds no subscriber and none of the per-connection fields. |
| `Sessions.ModelId` | api/views.py:686-690 | A missing `model_id` (KeyError) gives no id. An id is only read from a parameter holding a decimal digit. |
| `Sessions.ModelIdReadsPrintedId` | api/views.py:686 | A `model_id` that is the decimal text of n yields the id n. |
| `Sessions.WalletAdmitted` | api/views.py:686-705 | The four steps of `on_connect` as one condition: the id parses, the `token` query parameter is present, the token is authorized and the wallet exists. Admission therefore needs both parameters. `WalletNotify.OnConnect` subscribes exactly when it holds. |
| `Sessions.WalletNotify.OnConnect` | api/views.py:682-707 | A subscriber exists exactly when the id parses, a `token` query parameter is present, that token passes the `wallet_management` check and the wallet exists. Every failure closes with 1008 and leaves the registry unchanged. On success it registers a fresh handle on `channel:{id}`, records the token's user and the wallet, and leaves the connection open. |
| `Sessions.WalletNotify.OnDisconnect` | api/views.py:714-716 | Unsubscribes the held handle from `channel:{walletId}` when there is one. Otherwise it leaves the registry unchanged. |
| `Sessions.WalletAdmissionIgnoresOwner` | api/views.py:698-702 | A user with a valid wallet-management token is admitted to a wallet owned by someone else. |
| `Sessions.WalletSession` | api/views.py:678-716 | Across connect and disconnect the registry is unchanged on every path. A subscription existed exactly when admitted. Otherwise the connection was closed with 1008. |
| `Sessions.InvoiceNotify.constructor` | api/views.py:720-721 | A new endpoint holds no subscriber and no invoice. |
| `Sessions.InvoiceNotify.OnConnect` | api/views.py:723-745 | An unparsable id or a missing invoice closes with 1008. A non-`"Pending"` invoice gets exactly one `{"status": status}` message, then a normal close. Both paths create no subscriber and leave the registry unchanged. A `"Pending"` invoice is reloaded and a fresh handle registered on `channel:{id}`, with nothing sent. |
| `Sessions.InvoiceNotify.OnDisconnect` | api/views.py:752-754 | Unsubscribes the held handle from `channel:{invoiceId}` when there is one. Otherwise it leaves the registry unchanged. |
| `Sessions.InvoiceSession` | api/views.py:719-754 | Across connect and disconnect the registry is unchanged on every path. A subscription existed exactly for an existing `"Pending"` invoice. |

## Findings

| source | as written | input that shows it | evidently intended | confidence | as-written member | corrected member |
|---|---|---|---|---|---|---|
| api/views.py:605-610 | `list.remove` drops only the first `server_management` from a non-superuser's request | password login, non-superuser, `strict` false, permissions `["server_management", "server_management"]`: the token is granted `["server_management"]` | a non-superuser never receives `server_management` | medium, not executed; the request schema is not part of this model and might reject duplicates | `Tokens.DuplicateServerManagementSurvives` | `Tokens.IntendedScopePolicy` |

`Tokens.CreateToken` keeps the code's behaviour. `Tokens.IntendedAgreesOnSingleRequest`
shows that the two policies differ only on requests that name
`server_management` more than once.

## Left out

- The relay loops `poll_subs` and `settings.loop.create_task`: asynchronous forwarding of broker messages to the socket. Publishing, per-channel delivery order and concurrency between sessions are not modelled. Only the subscribe/unsubscribe bookkeeping is.
- `utils.AuthDependency`, `utils.authenticate_user`, `utils.make_subscriber` and `crud.get_invoice` are not part of this model. Their results are inputs: the bearer and login results of `CreateToken`, the `authorized` map, the `loadRelated` function, and `Broker.MakeSubscriber`, which never fails.
- The database queries (`models.Wallet`/`models.Invoice` lookups, the product category query, `models.Token.create`) are inputs (maps, functions, a sequence of rows) or a returned record. Constraint violations at insert time, the generated token id and the response's extra fields are not modelled.
- The 401 response body (`status` from the password check) is reduced to the status code. Error messages are not modelled.
- `Ints.ParseInt`: white space and digits are ASCII only. Below U+007F, `int()` skips only tab, line feed, vertical tab, form feed, carriage return and space, as modelled. From U+0080 up it also accepts Unicode white space and Unicode decimal digits, which the model rejects.
- `Fiat.GetFiatList`: the regular-expression query is an abstract predicate on each currency. Python `re` matching is not modelled, nor the `re.error` that `re.compile(query)` raises for an invalid query.
- `Fiat.GetFiatList`: the `TypeError` raised when no coin is configured is a `None` result.
- Notifications.Broker.constructor: the empty starting registry is an assumption about the broker. `api/views.py` never creates it. The session methods accept a broker holding any registry.
- Notifications.Broker.MakeSubscriber: assumes `utils.make_subscriber(id)` subscribes on `channel:{id}`, the name `on_disconnect` rebuilds at api/views.py:716 and 754. `utils` is not part of this model. The sessions' guarantee that the registry ends as it began rests on this match. With any other name, the unsubscribe would do nothing and the subscription would stay live.
- `channel_name = secrets.token_urlsafe(32)` is never used and is not modelled.
- The `close_code` argument of `on_disconnect` is unused by the source and is not a parameter.
- Every other route of `api/views.py` (CRUD wiring, pagination, product forms and images, statistics, balances, rates, server management) is outside the modelled core.
