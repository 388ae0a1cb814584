# cryptoWavy core, modelled in Dafny

cryptoWavy is a crypto-information web app. It has a LangGraph chat agent written in Python and a Next.js front end backed by Appwrite. Most of it is views and calls to outside services. This project models the parts that hold logic of their own and proves what they promise:

- **The agent's portfolio list** (`agent/crypto/cryptos.py`), in module `Cryptos`. The class `CryptoAgent` is the mutable agent state: the messages, the `cryptos` list of records keyed by `"id"`, `selected_crypto_id`, and the fetched prices and insights. Its methods are the three handlers that `perform_cryptos_node` dispatches to (add, delete, update), the stand-alone `delete_cryptos` and `update_cryptos` tools, and the graph nodes. Each method is proved against a pure function (`Without`, `UpdateAll`, `DeleteEach`, `UpdateFirstEach`, `PerformAll`). The lemmas say what those functions mean.
- **The agent's routing graph** (`agent/crypto/agent.py`), in module `Graph`. It covers `route`, the fixed edge table and paths through the graph.
- **The older chat module** (`agent/crypto/chat.py`), in module `Chat`. It covers its own `route`, which returns the string `"END"`, and the shape of `chat_node`'s result. The language model's reply and the market-data lookup are inputs.
- **The portfolio editing dialog** (`ui/src/components/PortfolioManager.tsx`), in module `Portfolio`. The class `PortfolioManager` holds the `holdings` rows and `isOpen`. It supports adding a blank row, editing one field of one row, and submitting.
- **The backend client** (`ui/src/lib/appwrite.ts`), in module `Appwrite`. The class `Store` keeps the `subscribers` and `users` collections as sequences. A counter stands for `ID.unique()`. The module covers `saveSubscriber`, `saveHoldings` and `getHoldings`, and models `createAccount`, `login`, `logout` and `getCurrentUser` as `Store` methods that record each account SDK call they make and pass the SDK's errors on.
- **The newsletter function** (`ui/functions/newsletter/src/main.cjs`), in module `Newsletter`. It covers the guard-clause decision over method, path, content type and password, the fan-out of one email per listed subscriber, and `urlWithCodeParam` as `URLSearchParams.set` on a parsed URL.

Shared types are in `wrappers.dfy` (Option, Result, Outcome), `agent_state.dfy` (records, tool calls, messages) and `holdings.dfy` (the `Holding` row).

What the proofs bring out:

- `handle_delete_cryptos` reports every id it was given. `delete_cryptos` counts only the distinct ids that some entry carried (`DeleteEachMeaning`). Both leave the same list.
- `handle_update_cryptos` updates every entry with a matching id. `update_cryptos` updates only the first one, because of its `break` (`UpdatePathsDiffer`).
- `chat_node` answers the first tool call with a ToolMessage of its own. So once its result is appended, `route` in `agent.py` can only return `chat_node` or END (`Graph.AfterChatNodeRouteLoopsOrEnds`). From `chat_node`, the graph never reaches `prices_node`, `insights_node` or `cryptos_node`.
- When no `PASSWORD` is configured, a form without a `password` field passes the newsletter's check, because `undefined === undefined` (`UnsetSecretAdmitsMissingPassword`).

## Model

| member | source | states |
|---|---|---|
| `Cryptos.CryptoAgent.constructor` | agent/crypto/state.py:36-42 | The state holds the given messages, cryptos and selection, with no prices or insights fetched yet. |
| `Cryptos.CryptoAgent.CryptosNode` | agent/crypto/cryptos.py:10-14 | `cryptos_node` leaves the state exactly as it was. |
| `Cryptos.CryptoAgent.HandleAdd` | agent/crypto/cryptos.py:88-92 | `cryptos` becomes the old list followed by the given records in order; the report counts them; a missing `cryptos` arg adds nothing. |
| `Cryptos.AddAppends` | agent/crypto/cryptos.py:88-92 | The old entries stay in front, unchanged, and the new ones follow exactly. Without a `cryptos` arg the state is unchanged. |
| `Cryptos.CryptoAgent.HandleDelete` | agent/crypto/cryptos.py:95-104 | Keeps the entries whose id is not listed. Clears `selected_crypto_id` only when it is set (truthy) and listed. Reports `len(crypto_ids)`. |
| `Cryptos.Without` | agent/crypto/cryptos.py:101-103 | The kept entries are no more than the old ones, and none of them carries a listed id. |
| `Cryptos.WithoutMembership` | agent/crypto/cryptos.py:101-103 | An entry is kept if and only if it was in the list and its id is not listed. |
| `Cryptos.WithoutAppend` | agent/crypto/cryptos.py:101-103 | Filtering distributes over concatenation, so the original order is kept. |
| `Cryptos.WithoutNoneListed` | agent/crypto/cryptos.py:101-103 | A list with no listed id comes back whole. |
| `Cryptos.WithoutTwice` | agent/crypto/cryptos.py:124-128 | Deleting one id after another equals deleting them all at once. |
| `Cryptos.HasIdWithout` | agent/crypto/cryptos.py:125-127 | After filtering, an id is still present if and only if it was present and is not listed. |
| `Cryptos.CryptoAgent.DeleteCryptos` | agent/crypto/cryptos.py:119-131 | The `delete_cryptos` tool leaves exactly the entries with no listed id. Its report counts the distinct listed ids that matched an entry. |
| `Cryptos.DeleteEachMeaning` | agent/crypto/cryptos.py:119-131 | The id-by-id loop ends with the same list as the comprehension. It counts an id only when that id still matched when processed, i.e. the distinct listed ids present at the start. |
| `Cryptos.DeletedCountBound` | agent/crypto/cryptos.py:122-131 | The `delete_cryptos` count never exceeds the number of ids given. |
| `Cryptos.CryptoAgent.HandleUpdate` | agent/crypto/cryptos.py:107-116 | `cryptos` becomes the one-pass-per-update result `UpdateAll`. The report counts the updates given. |
| `Cryptos.UpdateAllPointwise` | agent/crypto/cryptos.py:109-115 | Length is kept, and entry k ends as the old entry k merged with each update in turn. |
| `Cryptos.MergeAllMeaning` | agent/crypto/cryptos.py:111-113 | An entry ends as itself overlaid with exactly the updates carrying its id, later ones winning. Its id never changes. |
| `Cryptos.UpdateAllMeaning` | agent/crypto/cryptos.py:107-116 | Length and order are kept. Every matching entry gets its updates' fields over its own. An entry that no update names is unchanged. |
| `Cryptos.FirstMatch` | agent/crypto/cryptos.py:140-141 | Returns the first index whose id equals the update's id. It is None exactly when no entry carries that id. |
| `Cryptos.UpdateFirstChangesOne` | agent/crypto/cryptos.py:140-144 | One update rewrites only the first matching entry and reports a hit exactly when one exists. Length and every id are kept. |
| `Cryptos.CryptoAgent.UpdateCryptos` | agent/crypto/cryptos.py:134-146 | The `update_cryptos` tool yields the first-match result. Its report counts the updates whose id is in the list. |
| `Cryptos.UpdateFirstEachMeaning` | agent/crypto/cryptos.py:134-146 | Across all updates the length and every id are kept. The count equals the number of updates, with repeats, whose id some entry carries. |
| `Cryptos.UpdateFirstEachEntry` | agent/crypto/cryptos.py:134-146 | After all updates, the first entry carrying an id holds its old fields overlaid with every update for that id, later ones winning. Every other entry, including later entries with the same id, is exactly as it was. |
| `Cryptos.UpdatePathsDiffer` | agent/crypto/cryptos.py:107-146 | With two entries sharing an id, `handle_update_cryptos` changes both and `update_cryptos` changes only the first, counting 1. |
| `Cryptos.CryptoAgent.Dispatch` | agent/crypto/cryptos.py:21-35 | A call named `add_cryptos`, `delete_cryptos` or `update_cryptos` runs that handler and yields its report. Any other name changes nothing and yields no report. |
| `Cryptos.CryptoAgent.PerformCryptosNode` | agent/crypto/cryptos.py:17-40 | Initialises a missing or empty `cryptos` to `[]`. Runs the handlers in call order and appends their ToolMessages after the old messages. |
| `Cryptos.PerformAllMessages` | agent/crypto/cryptos.py:27-38 | Exactly one ToolMessage per handled call, in call order, each carrying that call's id. Calls with other names do not affect the outcome at all. |
| `Cryptos.CryptoAgent.PricesNode` | agent/crypto/cryptos.py:43-62 | With no `coins` in the first call's args the state is unchanged. When `get_prices` fails, its error escapes the node and the state is unchanged. Otherwise it stores the fetched prices and appends one message for that call. |
| `Cryptos.CryptoAgent.InsightsNode` | agent/crypto/cryptos.py:65-85 | With an empty or missing `coin` the state is unchanged. When `get_insights` fails, its error escapes the node and the state is unchanged. Otherwise it stores the fetched insights and appends one message for that call. |
| `Graph.Route` | agent/crypto/agent.py:17-35 | Always one of the five declared targets. Empty messages go to END, a trailing ToolMessage to `chat_node`, and an AI message without tool calls to END. The three tool nodes are chosen only for an AI message with tool calls. |
| `Graph.RouteReadsFirstCallOnly` | agent/crypto/agent.py:22-30 | Only the first tool call's name decides the target. Later calls and the text do not matter. |
| `Graph.ToolTargets` | agent/crypto/agent.py:24-30 | `get_prices`, `analyze_coin` and `get_trends` go to `prices_node`. `get_insights` goes to `insights_node`. The three crypto tools go to `cryptos_node`. Other names, `get_price` among them, go to `chat_node`. |
| `Graph.FixedEdge` | agent/crypto/agent.py:52-56 | Every node except `chat_node` and END has exactly one fixed successor. |
| `Graph.Next` | agent/crypto/agent.py:46-56 | Each step of the running graph follows a declared edge. Only END has no next node. |
| `Graph.CryptosReturnsThroughPerform` | agent/crypto/agent.py:55-56 | Every path from `cryptos_node` back to `chat_node` passes through `perform_cryptos_node`, in its next step. |
| `Graph.ChatWithinTwoSteps` | agent/crypto/agent.py:52-56 | From every node but END, `chat_node` is at most two fixed edges away. |
| `Graph.PathsFromStartAvoidStart` | agent/crypto/agent.py:52-56 | No edge leads back into the entry point. |
| `Graph.AfterChatNodeRouteLoopsOrEnds` | agent/crypto/agent.py:17-35 | Whenever `chat_node` returns rather than raises, once its messages are appended `route` yields only `chat_node` or END. When the reply has tool calls it yields `chat_node`. |
| `Graph.RoutersDisagree` | agent/crypto/agent.py:24-30 | The two routers disagree. `get_price` goes to `chat_node` here but to `prices_node` in chat.py, and `get_prices` and `analyze_coin` do the opposite. One ends in the END sentinel, the other in `"END"`. |
| `Chat.Route` | agent/crypto/chat.py:179-203 | Always one of the five names. Empty messages give `"END"`, and a trailing ToolMessage gives `chat_node`. The result is not `"END"` exactly when the last message is a ToolMessage or an AI message with tool calls. |
| `Chat.ToolTargets` | agent/crypto/chat.py:188-198 | `get_price` and `get_trends` go to `"prices_node"`, `get_insights` to `"insights_node"`, the three crypto tools to `"cryptos_node"`, and every other name to `"chat_node"`. |
| `Chat.RouteReadsFirstCallOnly` | agent/crypto/chat.py:188-198 | Only the first tool call's name decides the node name. |
| `Chat.ChatNodeUpdate` | agent/crypto/chat.py:103-138 | A failing model call is caught: the result is the one message `SystemMessage("An error occurred: " + error)`, with no `selected_coin_id`. But a failing lookup for the first tool call escapes the node with its error. Otherwise: one or two messages, the reply first, two exactly when the reply is an AI message with tool calls. `selected_coin_id` is left out of the result only when the model call raised. |
| `Chat.AnswersFirstCallOnly` | agent/crypto/chat.py:118-133 | With tool calls only the first call's lookup runs: the node raises exactly when it fails, and otherwise the one ToolMessage answers that call with its result. The selection becomes that call's `coin_id`, and calls after the first change nothing. |
| `Chat.NoCallsKeepsSelection` | agent/crypto/chat.py:112-138 | Without tool calls no lookup runs and the node cannot raise: the result is `[response]`, and the state's `selected_coin_id` is carried over. |
| `Portfolio.PortfolioManager.constructor` | ui/src/components/PortfolioManager.tsx:27-30 | The dialog starts closed with exactly one blank row `{coinId: "", amount: 0}`. |
| `Portfolio.PortfolioManager.SetOpen` | ui/src/components/PortfolioManager.tsx:80 | The dialog's open state becomes the value the dialog reports. |
| `Portfolio.PortfolioManager.AddHolding` | ui/src/components/PortfolioManager.tsx:51-53 | `holdings` becomes `WithBlankRow` of the old rows. |
| `Portfolio.WithBlankRow` | ui/src/components/PortfolioManager.tsx:51-53 | One row longer. Every old row is unchanged and in place, and the new last row is blank. |
| `Portfolio.PortfolioManager.UpdateHolding` | ui/src/components/PortfolioManager.tsx:55-66 | `holdings` becomes `WithField` of the old rows at the given index. |
| `Portfolio.WithField` | ui/src/components/PortfolioManager.tsx:55-66 | Length is kept, and every other row is identical. The edited row takes the new value in the named field and keeps its other field. |
| `Portfolio.WithFieldValue` | ui/src/components/PortfolioManager.tsx:61-64 | Replaces only the named field of one holding. |
| `Portfolio.LastEditWins` | ui/src/components/PortfolioManager.tsx:55-66 | Two edits of the same box of the same row leave only the later value. |
| `Portfolio.EditsCommute` | ui/src/components/PortfolioManager.tsx:55-66 | Edits to different rows, or to the two boxes of one row, give the same list in either order. |
| `Portfolio.AddThenEdit` | ui/src/components/PortfolioManager.tsx:51-66 | Adding a row and editing an existing row commute. |
| `Portfolio.PortfolioManager.HandleSubmit` | ui/src/components/PortfolioManager.tsx:38-71 | Submits the current rows unchanged as one new holdings document. On success the dialog closes. On error `isOpen` is untouched and nothing is stored. The subscribers are never touched. |
| `Appwrite.WithEmail` | ui/src/lib/appwrite.ts:93-97 | The lookup returns exactly the subscriber documents with that email. |
| `Appwrite.HoldingsOf` | ui/src/lib/appwrite.ts:81-83 | Returns exactly the documents whose `user_id` matches, never more than the store holds. |
| `Appwrite.HoldingsOfAppend` | ui/src/lib/appwrite.ts:66-84 | A newly appended document shows up at the end of its owner's query result, and only there. |
| `Appwrite.FreshEmailKeepsUnique` | ui/src/lib/appwrite.ts:93-106 | Appending a subscriber whose email the lookup does not find keeps every email in the collection unique. |
| `Appwrite.Store.constructor` | ui/src/lib/appwrite.ts:12-20 | Both collections start empty, with consistent document ids and unique emails, and no account call has been made. |
| `Appwrite.Store.SaveSubscriber` | ui/src/lib/appwrite.ts:91-111 | A taken email fails with "Subscriber already exists" and leaves the store unchanged. A fresh one adds exactly one document with that email and a `subscribed_at`. Backend errors are rethrown with nothing written. Under one-after-another calls, emails stay unique (part of `Valid()`). |
| `Appwrite.SaveSubscriberTwice` | ui/src/lib/appwrite.ts:91-106 | Two sequential saves of a fresh email: the first succeeds and the second fails as a duplicate. |
| `Appwrite.Store.SaveHoldings` | ui/src/lib/appwrite.ts:66-77 | Always appends one new document with the given `user_id` and holdings, and never alters an existing one. A backend error is rethrown and stores nothing. |
| `Appwrite.Store.GetHoldings` | ui/src/lib/appwrite.ts:79-89 | Returns exactly the user's documents without modifying the store. A backend error is rethrown. |
| `Appwrite.SaveTwiceThenGet` | ui/src/lib/appwrite.ts:66-89 | Two saves for one user and then a read return both snapshots as two distinct documents, in save order. |
| `Appwrite.Store.Login` | ui/src/lib/appwrite.ts:37-45 | Makes exactly one SDK call, the session creation, and rethrows its error unchanged. Neither collection changes. |
| `Appwrite.Store.CreateAccount` | ui/src/lib/appwrite.ts:22-35 | Identity creation is the first call. The session call follows only if creation succeeded. The first error met is rethrown, and otherwise the created user is returned. Neither collection changes. |
| `Appwrite.Store.GetCurrentUser` | ui/src/lib/appwrite.ts:47-55 | Makes exactly one account lookup. A failed lookup yields null instead of an error. |
| `Appwrite.Store.Logout` | ui/src/lib/appwrite.ts:57-64 | Makes exactly one call, deleting the current session, and rethrows its error unchanged. Neither collection changes. |
| `Newsletter.SetParamMeaning` | ui/functions/newsletter/src/main.cjs:18 | After `set`, exactly one parameter has the name, with the given value. Every other parameter is kept in order. |
| `Newsletter.SetParamOverwrites` | ui/functions/newsletter/src/main.cjs:18 | Setting a parameter twice is the same as setting it once to the later value. |
| `Newsletter.UrlWithCodeParam` | ui/functions/newsletter/src/main.cjs:16-20 | The URL's `code` is exactly the given value, replacing any earlier one. The rest of the URL is unchanged. |
| `Newsletter.Emails` | ui/functions/newsletter/src/main.cjs:74-83 | One email per listed subscriber, addressed to that subscriber alone, each with the same from, subject and html. |
| `Newsletter.Handle` | ui/functions/newsletter/src/main.cjs:26-96 | GET `/` returns `index.html` with status 200 before any other check. Subscribers are listed exactly when the content type and then the password pass. Sends happen only after a successful listing, one per document. A failed listing redirects with `server-error` and sends nothing. |
| `Newsletter.ListingFailureIsServerError` | ui/functions/newsletter/src/main.cjs:63-94 | An accepted request whose listing fails sends nothing and redirects with exactly one `code`, `server-error` (it throws when there is no referer). |
| `Newsletter.WrongContentTypeRejected` | ui/functions/newsletter/src/main.cjs:39-44 | A wrong content type gets an `invalid-request` redirect, with no listing and no sends. |
| `Newsletter.WrongPasswordRejected` | ui/functions/newsletter/src/main.cjs:46-53 | A password that does not equal the secret gets an `invalid-request` redirect, with no listing and no sends. |
| `Newsletter.AcceptedRequestFansOut` | ui/functions/newsletter/src/main.cjs:63-95 | One send per subscriber, to that subscriber only. `success.html` comes back exactly when every send succeeded, and otherwise a `server-error` redirect, with all sends still issued. |
| `Newsletter.MissingFormFieldsNeverSent` | ui/functions/newsletter/src/main.cjs:10-14 | No path produces the declared `missing-form-fields` code. |
| `Newsletter.UnsetSecretAdmitsMissingPassword` | ui/functions/newsletter/src/main.cjs:48 | With no configured password, a form without a password field is accepted and the newsletter goes out. |
| `Newsletter.Active` | ui/functions/newsletter/src/main.cjs:64-68 | The listing returns exactly the subscriber documents whose `subscribed_at` is set. |
| `Newsletter.SavedSubscriberIsMailed` | ui/functions/newsletter/src/main.cjs:64-83 | Every subscriber stored with a `subscribed_at` receives the newsletter from an accepted dispatch. |

## Left out

- Outside services are inputs rather than models. The CoinGecko lookups (`get_prices`, `get_insights`, `_process_tool_call`), the language-model call, the Appwrite SDK's outcomes, each Resend send's outcome, the clock (`new Date()`) and `process.env.PASSWORD` are all parameters. How these services behave is not modelled.
- Message contents that print fetched data (`f"... {prices}"`) use the fetched value as an opaque string.
- The list returned by `getHoldings` is in store order. The backend's own ordering and its pagination of listings are not modelled.
- `Newsletter.SavedSubscriberIsMailed`: the newsletter's subscriber listing (`listDocuments` with `isNotNull('subscribed_at')`) is taken to return every active subscriber at once. Appwrite returns listings page by page, and the source fetches only the first page, so "every active subscriber is mailed" holds only in the model.
- The state's `cryptos` list is a value, not a shared reference. `.extend` and index assignment are modelled as reassigning the field, so aliasing of that list by other holders is not captured.
- `saveSubscriber`'s check-then-insert race is not modelled: calls run one after another. The newsletter's concurrent sends and `Promise.all` are modelled only as "all sends issued; any failure means an error".
- The newsletter function's referer header is given already parsed (`Option<Url>`). Parsing and serialising URLs, percent-encoding included, is not modelled. A missing or unparseable referer is the `Thrown` response.
- Reading the static pages, logging, and the ALLOWED_ORIGINS warning are left out. A failed read of `success.html` inside the `try` would also end in `server-error`, and that is not modelled.
- `Portfolio.PortfolioManager.UpdateHolding`: requires an index of an existing row, because only the rendered rows call it. Writing past the end of a JavaScript array, which would grow it, is not modelled.
- `Portfolio.PortfolioManager.HandleSubmit`: takes the signed-in user's id as a string. A submission with no signed-in user (`userId` undefined) is not modelled.
- The amount field is an opaque `Amount`, either a number or NaN. `parseFloat` and number formatting are not modelled.
- Account creation, login, logout and session lookup are stated as the sequence of SDK calls they make (a ghost log on `Store`) and the error propagation over the SDK's outcomes. The account backend itself is not modelled, so "createAccount then getCurrentUser yields the same email" is not stated.
- A failing CoinGecko lookup inside `prices_node`, `insights_node` or `chat_node`'s `_process_tool_call` is modelled as the node raising with nothing returned. What LangGraph then does with the raised error is not modelled.
- The CoinGecko-backed tools, the search module, the view components, the auth context, the summary API route, LangGraph checkpointing and the build configuration are not part of this model.
