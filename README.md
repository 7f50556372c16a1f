# sheepish-budgeting: a verified model of the budgeting core

The app has three parts: a React budget dashboard, two small Flask demo backends, and a
receipt pipeline of AWS Lambda handlers that ask a language model to read receipt images.
This project models in Dafny the deterministic logic under the UI and cloud glue, and proves
what that logic promises.

- **The live dashboard** (`LiveDashboard`): the budget of 3000, the running `spent` and the
  newest-first expense list. `addTransaction` and `remaining` act on them.
- **The richer, commented-out dashboard** (`RichDashboard`):
  - the seeded `AppState`;
  - `addTransaction`, which appends a transaction and charges the matching budgets;
  - the sync rule of `sendStateToServer`: an OK reply replaces the state wholesale, anything
    else leaves it alone;
  - the derived views `getSpendingByCategory` and `getRecentTransactions`;
  - the clamped "Remaining" figure.
- **The Flask reference backend** (`FlaskBackend`):
  - `update_budget` copies the keys it knows from the posted state into the global store, then
    rebuilds one budget row per configured category in two loops;
  - the request checks of `upload_receipt`;
  - a lemma that the server's per-category sums equal the client's own `getSpendingByCategory`
    sums for any transaction list the client sends.
- **The DynamoDB receipt handler** (`ReceiptApp`, `app.py`):
  - `decimalize`;
  - `extract_b64` with its data-URL pattern;
  - the user derived from the S3 key;
  - the three-way classification of the model's answer;
  - the item written for each record;
  - the record loop.
- **The S3 receipt handler** (`ReceiptLambda`, `lambda_function.py`): `_get_type`, `_out_key`,
  `_extract`, and the results loop of `lambda_handler`.
- **The model client** (`ClaudeWrapper`): the extension-to-media-type mapping of
  `_encode_image`, and the `ConversationManager` history.
- **The two `/api/update-state` endpoints** (`BackendMain`, `ReferenceMain`).
- **Shared modules:**
  - `Json`: the dynamically typed values the Python code handles. A dict is an ordered list of
    fields, as CPython keeps insertion order.
  - `Text`: Python's `strip`, `lower`, `split` and `endswith`.
  - `Wrappers`: `Option` and `Result`.

How the model treats the source:

- Money is a Dafny `real`. JavaScript numbers and Python floats are taken as the exact reals
  they denote.
- Anything outside the program becomes an input, never something the model computes:
  - the network, S3, DynamoDB and the model API;
  - the clock and `Date.now`;
  - the number `parseFloat` returns;
  - the text read from S3;
  - the model's answer.
- `json.loads` is a parameter of type `string -> Option<Value>`, where `None` stands for a
  decode error. Python's `str()` of a non-string value is also a parameter.
- A Python exception that a handler does not catch is an `Err` result. `Json.PyError` names
  `AttributeError`, `KeyError` and `TypeError`.
- React state setters become assignments to the fields of a class.
- Neither dashboard rejects a zero, negative or non-numeric amount: both check only that the
  input fields are non-empty, so `LiveDashboard.Dashboard.AddTransaction` and
  `RichDashboard.Dashboard.AddTransaction` accept any parsed amount. In the richer dashboard a
  failed sync leaves the state unchanged, because the state changes only on an OK reply.

## Model

| member | source | states |
|---|---|---|
| LiveDashboard.Dashboard.constructor | src/pocket-pict-tracker-main/src/components/BudgetDashboard.tsx:9-11 | starts with budget 3000, `spent` 0 and no transactions, so the total equals the sum of the list |
| LiveDashboard.Dashboard.Remaining | src/pocket-pict-tracker-main/src/components/BudgetDashboard.tsx:15 | `remaining` is 3000 minus the sum of all amounts; it is negative exactly when the sum exceeds the budget (this version does not clamp) |
| LiveDashboard.Dashboard.AddTransaction | src/pocket-pict-tracker-main/src/components/BudgetDashboard.tsx:45-62 | an empty name or amount text changes nothing and sends nothing; otherwise the new expense goes first and the old list follows unchanged; `spent` grows by the parsed amount, whatever its sign; the budget stays 3000; the payload sent is the new list and total; `spent` stays the sum of the list |
| RichDashboard.DatePart | src/pocket-pict-tracker-main/src/components/BudgetDashboard.tsx:382 | `split("T")[0]`: a prefix of the timestamp with no 'T', which stops at the first 'T' |
| RichDashboard.ReceiptOf | src/pocket-pict-tracker-main/src/components/BudgetDashboard.tsx:384 | `receiptPreview \|\| undefined`: a receipt exactly when the preview is present and non-empty, and then the preview itself |
| RichDashboard.Filter | src/pocket-pict-tracker-main/src/components/BudgetDashboard.tsx:413-414 | keeps exactly the transactions of the category, and no more than the input has |
| RichDashboard.FilterCounts | src/pocket-pict-tracker-main/src/components/BudgetDashboard.tsx:413-414 | each transaction of the category is kept as many times as the list holds it, and every other transaction is dropped |
| RichDashboard.FilterAppend | src/pocket-pict-tracker-main/src/components/BudgetDashboard.tsx:413-414 | filtering a joined list gives the filtered parts joined, in order |
| RichDashboard.Charge | src/pocket-pict-tracker-main/src/components/BudgetDashboard.tsx:391-395 | same count and order; a budget gains the amount exactly when its category equals the transaction's; limits and categories are kept |
| RichDashboard.SpendingByCategory | src/pocket-pict-tracker-main/src/components/BudgetDashboard.tsx:411-423 | one row per budget, in budget order; `spent` is summed from the transaction list, not taken from the cached field; percentage × limit = spent × 100 when the limit is positive, else 0 |
| RichDashboard.Remaining | src/pocket-pict-tracker-main/src/components/BudgetDashboard.tsx:475 | `Math.max(0, totalBudget - totalSpent)`: never negative, at least the difference, and either 0 or the difference |
| RichDashboard.Dashboard.constructor | src/pocket-pict-tracker-main/src/components/BudgetDashboard.tsx:284-304 | the state starts as the seed: six budgets, total budget 1500, nothing spent |
| RichDashboard.Dashboard.SendStateToServer | src/pocket-pict-tracker-main/src/components/BudgetDashboard.tsx:316-344 | the payload is the current state overlaid with the update; an OK reply makes the state exactly the reply; a non-OK reply or an exception leaves it unchanged |
| RichDashboard.Dashboard.AddTransaction | src/pocket-pict-tracker-main/src/components/BudgetDashboard.tsx:363-409 | an empty amount, category or description sends nothing and changes nothing; otherwise it sends the state with the transaction appended and the total and matching budgets charged; afterwards the local state is the server's reply or the old state |
| RichDashboard.SumAppend | src/pocket-pict-tracker-main/src/components/BudgetDashboard.tsx:415 | appending a transaction adds its amount to the reduce |
| RichDashboard.CategorySumAppend | src/pocket-pict-tracker-main/src/components/BudgetDashboard.tsx:413-415 | appending a transaction adds its amount to its own category's sum and nothing to any other |
| RichDashboard.AddPayloadShape | src/pocket-pict-tracker-main/src/components/BudgetDashboard.tsx:387-401 | the payload is the old list plus the transaction, with `totalSpent` grown by the amount and only the matching budgets charged; total budget and categories are kept |
| RichDashboard.UnknownCategoryChargesNoBudget | src/pocket-pict-tracker-main/src/components/BudgetDashboard.tsx:388-395 | with a category that no budget has, the payload keeps every budget as it was while `totalSpent` grows by the amount |
| RichDashboard.AddPreservesConsistency | src/pocket-pict-tracker-main/src/components/BudgetDashboard.tsx:387-401 | if `totalSpent` and every budget's `spent` agree with the list, they still agree after the add |
| RichDashboard.SeedConsistent | src/pocket-pict-tracker-main/src/components/BudgetDashboard.tsx:284-304 | the seed's cached totals agree with its empty list |
| RichDashboard.SpendingMatchesCache | src/pocket-pict-tracker-main/src/components/BudgetDashboard.tsx:411-423 | on a consistent state the recomputed view equals the cached `spent` of every budget |
| RichDashboard.ReverseAt | src/pocket-pict-tracker-main/src/components/BudgetDashboard.tsx:426 | the k-th element of the reversal is the k-th from the end |
| RichDashboard.RecentTransactionsSpec | src/pocket-pict-tracker-main/src/components/BudgetDashboard.tsx:425-427 | `slice(-5).reverse()` gives min(5, n) transactions, the newest first |
| RichDashboard.FoodScenario | src/pocket-pict-tracker-main/src/components/BudgetDashboard.tsx:284-304 | from the seed, 120 spent on Food gives a total of 120 and a Food row of 120 out of 500, which is 24 percent |
| FlaskBackend.Elements | src/frontend/src/reference/flask-backend-example.py:41 | `for x in v`: a list gives its items; iteration fails exactly when the value is not a list, string or dict |
| FlaskBackend.Numeric | src/frontend/src/reference/flask-backend-example.py:44 | an amount can be added to a number exactly when it is an int, float or bool |
| FlaskBackend.FaultSticky | src/frontend/src/reference/flask-backend-example.py:41-44 | once a prefix of the loop has raised, the whole loop raises that same exception |
| FlaskBackend.AggregateSpending | src/frontend/src/reference/flask-backend-example.py:40-44 | the first loop raises exactly when some transaction is not a dict, has an unhashable category or has a non-numeric amount, and it raises the first such failure; otherwise `category_spending.get(c, 0)` equals the sum of the amounts of the transactions in `c`; a missing category counts as 'Other' and a missing amount as 0 |
| FlaskBackend.RebuildBudgets | src/frontend/src/reference/flask-backend-example.py:47-56 | one row per configured category, in order, each holding that category's sum and the limit 500 |
| FlaskBackend.SpentOnUnused | src/frontend/src/reference/flask-backend-example.py:40-49 | a category that no transaction carries gets `category_spending.get(category, 0)`, which is 0 |
| FlaskBackend.RebuiltUnspent | src/frontend/src/reference/flask-backend-example.py:47-58 | the rebuilt row of a category without transactions is that category with `spent` 0 and the default limit 500 |
| FlaskBackend.Tally | src/frontend/src/reference/flask-backend-example.py:41-44 | a stored value that cannot be iterated gives that TypeError; otherwise the aggregation gives the iterated items when no iteration raises, and the exception that iteration raised first when one does |
| FlaskBackend.Store.constructor | src/frontend/src/reference/flask-backend-example.py:15-21 | the store starts empty, with zero totals and the six fixed categories |
| FlaskBackend.Store.UpdateBudget | src/frontend/src/reference/flask-backend-example.py:23-62 | `transactions`, `totalSpent` and `totalBudget` are overwritten only when the posted state has them; posted `budgets` and `categories` are ignored; on success the budgets are rebuilt wholesale and the reply is the whole store; when the aggregation raises, the copied keys stay written and the old budgets stay |
| FlaskBackend.CheckUpload | src/frontend/src/reference/flask-backend-example.py:67-72 | 400 "No receipt file provided" exactly when no part is named `receipt`; otherwise the first part of that name decides: 400 "No file selected" when its file name is empty, and that part itself when it is not |
| FlaskBackend.SpentOnSnoc | src/frontend/src/reference/flask-backend-example.py:41-44 | one more transaction adds its share to each category's total |
| FlaskBackend.FaultSnoc | src/frontend/src/reference/flask-backend-example.py:41-44 | one more transaction raises only when the loop already had, or when it fails its own checks |
| FlaskBackend.EncodedStep | src/frontend/src/reference/flask-backend-example.py:42-44 | a transaction the client serialises passes every check and adds its amount to its own category only |
| FlaskBackend.EncodedFaultFree | src/frontend/src/reference/flask-backend-example.py:41-44 | aggregating any list the client sends raises nothing |
| FlaskBackend.ServerAgreesWithClient | src/frontend/src/reference/flask-backend-example.py:41-49 | for every category, the server's sum over the client's serialised transactions equals the client's `getSpendingByCategory` sum |
| FlaskBackend.ReplyMatchesClient | src/frontend/src/reference/flask-backend-example.py:47-58 | each rebuilt row's `spent` equals the client's category sum for that row's category |
| Json.Keys | src/backend/main.py:35 | one key per field, in insertion order |
| Json.Get | src/backend/receipt_lambda/app.py:78 | `d.get(k)` is None exactly when `k` is not a key |
| Json.Set | src/backend/main.py:21 | `d[k] = v` adds at most one field |
| Json.SetGet | src/backend/main.py:21 | after `d[k] = v`, `k` holds `v` and every other key holds what it held |
| Json.SetKeys | src/backend/main.py:21 | `d[k] = v` keeps the key order; a new key goes last |
| Json.StateOf | src/backend/main.py:11 | `data.get("state", {})` is an AttributeError exactly when the body is not a dict; otherwise it is the stored "state" when the body has one and `{}` when it has none |
| Text.TrimLeftSpec | src/backend/receipt_lambda/app.py:24 | `lstrip` drops exactly the leading whitespace, and the result is a suffix of the input |
| Text.TrimRightSpec | src/backend/receipt_lambda/app.py:24 | `rstrip` drops exactly the trailing whitespace, and the result is a prefix of the input |
| Text.StripSpec | src/backend/receipt_lambda/app.py:24 | `strip` keeps the inner slice of the input; everything dropped on either side is whitespace, and what is kept neither starts nor ends with whitespace |
| Text.StripUnchanged | src/backend/receipt_lambda/app.py:24 | text with no whitespace at either end is its own `strip()` |
| Text.LowerChar | src/backend/receipt_lambda/lambda_function.py:12 | an ASCII capital becomes the small letter 32 code points above it; every other character is kept |
| Text.SplitPartsFree | src/backend/receipt_lambda/app.py:42 | no part of `split(sep)` holds `sep` |
| Text.SplitJoin | src/backend/receipt_lambda/app.py:42 | joining the parts of a split with the separator gives back the input |
| Text.JoinSplit | src/backend/receipt_lambda/app.py:42 | splitting a join of separator-free parts gives back the parts |
| Text.SplitNoSep | src/backend/receipt_lambda/claude_wrapper.py:121 | text without the separator splits into itself alone |
| ReceiptApp.DecimalizeKeepsShape | src/backend/receipt_lambda/app.py:17-21 | dicts keep the same keys in the same order, lists the same length and order; only float leaves change, each to the Decimal of the same number |
| ReceiptApp.DecimalizeRemovesFloats | src/backend/receipt_lambda/app.py:17-21 | no float is left anywhere in the result |
| ReceiptApp.DecimalizeFixesFloatFree | src/backend/receipt_lambda/app.py:17-21 | a tree with only str, int, bool, None and Decimal leaves is unchanged |
| ReceiptApp.DecimalizeIdempotent | src/backend/receipt_lambda/app.py:17-21 | decimalizing twice is the same as decimalizing once |
| ReceiptApp.DecimalizeFields | src/backend/receipt_lambda/app.py:19 | the dict comprehension keeps the length and every key in its place |
| ReceiptApp.IndexOf | src/backend/receipt_lambda/app.py:15 | the `[^;]+` group stops at the first ';' |
| ReceiptApp.MatchDataUrlSound | src/backend/receipt_lambda/app.py:15 | a match is "data:" in any case, a non-empty mime without ';', ";base64," in any case and a non-empty one-line payload; the match yields that payload |
| ReceiptApp.MatchDataUrlOf | src/backend/receipt_lambda/app.py:15 | every text of that form matches and yields its payload |
| ReceiptApp.ExtractB64OfDataUrl | src/backend/receipt_lambda/app.py:23-25 | `extract_b64` of such a data URL is the text after ";base64," |
| ReceiptApp.ExtractB64Otherwise | src/backend/receipt_lambda/app.py:23-25 | text whose stripped form does not match is returned stripped |
| ReceiptApp.DeriveUser | src/backend/receipt_lambda/app.py:42-43 | the derived user never holds a '/' |
| ReceiptApp.DeriveUserOfPath | src/backend/receipt_lambda/app.py:42-43 | the third '/'-segment of the key when it has at least three, else "unknown" |
| ReceiptApp.Classify | src/backend/receipt_lambda/app.py:46-69 | "unrecognized" exactly when the answer is empty or strips and lower-cases to "none"; "parsed_raw" exactly when it is neither and does not parse; otherwise the parsed JSON |
| ReceiptApp.TextOr | src/backend/receipt_lambda/app.py:71-72 | `str(v or fallback)`: the fallback when the value is missing or falsy, a non-empty string as itself, and any other truthy value as its `str()` |
| ReceiptApp.DropNone | src/backend/receipt_lambda/app.py:89 | keeps exactly the fields whose value is not None |
| ReceiptApp.ParsedFieldsKeys | src/backend/receipt_lambda/app.py:74-86 | every field of the parsed row has one of the eleven keys |
| ReceiptApp.DecimalizeFieldsKeepsKeys | src/backend/receipt_lambda/app.py:89-90 | `decimalize` keeps the keys and turns no value into None |
| ReceiptApp.DecimalizeFieldsKeeps | src/backend/receipt_lambda/app.py:90 | a field that `decimalize` leaves alone stays in the dict |
| ReceiptApp.ParsedItemKeys | src/backend/receipt_lambda/app.py:74-90 | the written parsed item has only the eleven keys and no None value |
| ReceiptApp.ParsedItemFloatFree | src/backend/receipt_lambda/app.py:90 | the written parsed item holds no float |
| ReceiptApp.KeptInItem | src/backend/receipt_lambda/app.py:88-90 | a field that is not None and is not changed by `decimalize` is written as built |
| ReceiptApp.ParsedItemStatus | src/backend/receipt_lambda/app.py:77 | the parsed item has status "parsed" |
| ReceiptApp.ParsedItemKey | src/backend/receipt_lambda/app.py:84 | the parsed item records the S3 key |
| ReceiptApp.ParsedItemUser | src/backend/receipt_lambda/app.py:71 | `userId` is the JSON's when truthy, else the user derived from the key |
| ReceiptApp.ParsedItemDate | src/backend/receipt_lambda/app.py:72 | `date` is the JSON's when truthy, else today's |
| ReceiptApp.AmountsNoItems | src/backend/receipt_lambda/app.py:79 | without an `items` key, `items` is [] |
| ReceiptApp.ParsedItemNoItems | src/backend/receipt_lambda/app.py:79 | a JSON answer without `items` is written with an empty list |
| ReceiptApp.ItemForAnswer | src/backend/receipt_lambda/app.py:58-90 | for an answer that is not empty and not "none": unparseable text gives the raw row, a JSON dict the parsed row, and any other JSON an AttributeError on `.get` |
| ReceiptApp.UnrecognizedSpec | src/backend/receipt_lambda/app.py:46-55 | an empty or "none" answer writes the five-key "unrecognized" row |
| ReceiptApp.RunWithSpec | src/backend/receipt_lambda/app.py:30-92 | one model request and one write per record, in order; `{"ok": True}` exactly when every record is written; a crash stops the loop at that record, with the earlier rows already written |
| ReceiptApp.RunLoop | src/backend/receipt_lambda/app.py:30-92 | the loop with early exit yields what `RunWith` specifies |
| ReceiptApp.Handler | src/backend/receipt_lambda/app.py:27-92 | the handler's requests, writes and outcome are those of the run over the records, with the per-record step above |
| ReceiptLambda.GetType | src/backend/receipt_lambda/lambda_function.py:9-11 | a non-empty stored content type is returned as is |
| ReceiptLambda.EndsWithTail | src/backend/receipt_lambda/lambda_function.py:13-17 | a text ending with a suffix of four or more characters ends with that suffix's last four |
| ReceiptLambda.MimeForSuffix | src/backend/receipt_lambda/lambda_function.py:12-18 | each MIME type is chosen exactly for its own suffixes; octet-stream exactly when no known suffix matches |
| ReceiptLambda.GetTypeIgnoresCase | src/backend/receipt_lambda/lambda_function.py:12 | without a stored type, the guess depends only on the lower-cased key |
| ReceiptLambda.OutKey | src/backend/receipt_lambda/lambda_function.py:7-25 | the output key is "receipts-json/" followed by the key and ".json" |
| ReceiptLambda.OutKeyInjective | src/backend/receipt_lambda/lambda_function.py:24-25 | two output keys are equal exactly when the source keys are |
| ReceiptLambda.SetDefaultGet | src/backend/receipt_lambda/lambda_function.py:45 | `setdefault` keeps an existing value, adds a missing one, and changes no other key |
| ReceiptLambda.Extract | src/backend/receipt_lambda/lambda_function.py:39-48 | `_extract` always returns a dict |
| ReceiptLambda.ExtractSpec | src/backend/receipt_lambda/lambda_function.py:39-48 | "none" in any case and spacing gives the not-a-receipt dict; unparseable text goes under "raw_text" and non-dict JSON under "data", both marked recognized; every result has "recognized" |
| ReceiptLambda.ExtractDict | src/backend/receipt_lambda/lambda_function.py:43-46 | a dict answer keeps every key it had and gets `recognized: True` only when it had none |
| ReceiptLambda.PutsAt | src/backend/receipt_lambda/lambda_function.py:52-67 | the k-th document written is the one for the k-th record |
| ReceiptLambda.ResultsAt | src/backend/receipt_lambda/lambda_function.py:69-75 | the k-th result is the one for the k-th record |
| ReceiptLambda.ResultsSpec | src/backend/receipt_lambda/lambda_function.py:50-76 | one result per record, in order, each "ok", written to the source bucket under `_out_key(key)`; different keys never share an output key |
| ReceiptLambda.LambdaHandler | src/backend/receipt_lambda/lambda_function.py:50-76 | writes the document of every record in order and answers `{"results": results}` with one result per record |
| ClaudeWrapper.JoinLast | src/backend/receipt_lambda/claude_wrapper.py:121 | the last part of a join ends the joined text, right after the last separator |
| ClaudeWrapper.LastPartSpec | src/backend/receipt_lambda/claude_wrapper.py:121 | `split(sep)[-1]` is the text after the last separator, or the whole text when it has none |
| ClaudeWrapper.ExtensionSpec | src/backend/receipt_lambda/claude_wrapper.py:121 | the extension is the text after the last '.' of the lower-cased path, or the whole lower-cased path when it has no '.' |
| ClaudeWrapper.MediaTypeSpec | src/backend/receipt_lambda/claude_wrapper.py:122-130 | png, gif and webp each get their own type exactly for their own extension; every other extension, jpg and jpeg included, gets image/jpeg |
| ClaudeWrapper.ConversationManager.constructor | src/backend/receipt_lambda/claude_wrapper.py:278-281 | a new manager has an empty history and the given system prompt |
| ClaudeWrapper.ConversationManager.AddMessage | src/backend/receipt_lambda/claude_wrapper.py:283-285 | exactly one entry is appended at the end; earlier entries are unchanged |
| ClaudeWrapper.ConversationManager.SendMessage | src/backend/receipt_lambda/claude_wrapper.py:287-302 | the model sees the history plus the user entry; on a reply the history gains the user and assistant entries and the reply is returned; when the call raises, the user entry stays and there is no rollback |
| ClaudeWrapper.ConversationManager.ClearHistory | src/backend/receipt_lambda/claude_wrapper.py:304-306 | the history is empty |
| ClaudeWrapper.ConversationManager.GetHistory | src/backend/receipt_lambda/claude_wrapper.py:308-310 | returns a list equal to the stored history; the sharing of its entries is not modelled (see Left out) |
| BackendMain.UpdatedGet | src/backend/main.py:13-21 | the list gains the fixed Costco sample at its end; "receipt" is ""; every other key keeps its value |
| BackendMain.UpdatedKeys | src/backend/main.py:20-35 | every key keeps its place, and "receipt" is added last when it was missing |
| BackendMain.UpdateState | src/backend/main.py:8-35 | a body that is not a dict raises AttributeError, a state that is not a dict TypeError, a missing "transactions" KeyError, and a non-list one AttributeError; otherwise the reply is the changed state |
| ReferenceMain.PyAdd | src/frontend/src/reference/main.py:14-17 | adding None to anything, on either side, is a TypeError |
| ReferenceMain.PyAddNumbers | src/frontend/src/reference/main.py:14-17 | number addition commutes, has the arithmetic value, and gives an int exactly when neither side is a float |
| ReferenceMain.PyAddInts | src/frontend/src/reference/main.py:14 | int plus int is the integer sum |
| ReferenceMain.UpdateState | src/frontend/src/reference/main.py:8-19 | a body that is not a dict raises AttributeError |
| ReferenceMain.AnswerFields | src/frontend/src/reference/main.py:13-17 | the answer has exactly the four keys, in order, with the button count 0 |
| ReferenceMain.NextStateInts | src/frontend/src/reference/main.py:13-17 | with integer counters both additions are integer additions |
| ReferenceMain.UpdateStateCounters | src/frontend/src/reference/main.py:11-19 | with integer counters the reply has exactly `test_num + 1`, the incoming "user" (None when absent), 0, and the sum plus the presses; every other incoming key is dropped |
| ReferenceMain.UpdateStateMissingCounter | src/frontend/src/reference/main.py:14-17 | a missing `test_num`, `sum_of_pressed` or `button_pressed` is a TypeError |
| ReferenceMain.UpdateStateNotDict | src/frontend/src/reference/main.py:11-14 | a state that is not a dict raises AttributeError on `.get` |

## Left out

- **UI.** JSX rendering, styling, dialogs, toasts, modal flags and form resets are UI. So are
  `avgDaily`, `daysLeft`, number formatting, and the colour and progress thresholds.
- **Network.** The `fetch` calls are replaced by their payload (returned) and their outcome (a
  parameter). `sendStateToBackend` in the live component only logs the reply, so the model
  returns the payload alone. Several requests in flight at once ("last reply wins") are
  concurrency, which is not modelled.
- **`parseFloat`, `Date.now` and `new Date()`.** These are parameters. NaN and non-numeric
  amount text are therefore not modelled.
- **Floats.** Python floats and JavaScript numbers are exact reals. Float rounding, NaN and
  `Decimal(str(x))` are not modelled: `decimalize` maps `Float(f)` to `Decimal(f)` of the same
  real.
- **Cloud and I/O glue.** Not modelled:
  - `unquote_plus`;
  - S3 reads and writes, DynamoDB writes;
  - `time.gmtime`/`time.time`;
  - `event.get("Records", [])`, and the KeyErrors of a malformed S3 record;
  - the file save of `upload_receipt`;
  - the file read and base64 encoding in `_encode_image`.

  Each record arrives already decoded.
- **Logging.** The `print` of the updated store in `update_budget` and the `console.log` and
  `console.error` calls of the dashboards are output only, and are not modelled.
- **ClaudeWrapper.ConversationManager.GetHistory** returns the history as a value. In the
  source, `messages.copy()` is a shallow copy: the returned list is new but its entry dicts
  are the stored ones, so changing an entry through the result changes the history. Entries
  are immutable values here, so that aliasing is not captured.
- **The model API.** All model calls in `claude_wrapper.py` are left out, and so are the
  extra keyword arguments and the system prompt passed to `chat_with_history`. The model is a
  function parameter.
- **`lambda_function.py:37`.** This call passes `image_input=` to `read_receipt`, which
  accepts only `base64_input`, so it would raise. The model takes the answer text as an input
  to `_extract` instead of modelling that call.
- **`json.loads`** is an abstract parser. Only `JSONDecodeError` (a `None` from the parser) is
  modelled as an error.
- **Text.** `Text.Lower` lower-cases ASCII letters only, so case-insensitive regex matching
  and `str.lower()` on non-ASCII letters are not modelled. `Text.IsSpace` follows Python's
  `str.isspace` set.
- **Object keys.** Python's equal hashing of `1`, `1.0` and `True` as dict keys is not
  modelled. In `FlaskBackend.AggregateSpending` the map is keyed by `Value`, which changes no
  result, because only string categories are ever looked up.
- **Request bodies.**
  - `FlaskBackend.Store.UpdateBudget` takes the posted state as a dict. A body or a "state"
    that is not a dict is not modelled there.
  - `BackendMain.UpdateState` and `ReferenceMain.UpdateState` do model a body that is not a
    dict.
- **Json.Get** does not state which field it returns when a key repeats. It is the first, as
  in a dict, which never repeats a key.
- **Json.Set** states only the length. Its effect on values and on key order is proved in
  `Json.SetGet` and `Json.SetKeys`.
- **ReferenceMain.PyAdd** states its contract only for None operands. The number case is in
  `ReferenceMain.PyAddNumbers` and `ReferenceMain.PyAddInts`. String and list concatenation
  are in the body only.
- **ReferenceMain.UpdateState** states only the body-not-a-dict case. The other cases are
  proved in `ReferenceMain.UpdateStateCounters`, `ReferenceMain.UpdateStateMissingCounter`
  and `ReferenceMain.UpdateStateNotDict`.
- **ReceiptLambda.GetType** states only the stored-type case. The suffix guess is proved in
  `ReceiptLambda.MimeForSuffix` and `ReceiptLambda.GetTypeIgnoresCase`.
