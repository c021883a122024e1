# Crypto price bot — a Dafny model

A Telegram bot for crypto prices, backed by a MongoDB store, with three
services:

- **Live price.** The user types a currency name in English or Persian, or its
  symbol. The bot looks it up in the `prices` collection and shows the
  document.
- **Price subscriptions.** The user picks a currency and a cadence (daily,
  weekly, monthly). A daily job sends one digest message per subscription that
  is due.
- **Price alerts.** The user picks a currency, a direction (price at or above
  the target, or at or below it) and a target. A job runs every minute. It
  ingests the exchange's market snapshot, finds the active alerts whose
  condition the new prices meet, notifies each user, and marks an alert
  triggered once its message was delivered.

The model has six modules:

| module | file | what it holds |
|---|---|---|
| `Common` | `common.dfy` | `Option`, first-match search, order-keeping filter, ASCII case folding, the whitespace / zero-width-non-joiner "gap" characters |
| `ObjectIds` | `object_id.dfy` | the store's document ids, as numbers below 16^24; their 24-digit hex text form; the round trip between the two |
| `Tables` | `tables.dfy` | each collection as a value (`seq` of documents in store order, or a `map` for users); every read and write the bot and the collector make, as functions; the lemmas that say what those functions mean |
| `Store` | `store.dfy` | `class Database` with the four collections as fields; its methods replace a collection with the table the `Tables` function defines |
| `Conversation` | `bot.dfy` | the conversation's routing table (state × update → handler), the per-user session fields, and `class Chat`, whose handler methods read and write the session and the store and return the next state |
| `DataCollector` | `data_collector.dfy` | `class Collector` with the price tick and the digest jobs, and lemmas about the tick (at-most-once notification) and the digests |

Where the code and the project's documented behaviour differ, the model
follows the code:

- `/start` and `/cancel` leave the session fields (`user_data`) as they are.
  They do not clear them.
- The currency lookup is a single `$or` query. It returns the first document
  in store order that matches any one of the three alternatives. The
  alternatives are not tried in priority order.
- The tick sets an alert's status to triggered whatever its status is at that
  moment. No "still active" guard is applied.
- An alert stores the base asset of the chosen currency as its `symbol`. The
  trigger pipeline joins that value against the price documents' `_id`, which
  is the market symbol. The model keeps the two keys apart exactly as the code
  does.

## Model

| member | source | states |
|---|---|---|
| ObjectIds.ParseObjectId | database.py:117 | text is accepted as an id exactly when it is 24 hexadecimal digits, of either case |
| ObjectIds.ObjectIdRoundTrip | database.py:117 | the hex text of an id, as a cancel button carries it, parses back to that id |
| ObjectIds.ParseObjectIdCanonical | database.py:117 | an accepted text formats back from its id as the same text in lower case, so spellings that differ only in case name the same id |
| Tables.IngestAllLastWriteWins | database.py:18-42 | after a snapshot, every market's document is built from the last entry for that market whose price is present and converts; markets without such an entry keep their previous document or stay absent; keys stay unique and existing documents keep their positions |
| Tables.UpsertPriceSpec | database.py:28-40 | an upsert by `_id` installs the new document under its key, leaves every other key alone, overwrites in place or appends, and keeps keys unique |
| Tables.UpsertUser | database.py:45-58 | the profile fields and last-seen stamp are always written; the join date is set only when the user is new; other users are unchanged |
| Tables.GetCurrencyInfo | database.py:61-76 | the result is the first document in store order that matches the query on symbol, English name or localized-name pattern; it is absent exactly when no document matches |
| Tables.FaPatternIff | database.py:63-69 | the localized-name pattern matches exactly when the stored name, with gaps removed, equals the query with gaps removed (ignoring case), and the name neither starts nor ends with a gap; a query of gaps only matches only the empty name |
| Tables.UpsertSubscriptionSpec | database.py:79-97 | (user, symbol) stays a key and ids stay unique; that pair's subscription gets the new frequency and stamp and keeps its id and join date, or is created under the fresh id; every other pair is untouched |
| Tables.GetSubscriptionsByFrequency | database.py:99-105 | the result holds exactly the subscriptions with that frequency |
| Tables.GetUserSubscriptions | database.py:107-109 | at most 100 documents, all the user's; all of them when the user has at most 100; empty exactly when the user has none |
| Tables.RemoveSubscriptionSpec | database.py:111-125 | exactly the subscription with that id goes, if there is one; the id set loses that id; the count drops by one exactly when the id existed; the others keep their order (the result is the table with that one position cut out, or the table itself); the key invariants hold |
| Tables.UpsertAlertSpec | database.py:128-148 | (user, symbol) stays a key; that pair's alert is re-armed (active) with the new target, condition and stamp, keeping its id and join date, or is created under the fresh id; every other pair is untouched |
| Tables.TriggerRule | database.py:150-200 | an alert is reported exactly when it is stored and active and some price document keyed by the alert's symbol meets the condition against the target, with the boundary included |
| Tables.GetUserPriceAlert | database.py:202-203 | at most 100 documents, all the user's, whatever their status; all of them when the user has at most 100; empty exactly when the user has none |
| Tables.RemoveAlertSpec | database.py:205-214 | exactly the alert with that id goes, if there is one; the count drops by one exactly when the id existed; the others keep their order; the key invariants hold |
| Tables.SetAlertStatusSpec | database.py:216-229 | the alert with that id, and no other, has its status set; nothing else about any alert changes; length and keys are kept |
| Store.Database.UpdatePrices | database.py:18-42 | the loop over the snapshot leaves the prices equal to the ingestion of every entry in order, and each key's document as last-write-wins predicts; the other collections are untouched |
| Store.Database.AddOrUpdateUser | database.py:45-58 | the users become the upsert of the profile; the other collections are untouched |
| Store.Database.AddOrUpdateSubscription | database.py:79-97 | the subscriptions become the keyed upsert; the store's key invariants are kept |
| Store.Database.DeleteSubscriptionById | database.py:111-125 | text that is not an id deletes nothing and gives false; an id gives true exactly when a subscription had it, and that subscription is removed |
| Store.Database.SetPriceAlert | database.py:128-148 | the alerts become the keyed upsert; the store's key invariants are kept |
| Store.Database.DeletePriceAlert | database.py:205-214 | as for subscriptions: false and nothing deleted for text that is not an id; otherwise true exactly when the alert existed, and it is removed |
| Store.Database.UpdateAlertStatus | database.py:216-229 | the status is set unconditionally; the result is true exactly when a document with that id existed with a different status |
| Conversation.CommandsAlwaysRoute | bot.py:36-108 | `/start` is heard in every phase, as the entry point or as a fallback; `/cancel` is heard in every state; outside a conversation nothing but `/start` is heard |
| Conversation.ManagementBackIsStart | bot.py:72-101 | the "back to menu" button of both management menus runs the start handler |
| Conversation.DeadBackButtons | bot.py:50-90 | the "back" button of the live-price, alert-currency and subscription-currency prompts is accepted by no handler of its state, so the conversation stays where it is |
| Conversation.TextRoutes | bot.py:50-90 | text is handled exactly in the three currency states and the target-price state |
| Conversation.CancelButtonsRoute | bot.py:72-101 | a cancel button of either menu is routed to that menu's cancel handler |
| Conversation.ConditionRoute | bot.py:64-67 | the condition handler is reached only with "gte" or "lte" |
| Conversation.CancelButtonRoundTrip | bot.py:354-358 | stripping the prefix from a rendered cancel button and parsing the rest gives back the id of the record the button was rendered for |
| Conversation.SubscriptionKeyboard | bot.py:257-266 | the menu is one cancel button per listed subscription, in listing order, then "add" and "back"; rendering fails exactly when a listed frequency has no label |
| Conversation.AlertKeyboard | bot.py:381-391 | the menu is one cancel button per listed alert, in listing order, then "add" and "back" |
| Conversation.SubscriptionFlowRouting | bot.py:249-281 | the flow asks for a currency exactly when the user has no subscription; it raises exactly when a listed subscription of the user has a frequency without a label; it opens the menu when the user has a subscription and every one of the user's own frequencies has a label |
| Conversation.AlertFlowRouting | bot.py:372-410 | the flow opens the menu exactly when the user has an alert, active or triggered, and asks for a currency exactly when the user has none |
| Conversation.UnlabelledFrequencyBlocksMenu | bot.py:307-328 | every button press in the frequency step, the "back" button included, reaches the frequency handler, which stores its data as the frequency; a listed "main_menu" frequency makes the subscription menu raise, so the flow cannot move on |
| Conversation.Chat.Start | bot.py:120-153 | records the user (upsert), changes no other collection, and shows the main menu |
| Conversation.Chat.LiveLookup | bot.py:169-200 | shows the first matching document and moves on when the text resolves; otherwise asks again in place |
| Conversation.Chat.SubscriptionMenu | bot.py:249-281 | the next state follows from the user's listing as the flow routing states; it is the currency prompt exactly when the user has no subscription |
| Conversation.Chat.SubscriptionCurrency | bot.py:283-305 | resolvable text is kept verbatim as the pending currency, with nothing written; otherwise the start handler runs, which upserts the user and changes no session field |
| Conversation.Chat.SubscriptionFrequency | bot.py:307-328 | with no pending currency, nothing is written and the currency prompt returns; otherwise one keyed upsert stores the callback data verbatim as that pair's frequency, and the menu is recomputed |
| Conversation.Chat.UnsubscribeById | bot.py:347-369 | the id after the prefix is deleted; on success the flow is recomputed from the remaining subscriptions; text that is not an id, or an unknown id, leaves the table and the menu as they are |
| Conversation.Chat.AlertMenu | bot.py:372-410 | the next state follows from the user's listing; it is the menu exactly when the user has an alert |
| Conversation.Chat.AlertCurrency | bot.py:412-434 | resolvable text stores the document's base-asset symbol (not the text) and the id of the prompt just sent; otherwise the start handler runs and nothing is retried in place |
| Conversation.Chat.AlertCondition | bot.py:436-453 | the chosen condition is stored and the target prompt follows |
| Conversation.Chat.AlertTarget | bot.py:455-496 | text that does not convert keeps the user in place with nothing written; a missing pending field ends the conversation with nothing written; otherwise one keyed upsert re-arms the alert as active, the pending currency and message id are dropped (the condition stays), and the alert menu follows |
| Conversation.Chat.CancelAlertById | bot.py:514-530 | as for subscriptions, on the alerts |
| Conversation.HandlerEvents | bot.py:52-89 | the text handlers are reached only by a text message and the button handlers only by a button press, so each handler sees the kind of update it reads |
| Conversation.Chat.Run | bot.py:120-530 | for each of the seventeen handlers, the state it hands back, the session after it and every collection after it (`Ran`): the trivial handlers only move the conversation, the menus recompute the user's listing, the currency steps fall back to the start handler, the cancel buttons delete by the id they carry, the target step upserts one alert |
| Conversation.Chat.Handle | bot.py:36-110 | the handler run is the routing table's choice, its outcome is `Ran` for that handler, and the phase moves to the state it returns, or stays where it was when it raises; an update no handler accepts changes nothing; `/start` leads to the main menu with only the user upserted; `/cancel` ends the conversation with nothing written; "back" in a management menu leads to the main menu; text in the live-price state moves on exactly when it resolves |
| DataCollector.MarkDeliveredSpec | data_collector.py:33-47 | after the tick's loop, exactly the alerts whose notification was delivered are triggered; an alert whose send failed, for whatever reason, and every alert not selected keep their document |
| DataCollector.TriggeredNeverSelected | database.py:156-158 | an alert that is no longer active is never selected, whatever the prices |
| DataCollector.DeliveredNotReselected | data_collector.py:32-40 | an alert whose notification a tick delivered is not selected by the selection straight after it, whatever the prices |
| DataCollector.TriggeredStaysTriggered | data_collector.py:32-40 | over any run of ticks, every alert keeps its position and id, and a triggered alert stays triggered |
| DataCollector.DeliveredNeverReselected | data_collector.py:32-40 | an alert whose notification a tick delivered is selected by no later tick, however many ticks pass and whatever their prices, as long as nothing but the ticks writes the alerts |
| DataCollector.SelectedAlertsDistinct | data_collector.py:32-38 | one tick sends at most one notification per alert: the selected alerts have distinct ids |
| DataCollector.Collector.Notify | data_collector.py:33-47 | the notification loop marks triggered exactly the selected alerts whose message was delivered, leaving every other document and the other collections as they were |
| DataCollector.Collector.GetCurrencyPrice | data_collector.py:18-50 | a failed fetch changes nothing; otherwise the snapshot is ingested, the alerts the new prices trigger are notified in order, and the alerts become the delivered-ones-marked table; users and subscriptions are untouched |
| DataCollector.DigestsOnePerResolvable | data_collector.py:60-69 | one cadence sends exactly one message per subscription whose symbol resolves, in order, carrying the resolved document, and nothing for the others |
| DataCollector.DigestsSound | data_collector.py:56-67 | each digest goes to the subscriber of a subscription with that frequency and carries the document its symbol resolves to; there are never more digests than subscriptions |
| DataCollector.Collector.SendUpdatesSubscription | data_collector.py:52-69 | the loop sends each selected subscription's digest, in order, skipping those that do not resolve |
| DataCollector.CadencesDue | data_collector.py:71-83 | daily always runs, and runs first; weekly runs exactly on Saturdays (weekday 5); monthly runs exactly on the first of the month; they keep the order daily, weekly, monthly |
| DataCollector.DigestRunOfCadences | data_collector.py:71-83 | the day's run is the daily digests, then the weekly ones when due, then the monthly ones when due |
| DataCollector.Collector.SendAllUpdates | data_collector.py:71-83 | the job sends the digest run of the cadences due that day |

## Left out

- `main.py` and `config.py` (start-up, wiring and configuration) are not part of this model.
- Message rendering is not modelled: texts, keyboard labels, Jalali date formatting, and editing versus sending a message. A keyboard is modelled only by its callback data.
- Telegram transport failures inside a handler are not modelled. This covers a send, edit or answer that raises, including the second `query.answer()` in the frequency step.
- The scheduler is not modelled: APScheduler intervals, the 09:00 cron time, and concurrent runs of jobs and handlers. Each job and each update is one atomic step.
- The HTTP request and the response format of the market feed are not modelled. The fetch is an input: failed, unusable, or a list of market entries.
- A market entry that lacks one of its fields is not modelled. The code raises a `KeyError` there, which is not caught and aborts the ingestion midway. Every entry in the model carries every field.
- Floating-point arithmetic is not modelled: prices and targets are reals. `float(...)` is an abstract `FloatParser` parameter, `None` where the conversion raises.
- Timestamps are opaque stamps, passed in as inputs. No clock is read.
- The store's freshly generated ids are inputs. The model requires that such an id is not already used in its table.
- The database-error paths (`PyMongoError`) are not modelled. A store call always succeeds.
- The target-price step ends with a call to the alert flow start whose result is discarded. Only its rendering happens there, so it is not modelled as a step.
- The digest sends are not modelled as outcomes: each send's failure is caught and logged, and it changes no state. The model returns the messages attempted.
- The send outcome of an alert notification is an oracle: `deliver(i)` is the outcome of the tick's i-th send.
- Tables.GetCurrencyInfo: the query is compared literally. The code splices it unescaped into a regular expression, so metacharacters in a query are not modelled. Neither is `$` matching before a trailing newline.
- Tables.GetCurrencyInfo: case folding and whitespace cover ASCII letters and ASCII whitespace plus the zero-width non-joiner, not Unicode case folding or Unicode whitespace.
- Conversation.Chat.Run: the trivial handlers (live-price start and retry, back to the menu from a result, "new subscription", "new alert", `/cancel`) are inlined as their returned state; they only render a message, which is not modelled.
- Conversation.Chat: the user's profile is fixed when the chat is created. The code upserts the profile the update carries on every `/start`, so a later change of name or username is not modelled; the user id, which every property uses, is the same either way.
