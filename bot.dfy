/** The per-user conversation of the bot: the (state, event) routing table of
    its conversation handler, the transient session fields its handlers keep
    between turns, and the handlers themselves, which read and write the
    session and the store and return the next state. */
module Conversation {
  import opened Common
  import opened ObjectIds
  import opened Tables
  import opened Store

  /** The ten states of the conversation. */
  datatype State =
    | MainMenu
    | GettingLivePrice
    | AfterPriceResult
    | GettingAlertCurrency
    | GettingTargetPrice
    | GettingAlertCondition
    | ManagingAlerts
    | GettingSubCurrency
    | GettingSubFrequency
    | ManagingSubscriptions

  /** Where a user's conversation stands: not running (never started, or ended
      by a handler that returned END), or in one of the states. */
  datatype Phase = Outside | In(state: State)

  /** An update from the user: a button press carrying its callback data, a
      text message that is not a command, or a command such as `/start`. */
  datatype Event = Callback(data: string) | Text(body: string) | Command(name: string)

  /** The handlers the routing table can select. */
  datatype Handler =
    | StartCommand
    | LivePriceFlowStart
    | LivePriceGetCurrency
    | LivePriceCheckAnother
    | LivePriceBackToMenu
    | PriceSubscriptionFlowStart
    | PriceSubscriptionGetCurrency
    | PriceSubscriptionGetFrequency
    | StartNewSubscriptionFlow
    | CancelSubscription
    | PriceAlertFlowStart
    | PriceAlertGetCurrency
    | PriceAlertGetCondition
    | PriceAlertGetTargetPrice
    | StartNewAlertFlow
    | CancelAlert
    | CancelCommand

  /** What a handler hands back: the next state, END, or an exception, after
      which the conversation stays where it was (writes already made persist). */
  datatype Next = Goto(state: State) | End | Raised

  function Advance(p: Phase, n: Next): Phase
  {
    match n
    case Goto(s) => In(s)
    case End => Outside
    case Raised => p
  }

  const CancelAlertPrefix: string := "cancel_alert_"
  const CancelSubPrefix: string := "cancel_sub_"

  /** The handlers registered for one state, tried in order; None when none
      of them accepts the event. Commands are never accepted here: the text
      handlers exclude them. */
  function StateHandler(s: State, e: Event): Option<Handler>
  {
    match s
    case MainMenu =>
      if e == Callback("live_price") then Some(LivePriceFlowStart)
      else if e == Callback("price_alert") then Some(PriceAlertFlowStart)
      else if e == Callback("price_subscription") then Some(PriceSubscriptionFlowStart)
      else None
    case GettingLivePrice =>
      if e.Text? then Some(LivePriceGetCurrency) else None
    case AfterPriceResult =>
      if e == Callback("live_price_again") then Some(LivePriceCheckAnother)
      else if e == Callback("main_menu") then Some(LivePriceBackToMenu)
      else None
    case GettingAlertCurrency =>
      if e == Callback("price_alert") then Some(PriceAlertFlowStart)
      else if e.Text? then Some(PriceAlertGetCurrency)
      else None
    case GettingAlertCondition =>
      if e == Callback("gte") || e == Callback("lte") then Some(PriceAlertGetCondition)
      else if e == Callback("price_alert") then Some(PriceAlertFlowStart)
      else None
    case GettingTargetPrice =>
      if e == Callback("price_alert") then Some(PriceAlertFlowStart)
      else if e.Text? then Some(PriceAlertGetTargetPrice)
      else None
    case ManagingAlerts =>
      if e == Callback("new_alert") then Some(StartNewAlertFlow)
      else if e.Callback? && CancelAlertPrefix <= e.data then Some(CancelAlert)
      else if e == Callback("main_menu") then Some(StartCommand)
      else None
    case GettingSubCurrency =>
      if e == Callback("price_subscription") then Some(PriceSubscriptionFlowStart)
      else if e.Text? then Some(PriceSubscriptionGetCurrency)
      else None
    case GettingSubFrequency =>
      if e.Callback? then Some(PriceSubscriptionGetFrequency) else None
    case ManagingSubscriptions =>
      if e == Callback("new_sub") then Some(StartNewSubscriptionFlow)
      else if e.Callback? && CancelSubPrefix <= e.data then Some(CancelSubscription)
      else if e == Callback("main_menu") then Some(StartCommand)
      else None
  }

  /** The conversation handler's choice: outside a conversation only the
      `/start` entry point is heard; inside one, the current state's handlers
      and then the `/start` and `/cancel` fallbacks. */
  function Route(p: Phase, e: Event): Option<Handler>
  {
    match p
    case Outside =>
      if e == Command("start") then Some(StartCommand) else None
    case In(s) =>
      match StateHandler(s, e)
      case Some(h) => Some(h)
      case None =>
        if e == Command("start") then Some(StartCommand)
        else if e == Command("cancel") then Some(CancelCommand)
        else None
  }

  // ------------------------------------------------------------- session

  /** The transient per-user fields (`user_data`); absent keys are None. */
  datatype Session = Session(
    subCurrency: Option<string>,
    alertCurrency: Option<string>,
    alertCondition: Option<Condition>,
    messageToEdit: Option<int>)

  const EmptySession := Session(None, None, None, None)

  /** A text field that is present and non-empty, as a truth test on it. */
  predicate Given(s: Option<string>)
  {
    s.Some? && s.value != ""
  }

  /** The fields the target-price step insists on, each tested for truth. */
  predicate AlertFieldsPresent(s: Session, userId: UserId)
  {
    Given(s.alertCurrency) && s.alertCondition.Some? && userId != 0
    && s.messageToEdit.Some? && s.messageToEdit.value != 0
  }

  // ----------------------------------------------------- callback payloads

  /** `s.replace(pat, '')`: every occurrence of `pat`, found left to right
      without overlap, removed. */
  function RemoveAll(s: string, pat: string): (r: string)
    ensures |r| <= |s|
    decreases |s|
  {
    if pat == [] || |s| < |pat| then s
    else if s[..|pat|] == pat then RemoveAll(s[|pat|..], pat)
    else [s[0]] + RemoveAll(s[1..], pat)
  }

  /** Text lacking one of the pattern's characters has no occurrence of it. */
  lemma {:induction false} RemoveAllAbsent(s: string, pat: string, k: nat)
    requires k < |pat|
    requires forall i :: 0 <= i < |s| ==> s[i] != pat[k]
    ensures RemoveAll(s, pat) == s
    decreases |s|
  {
    if |s| >= |pat| {
      assert s[..|pat|][k] != pat[k];
      RemoveAllAbsent(s[1..], pat, k);
      assert [s[0]] + s[1..] == s;
    }
  }

  /** The callback data of the cancel button of a subscription or alert. */
  function CancelData(prefix: string, id: ObjectId): string
  {
    prefix + FormatObjectId(id)
  }

  /** The id a cancel handler deletes: the button's data with the prefix
      removed, read as an id. */
  function CancelledId(data: string, prefix: string): Option<ObjectId>
  {
    ParseObjectId(RemoveAll(data, prefix))
  }

  /** Pressing the cancel button rendered for a record deletes that record:
      the prefix the button carries is stripped and the rest reads back as the
      record's id. */
  lemma CancelButtonRoundTrip(prefix: string, id: ObjectId)
    requires prefix == CancelAlertPrefix || prefix == CancelSubPrefix
    ensures CancelledId(CancelData(prefix, id), prefix) == Some(id)
  {
    var hex := FormatObjectId(id);
    var data := prefix + hex;
    assert data[..|prefix|] == prefix && data[|prefix|..] == hex;
    assert prefix[|prefix| - 1] == '_';
    RemoveAllAbsent(hex, prefix, |prefix| - 1);
    ObjectIdRoundTrip(id);
  }

  // ------------------------------------------------------------ keyboards

  /** The keys of the frequency labels: a subscription listed with any other
      frequency cannot be rendered. */
  predicate KnownFrequency(f: string)
  {
    f == "daily" || f == "weekly" || f == "monthly"
  }

  /** The callback data of the subscription menu: one cancel button per listed
      subscription in listing order, then "add" and "back"; None where a
      frequency has no label and the label lookup raises. */
  method SubscriptionKeyboard(listing: seq<Subscription>) returns (buttons: Option<seq<string>>)
    ensures buttons.None? <==> exists s :: s in listing && !KnownFrequency(s.frequency)
    ensures buttons.Some? ==>
      && |buttons.value| == |listing| + 2
      && (forall k :: 0 <= k < |listing| ==> buttons.value[k] == CancelData(CancelSubPrefix, listing[k].id))
      && buttons.value[|listing|] == "new_sub"
      && buttons.value[|listing| + 1] == "main_menu"
  {
    var rows: seq<string> := [];
    var i := 0;
    while i < |listing|
      invariant 0 <= i <= |listing|
      invariant |rows| == i
      invariant forall k :: 0 <= k < i ==> rows[k] == CancelData(CancelSubPrefix, listing[k].id)
      invariant forall k :: 0 <= k < i ==> KnownFrequency(listing[k].frequency)
    {
      if !KnownFrequency(listing[i].frequency) {
        return None;
      }
      rows := rows + [CancelData(CancelSubPrefix, listing[i].id)];
      i := i + 1;
    }
    rows := rows + ["new_sub"];
    rows := rows + ["main_menu"];
    buttons := Some(rows);
  }

  /** The callback data of the alert menu: one cancel button per listed alert
      in listing order, then "add" and "back". */
  method AlertKeyboard(listing: seq<Alert>) returns (buttons: seq<string>)
    ensures |buttons| == |listing| + 2
    ensures forall k :: 0 <= k < |listing| ==> buttons[k] == CancelData(CancelAlertPrefix, listing[k].id)
    ensures buttons[|listing|] == "new_alert" && buttons[|listing| + 1] == "main_menu"
  {
    buttons := [];
    var i := 0;
    while i < |listing|
      invariant 0 <= i <= |listing|
      invariant |buttons| == i
      invariant forall k :: 0 <= k < i ==> buttons[k] == CancelData(CancelAlertPrefix, listing[k].id)
    {
      buttons := buttons + [CancelData(CancelAlertPrefix, listing[i].id)];
      i := i + 1;
    }
    buttons := buttons + ["new_alert"];
    buttons := buttons + ["main_menu"];
  }

  // ----------------------------------------------------------- flow starts

  /** Where the subscription flow goes for a user's listing. */
  function SubscriptionFlowNext(listing: seq<Subscription>): Next
  {
    if listing == [] then Goto(GettingSubCurrency)
    else if exists s :: s in listing && !KnownFrequency(s.frequency) then Raised
    else Goto(ManagingSubscriptions)
  }

  /** Where the alert flow goes for a user's listing. */
  function AlertFlowNext(listing: seq<Alert>): Next
  {
    if listing == [] then Goto(GettingAlertCurrency) else Goto(ManagingAlerts)
  }

  /** The alert flow opens the management menu exactly when the user has at
      least one alert, active or triggered, and asks for a currency otherwise. */
  lemma AlertFlowRouting(alerts: seq<Alert>, userId: UserId)
    ensures AlertFlowNext(GetUserPriceAlert(alerts, userId)) == Goto(ManagingAlerts)
      <==> exists a :: a in alerts && a.userId == userId
    ensures AlertFlowNext(GetUserPriceAlert(alerts, userId)) == Goto(GettingAlertCurrency)
      <==> forall a :: a in alerts ==> a.userId != userId
  {
  }

  /** The subscription flow asks for a currency exactly when the user has no
      subscription; it raises exactly when one of the listed subscriptions has
      a frequency without a label; and it opens the management menu when the
      user has a subscription and every one of the user's own frequencies has
      a label (other users' documents play no part). */
  lemma SubscriptionFlowRouting(subs: seq<Subscription>, userId: UserId)
    ensures SubscriptionFlowNext(GetUserSubscriptions(subs, userId)) == Goto(GettingSubCurrency)
      <==> forall s :: s in subs ==> s.userId != userId
    ensures SubscriptionFlowNext(GetUserSubscriptions(subs, userId)) == Raised
      <==> exists s :: s in GetUserSubscriptions(subs, userId) && !KnownFrequency(s.frequency)
    ensures SubscriptionFlowNext(GetUserSubscriptions(subs, userId)) == Goto(ManagingSubscriptions)
      ==> exists s :: s in subs && s.userId == userId
    ensures (forall s :: s in subs && s.userId == userId ==> KnownFrequency(s.frequency))
      && (exists s :: s in subs && s.userId == userId)
      ==> SubscriptionFlowNext(GetUserSubscriptions(subs, userId)) == Goto(ManagingSubscriptions)
  {
    var listing := GetUserSubscriptions(subs, userId);
    if listing != [] {
      assert listing[0] in listing;
    }
  }

  /** In the frequency step every button press reaches the frequency handler,
      the "back" button included, whose data then becomes the stored
      frequency; a listed subscription with such a frequency makes the
      subscription menu raise, so the flow stays where it was. */
  lemma UnlabelledFrequencyBlocksMenu(subs: seq<Subscription>, userId: UserId, s: Subscription)
    requires s in subs && s.userId == userId && s.frequency == "main_menu"
    requires |SubscriptionsOf(subs, userId)| <= ListingLimit
    ensures forall d :: Route(In(GettingSubFrequency), Callback(d)) == Some(PriceSubscriptionGetFrequency)
    ensures SubscriptionFlowNext(GetUserSubscriptions(subs, userId)) == Raised
  {
    assert s in SubscriptionsOf(subs, userId);
  }

  // ---------------------------------------------------------------- routes

  /** `/start` is heard in every phase, as the entry point or as a fallback;
      `/cancel` in every state of a running conversation. */
  lemma CommandsAlwaysRoute(p: Phase)
    ensures Route(p, Command("start")) == Some(StartCommand)
    ensures p.In? ==> Route(p, Command("cancel")) == Some(CancelCommand)
    ensures p == Outside ==> forall e :: Route(p, e).Some? ==> e == Command("start")
  {
  }

  /** The "back to menu" button of both management menus runs the start
      handler. */
  lemma ManagementBackIsStart(s: State)
    requires s == ManagingAlerts || s == ManagingSubscriptions
    ensures Route(In(s), Callback("main_menu")) == Some(StartCommand)
  {
  }

  /** The "back" button of the three currency prompts is accepted by no
      handler of their state: pressing it leaves the conversation where it is. */
  lemma DeadBackButtons(s: State)
    requires s in {GettingLivePrice, GettingAlertCurrency, GettingSubCurrency}
    ensures Route(In(s), Callback("main_menu")) == None
  {
  }

  /** Text is handled only in the three currency states and the target-price
      state; any other state ignores it. */
  lemma TextRoutes(s: State, t: string)
    ensures Route(In(s), Text(t)).Some? <==>
      s in {GettingLivePrice, GettingAlertCurrency, GettingTargetPrice, GettingSubCurrency}
  {
  }

  /** A cancel button is routed to the cancel handler of its own menu. */
  lemma CancelButtonsRoute(id: ObjectId)
    ensures Route(In(ManagingAlerts), Callback(CancelData(CancelAlertPrefix, id))) == Some(CancelAlert)
    ensures Route(In(ManagingSubscriptions), Callback(CancelData(CancelSubPrefix, id))) == Some(CancelSubscription)
  {
    assert CancelAlertPrefix <= CancelData(CancelAlertPrefix, id);
    assert CancelSubPrefix <= CancelData(CancelSubPrefix, id);
    assert CancelData(CancelAlertPrefix, id) != "new_alert";
    assert CancelData(CancelSubPrefix, id) != "new_sub";
  }

  /** Each handler is reached only with the kind of update it reads: the
      text handlers with text, the button handlers with a button press. */
  lemma HandlerEvents(p: Phase, e: Event)
    ensures Route(p, e).Some? && ReadsText(Route(p, e).value) ==> e.Text?
    ensures Route(p, e).Some? && ReadsButton(Route(p, e).value) ==> e.Callback?
  {
  }

  /** The handlers that read the text of the message. */
  predicate ReadsText(h: Handler)
  {
    h in {LivePriceGetCurrency, PriceSubscriptionGetCurrency, PriceAlertGetCurrency, PriceAlertGetTargetPrice}
  }

  /** The handlers that read the callback data of the button pressed. */
  predicate ReadsButton(h: Handler)
  {
    h in {PriceSubscriptionGetFrequency, CancelSubscription, CancelAlert, PriceAlertGetCondition}
  }

  /** The updates whose outcome `Chat.Handle` states, with the handler the
      table picks for each. */
  lemma EventRoutes(p: Phase, e: Event)
    ensures e == Command("start") ==> Route(p, e) == Some(StartCommand)
    ensures p.In? && e == Command("cancel") ==> Route(p, e) == Some(CancelCommand)
    ensures p in {In(ManagingAlerts), In(ManagingSubscriptions)} && e == Callback("main_menu") ==>
      Route(p, e) == Some(StartCommand)
    ensures p == In(GettingLivePrice) && e.Text? ==> Route(p, e) == Some(LivePriceGetCurrency)
  {
  }

  /** The condition handler only ever sees "gte" or "lte". */
  lemma ConditionRoute(p: Phase, e: Event)
    requires Route(p, e) == Some(PriceAlertGetCondition)
    ensures e == Callback("gte") || e == Callback("lte")
  {
  }

  // ------------------------------------------------------- the conversation

  /** What a handler takes from outside the conversation: the time of the
      turn, the id the store gives a document it inserts, the id of the
      message the bot sends, and the number conversion. */
  datatype Environment = Environment(now: Stamp, newId: ObjectId, sentMessageId: int, parse: FloatParser)

  /** One user's conversation: its phase and session, over the shared store. */
  class Chat {
    const db: Database
    const user: UserProfile
    var phase: Phase
    var session: Session

    ghost predicate Valid()
      reads db
    {
      db.Valid()
    }

    constructor (db: Database, user: UserProfile)
      requires db.Valid()
      ensures Valid() && this.db == db && this.user == user
      ensures phase == Outside && session == EmptySession
    {
      this.db := db;
      this.user := user;
      phase := Outside;
      session := EmptySession;
    }

    /** `start_command`: records the user and shows the main menu. */
    method Start(now: Stamp) returns (next: Next)
      requires Valid()
      modifies db
      ensures Valid()
      ensures next == Goto(MainMenu)
      ensures db.users == UpsertUser(old(db.users), user, now)
      ensures db.prices == old(db.prices) && db.subscriptions == old(db.subscriptions) && db.alerts == old(db.alerts)
    {
      db.AddOrUpdateUser(user, now);
      next := Goto(MainMenu);
    }

    /** `live_price_get_currency`: a resolved currency is shown and the flow
        moves on; otherwise the user is asked again in place. */
    method LiveLookup(text: string) returns (next: Next, shown: Option<CurrencyInfo>)
      ensures shown == Tables.GetCurrencyInfo(db.prices, text)
      ensures next == if shown.Some? then Goto(AfterPriceResult) else Goto(GettingLivePrice)
    {
      shown := Tables.GetCurrencyInfo(db.prices, text);
      next := if shown.Some? then Goto(AfterPriceResult) else Goto(GettingLivePrice);
    }

    /** `price_subscription_flow_start`: the user's listing decides between
        the management menu and the currency prompt. */
    method SubscriptionMenu() returns (next: Next)
      ensures next == SubscriptionFlowNext(GetUserSubscriptions(db.subscriptions, user.id))
      ensures next == Goto(GettingSubCurrency) <==> forall s :: s in db.subscriptions ==> s.userId != user.id
    {
      var listing := GetUserSubscriptions(db.subscriptions, user.id);
      SubscriptionFlowRouting(db.subscriptions, user.id);
      if listing != [] {
        var buttons := SubscriptionKeyboard(listing);
        next := if buttons.Some? then Goto(ManagingSubscriptions) else Raised;
      } else {
        next := Goto(GettingSubCurrency);
      }
    }

    /** `price_subscription_get_currency`: a resolvable text is kept verbatim
        as the pending currency; otherwise the start handler runs. */
    method SubscriptionCurrency(text: string, now: Stamp) returns (next: Next)
      requires Valid()
      modifies this`session, db
      ensures Valid()
      ensures Tables.GetCurrencyInfo(old(db.prices), text).Some? ==>
        next == Goto(GettingSubFrequency) && session == old(session).(subCurrency := Some(text)) && db.users == old(db.users)
      ensures Tables.GetCurrencyInfo(old(db.prices), text).None? ==>
        next == Goto(MainMenu) && session == old(session) && db.users == UpsertUser(old(db.users), user, now)
      ensures db.prices == old(db.prices) && db.subscriptions == old(db.subscriptions) && db.alerts == old(db.alerts)
    {
      var found := Tables.GetCurrencyInfo(db.prices, text);
      if found.Some? {
        session := session.(subCurrency := Some(text));
        next := Goto(GettingSubFrequency);
      } else {
        next := Start(now);
      }
    }

    /** `price_subscription_get_frequency`: without a pending currency the
        user is sent back to the currency prompt and nothing is written;
        with one, the callback data is stored as the frequency, verbatim, and
        the subscription menu is shown again. */
    method SubscriptionFrequency(data: string, now: Stamp, newId: ObjectId) returns (next: Next)
      requires Valid() && newId !in SubscriptionIds(db.subscriptions)
      modifies db
      ensures Valid()
      ensures !Given(session.subCurrency) ==> next == Goto(GettingSubCurrency) && db.subscriptions == old(db.subscriptions)
      ensures Given(session.subCurrency) ==>
        && db.subscriptions == UpsertSubscription(old(db.subscriptions), user.id, session.subCurrency.value, data, now, newId)
        && SubscriptionFor(db.subscriptions, user.id, session.subCurrency.value).Some?
        && SubscriptionFor(db.subscriptions, user.id, session.subCurrency.value).value.frequency == data
        && next == SubscriptionFlowNext(GetUserSubscriptions(db.subscriptions, user.id))
      ensures db.prices == old(db.prices) && db.users == old(db.users) && db.alerts == old(db.alerts)
    {
      if !Given(session.subCurrency) {
        return Goto(GettingSubCurrency);
      }
      UpsertSubscriptionSpec(db.subscriptions, user.id, session.subCurrency.value, data, now, newId);
      db.AddOrUpdateSubscription(user.id, session.subCurrency.value, data, now, newId);
      next := SubscriptionMenu();
    }

    /** `cancel_subscription`: the id after the prefix is deleted; on success
        the subscription flow is recomputed, on failure the menu stays. */
    method UnsubscribeById(data: string) returns (next: Next)
      requires Valid()
      modifies db
      ensures Valid()
      ensures match CancelledId(data, CancelSubPrefix)
        case Some(id) =>
          && db.subscriptions == RemoveSubscription(old(db.subscriptions), id)
          && next == if id in SubscriptionIds(old(db.subscriptions))
                     then SubscriptionFlowNext(GetUserSubscriptions(db.subscriptions, user.id))
                     else Goto(ManagingSubscriptions)
        case None => next == Goto(ManagingSubscriptions) && db.subscriptions == old(db.subscriptions)
      ensures db.prices == old(db.prices) && db.users == old(db.users) && db.alerts == old(db.alerts)
    {
      var idText := RemoveAll(data, CancelSubPrefix);
      assert CancelledId(data, CancelSubPrefix) == ParseObjectId(idText);
      var ok := db.DeleteSubscriptionById(idText);
      assert CancelledId(data, CancelSubPrefix).None? ==> db.subscriptions == old(db.subscriptions);
      if ok {
        next := SubscriptionMenu();
      } else {
        next := Goto(ManagingSubscriptions);
      }
    }

    /** `price_alert_flow_start`: the user's listing decides between the
        management menu and the currency prompt. */
    method AlertMenu() returns (next: Next)
      ensures next == AlertFlowNext(GetUserPriceAlert(db.alerts, user.id))
      ensures next == Goto(ManagingAlerts) <==> exists a :: a in db.alerts && a.userId == user.id
    {
      var listing := GetUserPriceAlert(db.alerts, user.id);
      AlertFlowRouting(db.alerts, user.id);
      if listing != [] {
        var buttons := AlertKeyboard(listing);
        next := Goto(ManagingAlerts);
      } else {
        next := Goto(GettingAlertCurrency);
      }
    }

    /** `price_alert_get_currency`: a resolvable text stores the record's
        base-asset symbol (not the text) and the id of the prompt just sent;
        otherwise the flow is reset through the start handler, with no retry
        in place. */
    method AlertCurrency(text: string, sentMessageId: int, now: Stamp) returns (next: Next)
      requires Valid()
      modifies this`session, db
      ensures Valid()
      ensures match Tables.GetCurrencyInfo(old(db.prices), text)
        case Some(info) =>
          && next == Goto(GettingAlertCondition)
          && session == old(session).(alertCurrency := Some(info.symbol), messageToEdit := Some(sentMessageId))
          && db.users == old(db.users)
        case None =>
          next == Goto(MainMenu) && session == old(session) && db.users == UpsertUser(old(db.users), user, now)
      ensures db.prices == old(db.prices) && db.subscriptions == old(db.subscriptions) && db.alerts == old(db.alerts)
    {
      var found := Tables.GetCurrencyInfo(db.prices, text);
      if found.Some? {
        session := session.(alertCurrency := Some(found.value.symbol));
        session := session.(messageToEdit := Some(sentMessageId));
        next := Goto(GettingAlertCondition);
      } else {
        next := Start(now);
      }
    }

    /** `price_alert_get_condition`: the chosen condition is kept. */
    method AlertCondition(c: Condition) returns (next: Next)
      modifies this`session
      ensures next == Goto(GettingTargetPrice)
      ensures session == old(session).(alertCondition := Some(c))
    {
      session := session.(alertCondition := Some(c));
      next := Goto(GettingTargetPrice);
    }

    /** `price_alert_get_target_price`: text that does not convert keeps the
        user here with nothing written; a missing pending field ends the
        conversation with nothing written; otherwise exactly one alert upsert,
        the pending currency and message id are dropped (the condition stays)
        and the alert menu follows. */
    method AlertTarget(text: string, parse: FloatParser, now: Stamp, newId: ObjectId) returns (next: Next)
      requires Valid() && newId !in AlertIds(db.alerts)
      modifies this`session, db
      ensures Valid()
      ensures parse(text).None? ==> next == Goto(GettingTargetPrice) && session == old(session) && db.alerts == old(db.alerts)
      ensures parse(text).Some? && !AlertFieldsPresent(old(session), user.id) ==>
        next == End && session == old(session) && db.alerts == old(db.alerts)
      ensures parse(text).Some? && AlertFieldsPresent(old(session), user.id) ==>
        && next == Goto(ManagingAlerts)
        && db.alerts == UpsertAlert(old(db.alerts), user.id, old(session).alertCurrency.value, parse(text).value,
                                    old(session).alertCondition.value, now, newId)
        && AlertFor(db.alerts, user.id, old(session).alertCurrency.value).Some?
        && AlertFor(db.alerts, user.id, old(session).alertCurrency.value).value.status == Active
        && session == old(session).(alertCurrency := None, messageToEdit := None)
      ensures db.prices == old(db.prices) && db.users == old(db.users) && db.subscriptions == old(db.subscriptions)
    {
      var target := parse(text);
      if target.None? {
        return Goto(GettingTargetPrice);
      }
      if !AlertFieldsPresent(session, user.id) {
        return End;
      }
      UpsertAlertSpec(db.alerts, user.id, session.alertCurrency.value, target.value, session.alertCondition.value, now, newId);
      db.SetPriceAlert(user.id, session.alertCurrency.value, target.value, session.alertCondition.value, now, newId);
      session := session.(messageToEdit := None);
      session := session.(alertCurrency := None);
      next := Goto(ManagingAlerts);
    }

    /** `cancel_alert`: as `UnsubscribeById`, on the alerts. */
    method CancelAlertById(data: string) returns (next: Next)
      requires Valid()
      modifies db
      ensures Valid()
      ensures match CancelledId(data, CancelAlertPrefix)
        case Some(id) =>
          && db.alerts == RemoveAlert(old(db.alerts), id)
          && next == if id in AlertIds(old(db.alerts))
                     then AlertFlowNext(GetUserPriceAlert(db.alerts, user.id))
                     else Goto(ManagingAlerts)
        case None => next == Goto(ManagingAlerts) && db.alerts == old(db.alerts)
      ensures db.prices == old(db.prices) && db.users == old(db.users) && db.subscriptions == old(db.subscriptions)
    {
      var idText := RemoveAll(data, CancelAlertPrefix);
      assert CancelledId(data, CancelAlertPrefix) == ParseObjectId(idText);
      var ok := db.DeletePriceAlert(idText);
      assert CancelledId(data, CancelAlertPrefix).None? ==> db.alerts == old(db.alerts);
      if ok {
        next := AlertMenu();
      } else {
        next := Goto(ManagingAlerts);
      }
    }

    /** No collection of the store changed. */
    twostate predicate StoreKept(db: Database)
      reads db
    {
      db.prices == old(db.prices) && db.users == old(db.users)
      && db.subscriptions == old(db.subscriptions) && db.alerts == old(db.alerts)
    }

    /** The start handler's write: the user upserted, nothing else. */
    twostate predicate UserRecorded(now: Stamp)
      reads db
    {
      db.users == UpsertUser(old(db.users), user, now)
      && db.prices == old(db.prices) && db.subscriptions == old(db.subscriptions) && db.alerts == old(db.alerts)
    }

    /** What handler `h`, run on update `e`, does: the state it hands back,
        the session after it and the store after it, handler by handler. The
        trivial handlers only move the conversation; the menus recompute the
        user's listing; the currency steps fall back to the start handler; the
        cancel buttons delete by the id the button carries. */
    twostate predicate Ran(h: Handler, e: Event, env: Environment, next: Next)
      reads this, db
    {
      match h
      case StartCommand =>
        next == Goto(MainMenu) && session == old(session) && UserRecorded(env.now)
      case LivePriceFlowStart =>
        next == Goto(GettingLivePrice) && session == old(session) && StoreKept(db)
      case LivePriceGetCurrency =>
        && e.Text? && session == old(session) && StoreKept(db)
        && next == Goto(if Tables.GetCurrencyInfo(old(db.prices), e.body).Some? then AfterPriceResult else GettingLivePrice)
      case LivePriceCheckAnother =>
        next == Goto(GettingLivePrice) && session == old(session) && StoreKept(db)
      case LivePriceBackToMenu =>
        next == Goto(MainMenu) && session == old(session) && StoreKept(db)
      case PriceSubscriptionFlowStart =>
        && next == SubscriptionFlowNext(GetUserSubscriptions(old(db.subscriptions), user.id))
        && session == old(session) && StoreKept(db)
      case PriceSubscriptionGetCurrency =>
        && e.Text?
        && (if Tables.GetCurrencyInfo(old(db.prices), e.body).Some? then
              next == Goto(GettingSubFrequency) && session == old(session).(subCurrency := Some(e.body)) && StoreKept(db)
            else
              next == Goto(MainMenu) && session == old(session) && UserRecorded(env.now))
      case PriceSubscriptionGetFrequency =>
        && e.Callback? && session == old(session)
        && db.prices == old(db.prices) && db.users == old(db.users) && db.alerts == old(db.alerts)
        && if !Given(old(session).subCurrency) then
             next == Goto(GettingSubCurrency) && db.subscriptions == old(db.subscriptions)
           else
             && db.subscriptions
                == UpsertSubscription(old(db.subscriptions), user.id, old(session).subCurrency.value, e.data, env.now, env.newId)
             && next == SubscriptionFlowNext(GetUserSubscriptions(db.subscriptions, user.id))
      case StartNewSubscriptionFlow =>
        next == Goto(GettingSubCurrency) && session == old(session) && StoreKept(db)
      case CancelSubscription =>
        && e.Callback? && session == old(session)
        && db.prices == old(db.prices) && db.users == old(db.users) && db.alerts == old(db.alerts)
        && (match CancelledId(e.data, CancelSubPrefix)
            case Some(id) =>
              && db.subscriptions == RemoveSubscription(old(db.subscriptions), id)
              && next == if id in SubscriptionIds(old(db.subscriptions))
                         then SubscriptionFlowNext(GetUserSubscriptions(db.subscriptions, user.id))
                         else Goto(ManagingSubscriptions)
            case None => next == Goto(ManagingSubscriptions) && db.subscriptions == old(db.subscriptions))
      case PriceAlertFlowStart =>
        && next == AlertFlowNext(GetUserPriceAlert(old(db.alerts), user.id))
        && session == old(session) && StoreKept(db)
      case PriceAlertGetCurrency =>
        && e.Text?
        && (match Tables.GetCurrencyInfo(old(db.prices), e.body)
            case Some(info) =>
              && next == Goto(GettingAlertCondition) && StoreKept(db)
              && session == old(session).(alertCurrency := Some(info.symbol), messageToEdit := Some(env.sentMessageId))
            case None =>
              next == Goto(MainMenu) && session == old(session) && UserRecorded(env.now))
      case PriceAlertGetCondition =>
        && e.Callback? && next == Goto(GettingTargetPrice) && StoreKept(db)
        && session == old(session).(alertCondition := Some(if e.data == "gte" then Gte else Lte))
      case PriceAlertGetTargetPrice =>
        && e.Text?
        && db.prices == old(db.prices) && db.users == old(db.users) && db.subscriptions == old(db.subscriptions)
        && if env.parse(e.body).None? then
             next == Goto(GettingTargetPrice) && session == old(session) && db.alerts == old(db.alerts)
           else if !AlertFieldsPresent(old(session), user.id) then
             next == End && session == old(session) && db.alerts == old(db.alerts)
           else
             && next == Goto(ManagingAlerts)
             && db.alerts == UpsertAlert(old(db.alerts), user.id, old(session).alertCurrency.value, env.parse(e.body).value,
                                         old(session).alertCondition.value, env.now, env.newId)
             && session == old(session).(alertCurrency := None, messageToEdit := None)
      case StartNewAlertFlow =>
        next == Goto(GettingAlertCurrency) && session == old(session) && StoreKept(db)
      case CancelAlert =>
        && e.Callback? && session == old(session)
        && db.prices == old(db.prices) && db.users == old(db.users) && db.subscriptions == old(db.subscriptions)
        && (match CancelledId(e.data, CancelAlertPrefix)
            case Some(id) =>
              && db.alerts == RemoveAlert(old(db.alerts), id)
              && next == if id in AlertIds(old(db.alerts))
                         then AlertFlowNext(GetUserPriceAlert(db.alerts, user.id))
                         else Goto(ManagingAlerts)
            case None => next == Goto(ManagingAlerts) && db.alerts == old(db.alerts))
      case CancelCommand =>
        next == End && session == old(session) && StoreKept(db)
    }

    /** Runs one handler on the update it was chosen for and returns the
        state it hands back. */
    method Run(h: Handler, e: Event, env: Environment) returns (next: Next)
      requires Valid()
      requires env.newId !in SubscriptionIds(db.subscriptions) && env.newId !in AlertIds(db.alerts)
      requires ReadsText(h) ==> e.Text?
      requires ReadsButton(h) ==> e.Callback?
      modifies this`session, db
      ensures Valid()
      ensures Ran(h, e, env, next)
    {
      match h {
        case StartCommand =>
          next := Start(env.now);
        case LivePriceFlowStart =>
          next := Goto(GettingLivePrice);
        case LivePriceGetCurrency =>
          var shown;
          next, shown := LiveLookup(e.body);
        case LivePriceCheckAnother =>
          next := Goto(GettingLivePrice);
        case LivePriceBackToMenu =>
          next := Goto(MainMenu);
        case PriceSubscriptionFlowStart =>
          next := SubscriptionMenu();
        case PriceSubscriptionGetCurrency =>
          next := SubscriptionCurrency(e.body, env.now);
        case PriceSubscriptionGetFrequency =>
          next := SubscriptionFrequency(e.data, env.now, env.newId);
        case StartNewSubscriptionFlow =>
          next := Goto(GettingSubCurrency);
        case CancelSubscription =>
          next := UnsubscribeById(e.data);
        case PriceAlertFlowStart =>
          next := AlertMenu();
        case PriceAlertGetCurrency =>
          next := AlertCurrency(e.body, env.sentMessageId, env.now);
        case PriceAlertGetCondition =>
          next := AlertCondition(if e.data == "gte" then Gte else Lte);
        case PriceAlertGetTargetPrice =>
          next := AlertTarget(e.body, env.parse, env.now, env.newId);
        case StartNewAlertFlow =>
          next := Goto(GettingAlertCurrency);
        case CancelAlert =>
          next := CancelAlertById(e.data);
        case CancelCommand =>
          next := End;
      }
    }

    /** One update for this user: the routing table picks a handler, which
        runs, and the conversation moves to the state it returns (or stays
        where it was when the handler raises). An update no handler accepts
        changes nothing, and is reported as `Raised`, which keeps the phase. */
    method Handle(e: Event, env: Environment) returns (h: Option<Handler>, next: Next)
      requires Valid()
      requires env.newId !in SubscriptionIds(db.subscriptions) && env.newId !in AlertIds(db.alerts)
      modifies this, db
      ensures Valid()
      ensures h == Route(old(phase), e)
      ensures h.None? ==> next == Raised && phase == old(phase) && session == old(session) && StoreKept(db)
      ensures h.Some? ==> Ran(h.value, e, env, next) && phase == Advance(old(phase), next)
      ensures e == Command("start") ==> phase == In(MainMenu) && session == old(session) && UserRecorded(env.now)
      ensures old(phase).In? && e == Command("cancel") ==> phase == Outside && session == old(session) && StoreKept(db)
      ensures old(phase) in {In(ManagingAlerts), In(ManagingSubscriptions)} && e == Callback("main_menu") ==>
        phase == In(MainMenu) && session == old(session) && UserRecorded(env.now)
      ensures old(phase) == In(GettingLivePrice) && e.Text? ==>
        && session == old(session) && StoreKept(db)
        && phase == In(if Tables.GetCurrencyInfo(db.prices, e.body).Some? then AfterPriceResult else GettingLivePrice)
    {
      h := Route(phase, e);
      if h.None? {
        return h, Raised;
      }
      HandlerEvents(phase, e);
      EventRoutes(phase, e);
      next := Run(h.value, e, env);
      phase := Advance(phase, next);
    }
  }
}
