/** The background relay of the wallet extension.

    One `chrome.runtime.onMessage` listener serves three channels:
    - 'shallot_contentscript_background_channel': requests from web pages,
      routed by `method` (connect, disconnect, connectProvision, anything else);
    - 'shallot_extension_background_channel': results sent back by the
      approval popup, matched to the pending request by id;
    - 'shallot_extension_mnemonic_channel': `set` / `get` of the unlocked mnemonic.

    The process-wide state is the consent map kept under the storage key
    'connectedWallets' (absent until something first writes it), the table of
    pending `sendResponse` callbacks, and the unlocked mnemonic.  Every
    `sendResponse` the listener is handed is a `Token`; calling it is a
    `Delivery` appended to a log, and opening an approval popup is a `Popup`
    appended to another.  Storage reads and writes are atomic steps taken in
    program order. */
module Relay {

  type Id = string
  type Origin = string

  /** Stands for one `sendResponse` callback handed to the listener. */
  type Token = nat

  datatype Option<+T> = None | Some(value: T)

  /** The value stored for one origin in the consent map. */
  datatype Wallet = Wallet(publicKey: string, autoApprove: bool)

  /** `message.data` on the page channel; `network` is `params.network`, and
      `params` stands for the rest of the request, which the relay only passes on. */
  datatype Request = Request(id: Id, methodName: string, network: string, params: string)

  /** `message.data` on the result channel, as the approval popup sends it. */
  datatype ApprovalResult = ApprovalResult(id: Id, methodName: string, params: string)

  /** An inbound message, one constructor per channel the listener tells apart. */
  datatype Message =
    | PageMessage(request: Request)                  // 'shallot_contentscript_background_channel'
    | ResultMessage(result: ApprovalResult)          // 'shallot_extension_background_channel'
    | MnemonicMessage(methodName: string, data: string)  // 'shallot_extension_mnemonic_channel'
    | OtherMessage(channel: string)                  // any other channel: ignored

  /** What a `sendResponse` callback is called with. */
  datatype Response =
    | Connected(id: Id, publicKey: string, autoApprove: bool)
    | Disconnected(id: Id)
    | PopupReply(result: ApprovalResult)   // the popup's `message.data`, passed on unchanged
    | MnemonicValue(value: string)

  datatype Delivery = Delivery(token: Token, response: Response)

  /** The parameters an approval popup is opened with: `origin`, `network` and
      the request itself (serialised as JSON in the popup's URL). */
  datatype Popup = Popup(origin: Origin, network: string, request: Request)

  /** The two places where the listener throws. */
  datatype Fault =
    | NoStoredWallets   // `delete result.connectedWallets[...]` with no map stored
    | NoHandler(id: Id) // calling the `undefined` found for an unknown or resolved id

  /** How one message ends: the listener's return value (`true` keeps the
      response channel open), or an exception.  On the result channel the
      listener itself throws.  For `disconnect` with no map stored the listener
      has already returned `true` when the exception is raised, inside the
      `chrome.storage.local.get` callback; `Threw(NoStoredWallets)` stands for
      that callback's exception. */
  datatype Outcome = Handled(keepOpen: bool) | Threw(fault: Fault)

  datatype RelayState = RelayState(
    stored: Option<map<Origin, Wallet>>,
    handlers: map<Id, Token>,
    mnemonic: string,
    delivered: seq<Delivery>,
    popups: seq<Popup>)

  /** One call of the listener: the message, `sender.origin`, and `sendResponse`. */
  datatype Event = Event(message: Message, origin: Origin, token: Token)

  /** The state when the background page starts: whatever consent map storage
      holds, no pending requests, and the mnemonic `''`. */
  function Start(stored: Option<map<Origin, Wallet>>): RelayState {
    RelayState(stored, map[], "", [], [])
  }

  /** `(result.connectedWallets || {})[sender.origin]` */
  function StoredWallet(stored: Option<map<Origin, Wallet>>, origin: Origin): Option<Wallet> {
    if stored.Some? && origin in stored.value then Some(stored.value[origin]) else None
  }

  function Respond(s: RelayState, token: Token, response: Response): RelayState {
    s.(delivered := s.delivered + [Delivery(token, response)])
  }

  /** `launchPopup`: open the approval popup and remember `id -> sendResponse`. */
  function Escalate(s: RelayState, req: Request, origin: Origin, token: Token): RelayState {
    s.(handlers := s.handlers[req.id := token],
       popups := s.popups + [Popup(origin, req.network, req)])
  }

  /** `handleConnect` */
  function Connect(s: RelayState, req: Request, origin: Origin, token: Token): RelayState {
    match StoredWallet(s.stored, origin)
    case None => Escalate(s, req, origin, token)
    case Some(w) => Respond(s, token, Connected(req.id, w.publicKey, w.autoApprove))
  }

  /** `handleDisconnect`: delete the origin's entry, write the map back, then answer. */
  function Disconnect(s: RelayState, req: Request, origin: Origin, token: Token): (RelayState, Outcome) {
    match s.stored
    case None => (s, Threw(NoStoredWallets))
    case Some(wallets) =>
      (Respond(s.(stored := Some(wallets - {origin})), token, Disconnected(req.id)), Handled(true))
  }

  /** The page channel, routed by `method`. */
  function Route(s: RelayState, req: Request, origin: Origin, token: Token): (RelayState, Outcome) {
    if req.methodName == "connect" then (Connect(s, req, origin, token), Handled(true))
    else if req.methodName == "disconnect" then Disconnect(s, req, origin, token)
    else if req.methodName == "connectProvision" then (Escalate(s, req, origin, token), Handled(true))
    else (Escalate(s, req, origin, token), Handled(true))
  }

  /** The result channel: look the handler up, delete it, then call it. */
  function Resolve(s: RelayState, result: ApprovalResult): (RelayState, Outcome) {
    if result.id in s.handlers then
      var handler := s.handlers[result.id];
      (Respond(s.(handlers := s.handlers - {result.id}), handler, PopupReply(result)), Handled(false))
    else
      (s, Threw(NoHandler(result.id)))
  }

  /** The mnemonic channel. */
  function Mnemonic(s: RelayState, methodName: string, data: string, token: Token): RelayState {
    if methodName == "set" then s.(mnemonic := data)
    else if methodName == "get" then Respond(s, token, MnemonicValue(s.mnemonic))
    else s
  }

  /** A write of the whole 'connectedWallets' value by the extension's popup
      app, which records consent after the user approves a connection.  The
      popup's code (its `ConnectedWalletsProvider`) is not part of this model;
      only the write it makes to storage is. */
  function WriteConsent(s: RelayState, wallets: map<Origin, Wallet>): (r: RelayState)
    ensures r.stored == Some(wallets)
    ensures r.handlers == s.handlers && r.mnemonic == s.mnemonic
    ensures r.delivered == s.delivered && r.popups == s.popups
  {
    s.(stored := Some(wallets))
  }

  /** The consent map `after` holds no origin that `before` lacked, and every
      entry it keeps is unchanged; a map never stored stays absent. */
  ghost predicate ConsentKept(before: Option<map<Origin, Wallet>>, after: Option<map<Origin, Wallet>>) {
    match after
    case None => before.None?
    case Some(m) =>
      before.Some? && forall o :: o in m ==> o in before.value && m[o] == before.value[o]
  }

  /** The listener of `chrome.runtime.onMessage`, one message at a time.  No
      message adds to the consent map, a message that throws changes nothing,
      and a message calls at most one `sendResponse`. */
  function Dispatch(s: RelayState, e: Event): (r: (RelayState, Outcome))
    ensures ConsentKept(s.stored, r.0.stored)
    ensures r.1.Threw? ==> r.0 == s
    ensures s.delivered <= r.0.delivered && |r.0.delivered| <= |s.delivered| + 1
  {
    match e.message
    case PageMessage(req) => Route(s, req, e.origin, e.token)
    case ResultMessage(result) => Resolve(s, result)
    case MnemonicMessage(methodName, data) => (Mnemonic(s, methodName, data, e.token), Handled(false))
    case OtherMessage(_) => (s, Handled(false))
  }

  /** The state after the listener has handled `trace`, in order. */
  function Run(s: RelayState, trace: seq<Event>): RelayState
    decreases |trace|
  {
    if trace == [] then s else Dispatch(Run(s, Prefix(trace)), Last(trace)).0
  }

  function Prefix<T>(xs: seq<T>): seq<T>
    requires xs != []
  {
    xs[..|xs| - 1]
  }

  function Last<T>(xs: seq<T>): T
    requires xs != []
  {
    xs[|xs| - 1]
  }

  // ---------------------------------------------------------------------
  // connect, disconnect, connectProvision and other methods
  // ---------------------------------------------------------------------

  /** A `connect` from an origin with a stored entry is answered at once with
      that entry and the request's id; nothing is registered, no popup opens,
      and the consent map is not written. */
  lemma ConnectKnownOriginAnswers(s: RelayState, req: Request, origin: Origin, token: Token)
    requires req.methodName == "connect"
    requires s.stored.Some? && origin in s.stored.value
    ensures var w := s.stored.value[origin];
      Dispatch(s, Event(PageMessage(req), origin, token)) ==
        (s.(delivered := s.delivered + [Delivery(token, Connected(req.id, w.publicKey, w.autoApprove))]),
         Handled(true))
  {
  }

  /** A `connect` from an origin without an entry, or with no map stored at
      all, answers nothing: it opens a popup with the origin, the network and
      the request, and registers `id -> sendResponse`. */
  lemma ConnectUnknownOriginEscalates(s: RelayState, req: Request, origin: Origin, token: Token)
    requires req.methodName == "connect"
    requires s.stored.None? || origin !in s.stored.value
    ensures Dispatch(s, Event(PageMessage(req), origin, token)) ==
      (s.(handlers := s.handlers[req.id := token], popups := s.popups + [Popup(origin, req.network, req)]),
       Handled(true))
  {
  }

  /** `connectProvision`, and every method other than `connect` and
      `disconnect`, always escalates and never answers directly. */
  lemma OtherMethodsEscalate(s: RelayState, req: Request, origin: Origin, token: Token)
    requires req.methodName != "connect" && req.methodName != "disconnect"
    ensures Dispatch(s, Event(PageMessage(req), origin, token)) ==
      (s.(handlers := s.handlers[req.id := token], popups := s.popups + [Popup(origin, req.network, req)]),
       Handled(true))
  {
  }

  /** Escalating a request whose id is already pending replaces the earlier
      handler: the table keeps the same ids, that id now leads to the new
      callback, and every other id keeps its own. */
  lemma EscalateReplacesPending(s: RelayState, req: Request, origin: Origin, token: Token)
    requires req.id in s.handlers
    ensures var t := Escalate(s, req, origin, token);
      && t.handlers.Keys == s.handlers.Keys
      && t.handlers[req.id] == token
      && forall id :: id in s.handlers && id != req.id ==> t.handlers[id] == s.handlers[id]
  {
  }

  /** Two escalated requests sharing an id (sent from two tabs, say): the
      second takes the id over, so the first caller's callback leaves the
      table for good, and the popup's result for that id reaches the second
      caller only; the first caller is never answered by it. */
  lemma SharedIdStrandsFirstCaller(s: RelayState, r1: Request, o1: Origin, t1: Token,
                                   r2: Request, o2: Origin, t2: Token, result: ApprovalResult)
    requires r1.id == r2.id == result.id && t1 != t2
    requires forall id :: id in s.handlers ==> s.handlers[id] != t1
    ensures var both := Escalate(Escalate(s, r1, o1, t1), r2, o2, t2);
      var after := Resolve(both, result).0;
      && (forall id :: id in both.handlers ==> both.handlers[id] != t1)
      && after.delivered == s.delivered + [Delivery(t2, PopupReply(result))]
      && Deliveries(after.delivered, t1) == Deliveries(s.delivered, t1)
      && (forall id :: id in after.handlers ==> after.handlers[id] != t1)
  {
    DeliveriesAppend(s.delivered, Delivery(t2, PopupReply(result)), t1);
  }

  /** `disconnect` removes exactly the caller's origin from the stored map and
      answers `disconnected` with the request's id, written back before the
      answer; an origin without an entry is answered all the same.  With no map
      stored at all the listener throws, writes nothing and answers nothing. */
  lemma DisconnectForgetsOnlyOrigin(s: RelayState, req: Request, origin: Origin, token: Token)
    requires req.methodName == "disconnect"
    ensures var r := Dispatch(s, Event(PageMessage(req), origin, token));
      match s.stored
      case None => r == (s, Threw(NoStoredWallets))
      case Some(m) =>
        && r.1 == Handled(true)
        && r.0.stored.Some?
        && origin !in r.0.stored.value
        && (forall o :: o != origin ==> (o in r.0.stored.value <==> o in m))
        && (forall o :: o in r.0.stored.value ==> r.0.stored.value[o] == m[o])
        && r.0.delivered == s.delivered + [Delivery(token, Disconnected(req.id))]
        && r.0.handlers == s.handlers && r.0.popups == s.popups && r.0.mnemonic == s.mnemonic
  {
  }

  /** After a `disconnect`, a `connect` from the same origin escalates,
      whatever was stored before. */
  lemma DisconnectThenConnectEscalates(s: RelayState, d: Request, c: Request, origin: Origin, t1: Token, t2: Token)
    requires d.methodName == "disconnect" && c.methodName == "connect"
    ensures var after := Dispatch(s, Event(PageMessage(d), origin, t1)).0;
      Dispatch(after, Event(PageMessage(c), origin, t2)) == (Escalate(after, c, origin, t2), Handled(true))
  {
  }

  /** Over any sequence of listener messages the consent map only loses
      entries: the listener itself never grants consent (the popup app's
      writes, `WriteConsent`, are not listener messages). */
  lemma {:induction false} RunKeepsConsent(s: RelayState, trace: seq<Event>)
    ensures ConsentKept(s.stored, Run(s, trace).stored)
  {
    if trace != [] {
      RunKeepsConsent(s, Prefix(trace));
      var mid := Run(s, Prefix(trace));
      assert ConsentKept(mid.stored, Dispatch(mid, Last(trace)).0.stored);
    }
  }

  /** The round trip of a first connection: a `connect` from an origin without
      consent escalates and answers nothing; the popup stores the user's
      consent for that origin and sends its result, which reaches the waiting
      callback; a later `connect` from the same origin is answered at once
      from the stored consent, without a popup. */
  lemma ApprovedConnectIsRemembered(s: RelayState, req: Request, origin: Origin, t1: Token,
                                    wallet: Wallet, result: ApprovalResult, popup: Origin, t2: Token,
                                    again: Request, t3: Token)
    requires req.methodName == "connect" && again.methodName == "connect"
    requires s.stored.None? || origin !in s.stored.value
    requires result.id == req.id
    ensures var asked := Dispatch(s, Event(PageMessage(req), origin, t1));
      var granted := WriteConsent(asked.0, (if s.stored.Some? then s.stored.value else map[])[origin := wallet]);
      var resolved := Dispatch(granted, Event(ResultMessage(result), popup, t2));
      var answered := Dispatch(resolved.0, Event(PageMessage(again), origin, t3));
      && asked.0.delivered == s.delivered
      && asked.0.popups == s.popups + [Popup(origin, req.network, req)]
      && resolved == (granted.(handlers := granted.handlers - {req.id},
                               delivered := s.delivered + [Delivery(t1, PopupReply(result))]),
                      Handled(false))
      && answered == (resolved.0.(delivered := resolved.0.delivered +
                                    [Delivery(t3, Connected(again.id, wallet.publicKey, wallet.autoApprove))]),
                      Handled(true))
  {
  }

  // ---------------------------------------------------------------------
  // The result channel
  // ---------------------------------------------------------------------

  /** A result for a pending id deletes the id and calls its handler with the
      result; the same result again finds no handler, and the listener throws
      without calling anything.  A result for an id never registered throws too. */
  lemma ResultFiresHandlerAtMostOnce(s: RelayState, result: ApprovalResult, o1: Origin, t1: Token, o2: Origin, t2: Token)
    ensures var first := Dispatch(s, Event(ResultMessage(result), o1, t1));
      if result.id in s.handlers then
        && first == (s.(handlers := s.handlers - {result.id},
                        delivered := s.delivered + [Delivery(s.handlers[result.id], PopupReply(result))]),
                     Handled(false))
        && Dispatch(first.0, Event(ResultMessage(result), o2, t2)) == (first.0, Threw(NoHandler(result.id)))
      else
        first == (s, Threw(NoHandler(result.id)))
  {
  }

  /** The ids of the results in `trace`. */
  ghost function ResultIds(trace: seq<Event>): set<Id>
    requires forall i :: 0 <= i < |trace| ==> trace[i].message.ResultMessage?
  {
    set i | 0 <= i < |trace| :: trace[i].message.result.id
  }

  /** Results for distinct pending ids, arriving in any order: each calls the
      handler registered for its own id, once, with its own data, in arrival
      order, and the table loses exactly those ids. */
  lemma {:induction false} ResolveInAnyOrder(s: RelayState, trace: seq<Event>)
    requires forall i :: 0 <= i < |trace| ==> trace[i].message.ResultMessage?
    requires forall i :: 0 <= i < |trace| ==> trace[i].message.result.id in s.handlers
    requires forall i, j :: 0 <= i < j < |trace| ==> trace[i].message.result.id != trace[j].message.result.id
    ensures var t := Run(s, trace);
      && |t.delivered| == |s.delivered| + |trace|
      && t.delivered[..|s.delivered|] == s.delivered
      && (forall i :: 0 <= i < |trace| ==>
            t.delivered[|s.delivered| + i] ==
              Delivery(s.handlers[trace[i].message.result.id], PopupReply(trace[i].message.result)))
      && t.handlers == s.handlers - ResultIds(trace)
      && t.stored == s.stored && t.popups == s.popups && t.mnemonic == s.mnemonic
  {
    if trace == [] {
      assert s.handlers - ResultIds(trace) == s.handlers;
    } else {
      var p := Prefix(trace);
      ResolveInAnyOrder(s, p);
      var mid := Run(s, p);
      var result := Last(trace).message.result;
      assert ResultIds(p) + {result.id} == ResultIds(trace) by {
        assert forall i :: 0 <= i < |p| ==> p[i] == trace[i];
      }
      assert result.id !in ResultIds(p);
      assert result.id in mid.handlers && mid.handlers[result.id] == s.handlers[result.id];
      assert mid.handlers - {result.id} == s.handlers - ResultIds(trace);
    }
  }

  // ---------------------------------------------------------------------
  // Every callback is called at most once
  // ---------------------------------------------------------------------

  /** How many times `token` was called in `ds`. */
  function Deliveries(ds: seq<Delivery>, token: Token): nat
    decreases |ds|
  {
    if ds == [] then 0
    else Deliveries(Prefix(ds), token) + (if Last(ds).token == token then 1 else 0)
  }

  /** The `sendResponse` callbacks handed over so far are `used`; no two pending
      ids share a callback, a pending callback was not called yet, and no
      callback was called twice. */
  ghost predicate AtMostOnce(s: RelayState, used: set<Token>) {
    && (forall a, b :: a in s.handlers && b in s.handlers && a != b ==> s.handlers[a] != s.handlers[b])
    && (forall id :: id in s.handlers ==> s.handlers[id] in used && Deliveries(s.delivered, s.handlers[id]) == 0)
    && (forall t :: Deliveries(s.delivered, t) <= 1)
    && (forall t :: t !in used ==> Deliveries(s.delivered, t) == 0)
  }

  lemma DeliveriesAppend(ds: seq<Delivery>, d: Delivery, token: Token)
    ensures Deliveries(ds + [d], token) == Deliveries(ds, token) + (if d.token == token then 1 else 0)
  {
    assert Prefix(ds + [d]) == ds;
  }

  /** One message with a callback not handed over before keeps `AtMostOnce`. */
  lemma DispatchKeepsAtMostOnce(s: RelayState, used: set<Token>, e: Event)
    requires AtMostOnce(s, used) && e.token !in used
    ensures AtMostOnce(Dispatch(s, e).0, used + {e.token})
  {
    var t := Dispatch(s, e).0;
    if |t.delivered| == |s.delivered| + 1 {
      var d := t.delivered[|s.delivered|];
      assert t.delivered == s.delivered + [d];
      forall tok ensures Deliveries(t.delivered, tok) == Deliveries(s.delivered, tok) + (if d.token == tok then 1 else 0) {
        DeliveriesAppend(s.delivered, d, tok);
      }
    } else {
      assert t.delivered == s.delivered;
    }
  }

  /** The callbacks handed over in `trace`. */
  function Tokens(trace: seq<Event>): set<Token> {
    set i | 0 <= i < |trace| :: trace[i].token
  }

  /** Whatever the interleaving of requests, results and mnemonic messages, as
      long as every listener call has its own `sendResponse`, no callback is
      ever called twice. */
  lemma {:induction false} RunKeepsAtMostOnce(s: RelayState, used: set<Token>, trace: seq<Event>)
    requires AtMostOnce(s, used)
    requires forall i, j :: 0 <= i < j < |trace| ==> trace[i].token != trace[j].token
    requires forall i :: 0 <= i < |trace| ==> trace[i].token !in used
    ensures AtMostOnce(Run(s, trace), used + Tokens(trace))
  {
    if trace == [] {
      assert used + Tokens(trace) == used;
    } else {
      var p := Prefix(trace);
      RunKeepsAtMostOnce(s, used, p);
      assert Last(trace).token !in used + Tokens(p);
      DispatchKeepsAtMostOnce(Run(s, p), used + Tokens(p), Last(trace));
      assert used + Tokens(p) + {Last(trace).token} == used + Tokens(trace) by {
        assert forall i :: 0 <= i < |p| ==> p[i] == trace[i];
      }
    }
  }

  /** From a fresh start, with one callback per listener call, every
      `sendResponse` is called at most once. */
  lemma EveryCallbackAtMostOnce(stored: Option<map<Origin, Wallet>>, trace: seq<Event>)
    requires forall i, j :: 0 <= i < j < |trace| ==> trace[i].token != trace[j].token
    ensures forall t :: Deliveries(Run(Start(stored), trace).delivered, t) <= 1
  {
    RunKeepsAtMostOnce(Start(stored), {}, trace);
  }

  // ---------------------------------------------------------------------
  // The mnemonic channel
  // ---------------------------------------------------------------------

  /** The data of the last `set` on the mnemonic channel in `trace`, or
      `initial` when there is none. */
  function LastSet(trace: seq<Event>, initial: string): string
    decreases |trace|
  {
    if trace == [] then initial
    else
      var m := Last(trace).message;
      if m.MnemonicMessage? && m.methodName == "set" then m.data else LastSet(Prefix(trace), initial)
  }

  /** The mnemonic is the value of the most recent `set`, whatever else happened. */
  lemma {:induction false} MnemonicIsLastSet(s: RelayState, trace: seq<Event>)
    ensures Run(s, trace).mnemonic == LastSet(trace, s.mnemonic)
  {
    if trace != [] {
      MnemonicIsLastSet(s, Prefix(trace));
    }
  }

  /** A `get` answers the most recent `set`, and `''` before any `set`. */
  lemma MnemonicGetAnswersLastSet(stored: Option<map<Origin, Wallet>>, trace: seq<Event>, data: string, origin: Origin, token: Token)
    ensures var s := Run(Start(stored), trace);
      Dispatch(s, Event(MnemonicMessage("get", data), origin, token)) ==
        (s.(delivered := s.delivered + [Delivery(token, MnemonicValue(LastSet(trace, "")))]), Handled(false))
  {
    MnemonicIsLastSet(Start(stored), trace);
  }

  // ---------------------------------------------------------------------
  // The background page itself
  // ---------------------------------------------------------------------

  /** The background page's module-level state, updated in place by the listener. */
  class Background {
    var stored: Option<map<Origin, Wallet>>   // chrome.storage.local 'connectedWallets'
    var handlers: map<Id, Token>              // responseHandlers
    var mnemonic: string                      // unlockedMnemonic
    var delivered: seq<Delivery>
    var popups: seq<Popup>

    function State(): RelayState
      reads this
    {
      RelayState(stored, handlers, mnemonic, delivered, popups)
    }

    constructor (stored: Option<map<Origin, Wallet>>)
      ensures State() == Start(stored)
    {
      this.stored := stored;
      handlers := map[];
      mnemonic := "";
      delivered := [];
      popups := [];
    }

    method LaunchPopup(req: Request, origin: Origin, token: Token)
      modifies this
      ensures State() == Escalate(old(State()), req, origin, token)
    {
      popups := popups + [Popup(origin, req.network, req)];
      handlers := handlers[req.id := token];
    }

    method HandleConnect(req: Request, origin: Origin, token: Token)
      modifies this
      ensures State() == Connect(old(State()), req, origin, token)
    {
      var wallets := if stored.Some? then stored.value else map[];
      if origin !in wallets {
        LaunchPopup(req, origin, token);
      } else {
        var w := wallets[origin];
        delivered := delivered + [Delivery(token, Connected(req.id, w.publicKey, w.autoApprove))];
      }
    }

    method HandleDisconnect(req: Request, origin: Origin, token: Token) returns (outcome: Outcome)
      modifies this
      ensures (State(), outcome) == Disconnect(old(State()), req, origin, token)
    {
      if stored.None? {
        return Threw(NoStoredWallets);
      }
      var wallets := stored.value - {origin};
      stored := Some(wallets);
      delivered := delivered + [Delivery(token, Disconnected(req.id))];
      outcome := Handled(true);
    }

    /** The popup app writes 'connectedWallets' to `chrome.storage.local`. */
    method StorageChanged(wallets: map<Origin, Wallet>)
      modifies this
      ensures State() == WriteConsent(old(State()), wallets)
    {
      stored := Some(wallets);
    }

    method HandleConnectProvision(req: Request, origin: Origin, token: Token)
      modifies this
      ensures State() == Escalate(old(State()), req, origin, token)
    {
      LaunchPopup(req, origin, token);
    }

    method OnMessage(message: Message, origin: Origin, token: Token) returns (outcome: Outcome)
      modifies this
      ensures (State(), outcome) == Dispatch(old(State()), Event(message, origin, token))
    {
      match message
      case PageMessage(req) =>
        if req.methodName == "connect" {
          HandleConnect(req, origin, token);
          outcome := Handled(true);
        } else if req.methodName == "disconnect" {
          outcome := HandleDisconnect(req, origin, token);
        } else if req.methodName == "connectProvision" {
          HandleConnectProvision(req, origin, token);
          outcome := Handled(true);
        } else {
          LaunchPopup(req, origin, token);
          outcome := Handled(true);
        }
      case ResultMessage(result) =>
        var handler := if result.id in handlers then Some(handlers[result.id]) else None;
        handlers := handlers - {result.id};
        match handler {
          case None =>
            assert handlers == old(handlers);
            outcome := Threw(NoHandler(result.id));
          case Some(callback) =>
            delivered := delivered + [Delivery(callback, PopupReply(result))];
            outcome := Handled(false);
        }
      case MnemonicMessage(methodName, data) =>
        if methodName == "set" {
          mnemonic := data;
        } else if methodName == "get" {
          delivered := delivered + [Delivery(token, MnemonicValue(mnemonic))];
        }
        outcome := Handled(false);
      case OtherMessage(_) =>
        outcome := Handled(false);
    }
  }
}
