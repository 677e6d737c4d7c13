/** The content bridge the page sees as `window.shallot`.

    `postMessage(message)` adds a window listener for
    'shallot_contentscript_message' that is tied to `message.id`, then
    dispatches 'shallot_injected_script_message' with the message as its
    `detail`.  A listener ignores every event whose `detail.id` differs from its
    own id; on the first event that matches it removes itself and posts the
    event's `detail` back to the page.

    The window's listeners are a multiset of the ids they wait for (two
    requests posted with the same id leave two listeners); the dispatched
    request events and the details posted back to the page are logs. */
module Bridge {

  type Id = string

  /** A message crossing the bridge: its `id` and everything else in it. */
  datatype Envelope = Envelope(id: Id, body: string)

  datatype BridgeState = BridgeState(
    listeners: multiset<Id>,
    dispatched: seq<Envelope>,
    forwarded: seq<Envelope>)

  /** `n` copies of `d`. */
  function Copies(d: Envelope, n: nat): (r: seq<Envelope>)
    ensures |r| == n
    ensures forall i :: 0 <= i < n ==> r[i] == d
  {
    if n == 0 then [] else Copies(d, n - 1) + [d]
  }

  /** `window.addEventListener('shallot_contentscript_message', listener)` */
  function Listen(s: BridgeState, id: Id): BridgeState {
    s.(listeners := s.listeners + multiset{id})
  }

  /** `window.dispatchEvent(new CustomEvent('shallot_injected_script_message', { detail: message }))` */
  function Dispatch(s: BridgeState, message: Envelope): BridgeState {
    s.(dispatched := s.dispatched + [message])
  }

  /** `window.shallot.postMessage(message)`: the listener first, then the
      request event.  `during` are the answers that the request event's own
      handlers send back before `dispatchEvent` returns. */
  function Post(s: BridgeState, message: Envelope, during: seq<Envelope>): BridgeState {
    ReceiveAll(Dispatch(Listen(s, message.id), message), during)
  }

  /** A 'shallot_contentscript_message' event: every listener waiting for
      `detail.id` removes itself and posts `detail` to the page; the others
      ignore it. */
  function Receive(s: BridgeState, detail: Envelope): BridgeState {
    s.(listeners := s.listeners[detail.id := 0],
       forwarded := s.forwarded + Copies(detail, s.listeners[detail.id]))
  }

  /** The events `details`, one after the other. */
  function ReceiveAll(s: BridgeState, details: seq<Envelope>): BridgeState
    decreases |details|
  {
    if details == [] then s
    else Receive(ReceiveAll(s, details[..|details| - 1]), details[|details| - 1])
  }

  /** How many messages in `es` carry `id`. */
  function CountId(es: seq<Envelope>, id: Id): nat
    decreases |es|
  {
    if es == [] then 0
    else CountId(es[..|es| - 1], id) + (if es[|es| - 1].id == id then 1 else 0)
  }

  /** For every id, each request carrying it has either been answered once or
      still has its listener: nothing is forwarded that no listener was
      waiting for, and no listener forwards twice. */
  ghost predicate Conserved(s: BridgeState) {
    forall id :: CountId(s.forwarded, id) + s.listeners[id] == CountId(s.dispatched, id)
  }

  lemma {:induction false} CountIdAppend(es: seq<Envelope>, more: seq<Envelope>, id: Id)
    ensures CountId(es + more, id) == CountId(es, id) + CountId(more, id)
    decreases |more|
  {
    if more == [] {
      assert es + more == es;
    } else {
      var p := more[..|more| - 1];
      CountIdAppend(es, p, id);
      assert (es + more)[..|es + more| - 1] == es + p;
    }
  }

  lemma {:induction false} CountIdCopies(d: Envelope, n: nat, id: Id)
    ensures CountId(Copies(d, n), id) == if d.id == id then n else 0
  {
    if n > 0 {
      CountIdCopies(d, n - 1, id);
      assert Copies(d, n)[..n - 1] == Copies(d, n - 1);
    }
  }

  /** Adding a listener and dispatching its request keeps every id's count balanced. */
  lemma ListenDispatchKeepsConserved(s: BridgeState, message: Envelope)
    requires Conserved(s)
    ensures Conserved(Dispatch(Listen(s, message.id), message))
  {
    var t := Dispatch(Listen(s, message.id), message);
    forall id ensures CountId(t.dispatched, id) == CountId(s.dispatched, id) + (if message.id == id then 1 else 0) {
      assert t.dispatched[..|s.dispatched|] == s.dispatched;
    }
  }

  /** A run of answer events fires, once each, exactly the listeners waiting
      for an id that some answer carries, removes exactly those, and leaves
      the dispatched requests alone. */
  lemma {:induction false} ReceiveAllEffect(s: BridgeState, details: seq<Envelope>, id: Id)
    ensures CountId(ReceiveAll(s, details).forwarded, id) ==
              CountId(s.forwarded, id) + (if id in Ids(details) then s.listeners[id] else 0)
    ensures ReceiveAll(s, details).listeners[id] == if id in Ids(details) then 0 else s.listeners[id]
    ensures ReceiveAll(s, details).dispatched == s.dispatched
    decreases |details|
  {
    if details != [] {
      var p := details[..|details| - 1];
      var d := details[|details| - 1];
      ReceiveAllEffect(s, p, id);
      var mid := ReceiveAll(s, p);
      assert Ids(details) == Ids(p) + {d.id} by {
        assert forall i :: 0 <= i < |p| ==> p[i] == details[i];
      }
      CountIdAppend(mid.forwarded, Copies(d, mid.listeners[d.id]), id);
      CountIdCopies(d, mid.listeners[d.id], id);
    }
  }

  /** Posting a request, with whatever answers arrive during its dispatch,
      keeps every id's count balanced. */
  lemma PostKeepsConserved(s: BridgeState, message: Envelope, during: seq<Envelope>)
    requires Conserved(s)
    ensures Conserved(Post(s, message, during))
  {
    var t := Dispatch(Listen(s, message.id), message);
    ListenDispatchKeepsConserved(s, message);
    forall id ensures CountId(Post(s, message, during).forwarded, id) + Post(s, message, during).listeners[id] == CountId(Post(s, message, during).dispatched, id) {
      ReceiveAllEffect(t, during, id);
    }
  }

  /** An answer event keeps every id's count balanced. */
  lemma ReceiveKeepsConserved(s: BridgeState, detail: Envelope)
    requires Conserved(s)
    ensures Conserved(Receive(s, detail))
  {
    forall id ensures CountId(Receive(s, detail).forwarded, id) == CountId(s.forwarded, id) + (if detail.id == id then s.listeners[id] else 0) {
      CountIdAppend(s.forwarded, Copies(detail, s.listeners[detail.id]), id);
      CountIdCopies(detail, s.listeners[detail.id], id);
    }
  }

  /** The request is dispatched unchanged, whatever answers come back during
      its dispatch; with none, posting adds one listener for the request's id
      and forwards nothing. */
  lemma PostListensThenDispatches(s: BridgeState, message: Envelope, during: seq<Envelope>)
    ensures Post(s, message, during).dispatched == s.dispatched + [message]
    ensures Post(s, message, []).listeners == s.listeners + multiset{message.id}
    ensures Post(s, message, []).forwarded == s.forwarded
  {
    ReceiveAllEffect(Dispatch(Listen(s, message.id), message), during, message.id);
  }

  /** Because the listener is added before the request is dispatched, an
      answer carrying the request's id that arrives while the request is being
      dispatched is caught: one answer with that id is forwarded, and the
      listener is gone. */
  lemma AnswerDuringDispatchIsCaught(s: BridgeState, message: Envelope, during: seq<Envelope>)
    requires message.id !in s.listeners
    requires exists i :: 0 <= i < |during| && during[i].id == message.id
    ensures CountId(Post(s, message, during).forwarded, message.id) == CountId(s.forwarded, message.id) + 1
    ensures Post(s, message, during).listeners[message.id] == 0
  {
    ReceiveAllEffect(Dispatch(Listen(s, message.id), message), during, message.id);
  }

  /** For contrast: had the bridge dispatched the request before adding its
      listener, such an answer would be lost and the listener left waiting. */
  lemma ListeningLateMissesAnswer(s: BridgeState, message: Envelope, during: seq<Envelope>)
    requires message.id !in s.listeners
    ensures var late := Listen(ReceiveAll(Dispatch(s, message), during), message.id);
      && CountId(late.forwarded, message.id) == CountId(s.forwarded, message.id)
      && late.listeners[message.id] == 1
  {
    ReceiveAllEffect(Dispatch(s, message), during, message.id);
  }

  /** A listener waiting for another id than the event's is neither fired nor
      removed, whether or not some listener matches; so an event no listener
      waits for changes nothing. */
  lemma MismatchIgnored(s: BridgeState, detail: Envelope)
    ensures forall id :: id != detail.id ==> Receive(s, detail).listeners[id] == s.listeners[id]
    ensures forall id :: id != detail.id ==> CountId(Receive(s, detail).forwarded, id) == CountId(s.forwarded, id)
    ensures detail.id !in s.listeners ==> Receive(s, detail) == s
  {
    forall id | id != detail.id
      ensures CountId(Receive(s, detail).forwarded, id) == CountId(s.forwarded, id)
    {
      CountIdAppend(s.forwarded, Copies(detail, s.listeners[detail.id]), id);
      CountIdCopies(detail, s.listeners[detail.id], id);
    }
    if detail.id !in s.listeners {
      assert s.listeners[detail.id := 0] == s.listeners;
    }
  }

  /** Once the first matching event has been forwarded, later events with the
      same id are not. */
  lemma LaterAnswersIgnored(s: BridgeState, first: Envelope, later: Envelope)
    requires later.id == first.id
    ensures Receive(Receive(s, first), later) == Receive(s, first)
  {
    MismatchIgnored(Receive(s, first), later);
  }

  /** The ids carried by `details`. */
  function Ids(details: seq<Envelope>): set<Id> {
    set i | 0 <= i < |details| :: details[i].id
  }

  /** With several requests outstanding under distinct ids, answers for them
      arriving in any order are each forwarded once, in arrival order, and
      exactly their listeners are gone. */
  lemma {:induction false} AnswersInAnyOrder(s: BridgeState, details: seq<Envelope>)
    requires forall id :: s.listeners[id] <= 1
    requires forall i :: 0 <= i < |details| ==> details[i].id in s.listeners
    requires forall i, j :: 0 <= i < j < |details| ==> details[i].id != details[j].id
    ensures ReceiveAll(s, details).forwarded == s.forwarded + details
    ensures forall id :: ReceiveAll(s, details).listeners[id] == if id in Ids(details) then 0 else s.listeners[id]
    ensures ReceiveAll(s, details).dispatched == s.dispatched
    decreases |details|
  {
    if details != [] {
      var p := details[..|details| - 1];
      var d := details[|details| - 1];
      AnswersInAnyOrder(s, p);
      assert Ids(details) == Ids(p) + {d.id} by {
        assert forall i :: 0 <= i < |p| ==> p[i] == details[i];
      }
      assert d.id !in Ids(p);
      assert ReceiveAll(s, p).listeners[d.id] == 1;
      assert details == p + [d];
    }
  }

  /** The page's window, as the bridge changes it. */
  class Window {
    var listeners: multiset<Id>
    var dispatched: seq<Envelope>
    var forwarded: seq<Envelope>

    function State(): BridgeState
      reads this
    {
      BridgeState(listeners, dispatched, forwarded)
    }

    ghost predicate Valid()
      reads this
    {
      Conserved(State())
    }

    constructor ()
      ensures Valid() && State() == BridgeState(multiset{}, [], [])
    {
      listeners := multiset{};
      dispatched := [];
      forwarded := [];
    }

    /** `window.shallot.postMessage`; `during` are the answers the request
        event's handlers send back before `dispatchEvent` returns. */
    method PostMessage(message: Envelope, during: seq<Envelope>)
      requires Valid()
      modifies this
      ensures Valid() && State() == Post(old(State()), message, during)
    {
      ListenDispatchKeepsConserved(State(), message);
      listeners := listeners + multiset{message.id};
      dispatched := dispatched + [message];
      ghost var posted := State();
      for i := 0 to |during|
        invariant Valid()
        invariant State() == ReceiveAll(posted, during[..i])
      {
        assert during[..i + 1][..i] == during[..i];
        ContentScriptMessage(during[i]);
      }
      assert during[..|during|] == during;
    }

    /** A 'shallot_contentscript_message' event reaching the window's listeners. */
    method ContentScriptMessage(detail: Envelope)
      requires Valid()
      modifies this
      ensures Valid() && State() == Receive(old(State()), detail)
    {
      ReceiveKeepsConserved(State(), detail);
      var waiting := listeners[detail.id];
      listeners := listeners[detail.id := 0];
      forwarded := forwarded + Copies(detail, waiting);
    }
  }
}
