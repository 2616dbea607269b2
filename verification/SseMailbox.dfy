/** The per-client mailbox of internal/server/server.go and the loop that reads it in
    internal/server/events.go: a bounded channel of wake-up tokens plus a table holding, per
    coalescing key, the newest payload that has not been delivered yet. */
module SseMailbox {

  const CAPACITY := 16

  // ---------------------------------------------------------------- keys

  /** The coalescing key of a message; "" means the message is delivered as is, or dropped. */
  function EventKey(msg: string): string {
    if msg == "reload" then "reload"
    else if msg == "new-session" then "new-session"
    else if "reload:" <= msg then msg
    else if "event: workflows-updated\n" <= msg then "workflows-updated"
    else if "event: tasks-updated\n" <= msg then msg
    else if "event: chat-preview\n" <= msg then "chat-preview"
    else if "event: worker-status\n" <= msg then "worker-status"
    else ""
  }

  /** Is `token` the key of some message? */
  ghost predicate IsKey(token: string) {
    token != "" && exists msg :: EventKey(msg) == token
  }

  const BARE_NAMES := {"workflows-updated", "chat-preview", "worker-status"}

  /** A message without a key can be mistaken for a key only if it is one of three bare names.
      Every caller passes a keyed message or an "event: " frame, which is never one of them. */
  lemma KeylessMeetsKeyOnlyAtBareNames(msg: string)
    requires EventKey(msg) == ""
    ensures IsKey(msg) <==> msg in BARE_NAMES
    ensures "event: " <= msg ==> !IsKey(msg)
  {
    BareNamesAreKeys();
    if IsKey(msg) {
      var m :| EventKey(m) == msg;
      KeysAreFramesOrNames(m);
    }
  }

  lemma KeysAreFramesOrNames(m: string)
    requires EventKey(EventKey(m)) == "" && EventKey(m) != ""
    ensures EventKey(m) in BARE_NAMES && EventKey(m)[0] != 'e'
  {}

  lemma BareNamesAreKeys()
    ensures forall name :: name in BARE_NAMES ==> IsKey(name)
  {
    WorkflowsFrame();
    ChatPreviewFrame();
    WorkerStatusFrame();
  }

  lemma Differ(prefix: string, msg: string, i: nat)
    requires i < |prefix| && i < |msg| && prefix[i] != msg[i]
    ensures !(prefix <= msg) && prefix != msg
  {}

  lemma WorkflowsFrame()
    ensures EventKey("event: workflows-updated\n") == "workflows-updated"
  {
    var frame := "event: workflows-updated\n";
    assert |frame| == 25 && frame[0] == 'e';
    Differ("reload:", frame, 0);
  }

  lemma ChatPreviewFrame()
    ensures EventKey("event: chat-preview\n") == "chat-preview"
  {
    var frame := "event: chat-preview\n";
    assert |frame| == 20 && frame[0] == 'e' && frame[7] == 'c';
    Differ("reload:", frame, 0);
    Differ("event: tasks-updated\n", frame, 7);
    Differ("event: workflows-updated\n", frame, 7);
  }

  lemma WorkerStatusFrame()
    ensures EventKey("event: worker-status\n") == "worker-status"
  {
    var frame := "event: worker-status\n";
    assert |frame| == 21 && frame[0] == 'e' && frame[7] == 'w';
    Differ("reload:", frame, 0);
    Differ("event: tasks-updated\n", frame, 7);
    Differ("event: chat-preview\n", frame, 7);
  }

  // ---------------------------------------------------------------- the state machine

  /** The reader loop is parked at its select, or has taken a token, or has resolved the token
      and still owes the retry of unsignalled keys. */
  datatype Reader = Parked | InHand(token: string) | Owing

  /** A frame handed to the stream: its payload, and for keyed payloads the broadcast it came from. */
  datatype Delivery = Plain(payload: string) | Keyed(payload: string, origin: nat)

  /** `sent`, `stamps` and `delivered` are history: every keyed message broadcast so far, which of
      them each pending payload is, and every frame delivered so far. */
  datatype State = State(
    ch: seq<string>, pending: map<string, string>, signaled: set<string>, reader: Reader,
    sent: seq<string>, stamps: map<string, nat>, delivered: seq<Delivery>)

  datatype Step =
    | Send(msg: string)
    | Dequeue
    | Resolve
    | Flush(order: seq<string>)  // order: in which the pending table happens to be iterated

  const Empty := State([], map[], {}, Parked, [], map[], [])

  ghost predicate Enumerates(order: seq<string>, keys: set<string>) {
    && (forall k :: k in keys <==> k in order)
    && (forall i, j :: 0 <= i < j < |order| ==> order[i] != order[j])
  }

  ghost predicate Enabled(s: State, step: Step) {
    match step
    case Send(msg) => EventKey(msg) == "" ==> msg !in BARE_NAMES
    case Dequeue => s.reader.Parked? && s.ch != []
    case Resolve => s.reader.InHand? && (s.reader.token in s.pending ==> s.reader.token in s.stamps)
    case Flush(order) => s.reader.Owing? && Enumerates(order, s.pending.Keys)
  }

  /** Signal the keys of `order` that are not signalled yet, until the channel is full. */
  function Signal(ch: seq<string>, signaled: set<string>, order: seq<string>): (seq<string>, set<string>)
    decreases |order|
  {
    if order == [] then (ch, signaled)
    else if order[0] in signaled then Signal(ch, signaled, order[1..])
    else if |ch| < CAPACITY then Signal(ch + [order[0]], signaled + {order[0]}, order[1..])
    else (ch, signaled)
  }

  /** A send that is dropped when the channel is full. */
  function Push(ch: seq<string>, msg: string): seq<string> {
    if |ch| < CAPACITY then ch + [msg] else ch
  }

  function ApplySend(s: State, msg: string): State {
    var key := EventKey(msg);
    if key == "" then s.(ch := Push(s.ch, msg))
    else
      var (ch, signaled) := Signal(s.ch, s.signaled, [key]);
      s.(ch := ch, signaled := signaled, pending := s.pending[key := msg],
         sent := s.sent + [msg], stamps := s.stamps[key := |s.sent|])
  }

  ghost function Apply(s: State, step: Step): State
    requires Enabled(s, step)
  {
    match step
    case Send(msg) => ApplySend(s, msg)
    case Dequeue => s.(ch := s.ch[1..], reader := InHand(s.ch[0]))
    case Resolve =>
      var token := s.reader.token;
      if token in s.pending then
        s.(pending := s.pending - {token}, stamps := s.stamps - {token}, signaled := s.signaled - {token},
           reader := Owing, delivered := s.delivered + [Keyed(s.pending[token], s.stamps[token])])
      else s.(reader := Owing, delivered := s.delivered + [Plain(token)])
    case Flush(order) =>
      var (ch, signaled) := Signal(s.ch, s.signaled, order);
      s.(ch := ch, signaled := signaled, reader := Parked)
  }

  ghost predicate Run(s: State, steps: seq<Step>, end: State)
    decreases steps
  {
    if steps == [] then end == s
    else Enabled(s, steps[0]) && Run(Apply(s, steps[0]), steps[1..], end)
  }

  // ---------------------------------------------------------------- what must hold

  /** The number of wake-up tokens for `key` in the channel or in the reader's hand. */
  ghost function Tokens(s: State, key: string): nat {
    multiset(s.ch)[key] + if s.reader == InHand(key) then 1 else 0
  }

  /** The last broadcast for `key`, or -1. */
  ghost function LastSent(sent: seq<string>, key: string): int {
    if sent == [] then -1
    else if EventKey(sent[|sent| - 1]) == key then |sent| - 1
    else LastSent(sent[..|sent| - 1], key)
  }

  ghost predicate Carries(d: Delivery, sent: seq<string>, key: string) {
    d.Keyed? && d.origin < |sent| && EventKey(sent[d.origin]) == key
  }

  /** The broadcast delivered last for `key`, or -1. */
  ghost function LastDelivered(delivered: seq<Delivery>, sent: seq<string>, key: string): int {
    if delivered == [] then -1
    else
      var d := delivered[|delivered| - 1];
      if Carries(d, sent, key) then d.origin else LastDelivered(delivered[..|delivered| - 1], sent, key)
  }

  /** A key is signalled iff exactly one wake-up token for it is in flight, and then it is pending. */
  ghost predicate SignalledOnce(s: State) {
    && s.signaled <= s.pending.Keys
    && forall key :: IsKey(key) ==> Tokens(s, key) == if key in s.signaled then 1 else 0
  }

  /** A parked reader never overlooks pending work: what is not signalled waits behind a full channel. */
  ghost predicate NeverParkedOnWork(s: State) {
    s.reader.Parked? ==> forall key :: key in s.pending ==> key in s.signaled || |s.ch| == CAPACITY
  }

  ghost predicate Increasing(delivered: seq<Delivery>, sent: seq<string>, key: string) {
    forall i, j | 0 <= i < j < |delivered| && Carries(delivered[i], sent, key) && Carries(delivered[j], sent, key) ::
      delivered[i].origin < delivered[j].origin
  }

  /** Each payload is delivered as sent, and the payloads of one key in the order they were sent. */
  ghost predicate InOrder(s: State) {
    && (forall d :: d in s.delivered && d.Keyed? ==> d.origin < |s.sent| && d.payload == s.sent[d.origin])
    && forall key :: Increasing(s.delivered, s.sent, key)
  }

  /** For every key the newest broadcast is pending, or was the last one delivered. */
  ghost predicate NothingLost(s: State) {
    forall key | IsKey(key) ::
      LastSent(s.sent, key) ==
      if key in s.stamps then s.stamps[key] else LastDelivered(s.delivered, s.sent, key)
  }

  /** Pending payloads are the newest broadcasts for their keys and not delivered yet. */
  ghost predicate PendingIsNewest(s: State) {
    && s.stamps.Keys == s.pending.Keys
    && forall key :: key in s.pending ==>
         && IsKey(key) && s.stamps[key] < |s.sent| && s.sent[s.stamps[key]] == s.pending[key]
         && EventKey(s.pending[key]) == key
         && LastDelivered(s.delivered, s.sent, key) < s.stamps[key]
  }

  ghost predicate Inv(s: State) {
    && |s.ch| <= CAPACITY && SignalledOnce(s) && NeverParkedOnWork(s) && InOrder(s) && NothingLost(s)
    && PendingIsNewest(s)
  }

  // ---------------------------------------------------------------- each step keeps it

  lemma SignalOne(ch: seq<string>, signaled: set<string>, key: string)
    ensures Signal(ch, signaled, [key]) ==
            if key in signaled || |ch| >= CAPACITY then (ch, signaled) else (ch + [key], signaled + {key})
  {
    assert [key][1..] == [];
  }

  lemma SignalWhenFull(ch: seq<string>, signaled: set<string>, order: seq<string>)
    requires |ch| >= CAPACITY
    ensures Signal(ch, signaled, order) == (ch, signaled)
    decreases |order|
  {}

  lemma {:induction false} SignalAppend(ch: seq<string>, signaled: set<string>, first: seq<string>, second: seq<string>)
    ensures var (ch', signaled') := Signal(ch, signaled, first);
            Signal(ch, signaled, first + second) == Signal(ch', signaled', second)
    decreases |first|
  {
    if first == [] {
      assert first + second == second;
    } else {
      assert (first + second)[1..] == first[1..] + second;
      if first[0] in signaled {
        SignalAppend(ch, signaled, first[1..], second);
      } else if |ch| < CAPACITY {
        SignalAppend(ch + [first[0]], signaled + {first[0]}, first[1..], second);
      } else {
        SignalWhenFull(ch, signaled, second);
      }
    }
  }

  lemma SignalFacts(ch: seq<string>, signaled: set<string>, order: seq<string>)
    requires forall i, j :: 0 <= i < j < |order| ==> order[i] != order[j]
    requires |ch| <= CAPACITY
    ensures var (ch', signaled') := Signal(ch, signaled, order);
            && |ch| <= |ch'| <= CAPACITY && signaled <= signaled'
            && (forall k :: k in signaled' ==> k in signaled || k in order)
            && (forall k :: k in order ==> k in signaled' || |ch'| == CAPACITY)
            && (forall k :: multiset(ch')[k] == multiset(ch)[k] + if k in signaled' && k !in signaled then 1 else 0)
    decreases |order|
  {
    if order != [] {
      if order[0] in signaled {
        SignalFacts(ch, signaled, order[1..]);
      } else if |ch| < CAPACITY {
        SignalFacts(ch + [order[0]], signaled + {order[0]}, order[1..]);
      }
    }
  }

  lemma {:induction false} SignalCount(ch: seq<string>, signaled: set<string>, order: seq<string>)
    ensures var (ch', signaled') := Signal(ch, signaled, order);
            signaled <= signaled' && |ch'| - |ch| == |signaled' - signaled|
    decreases |order|
  {
    if order != [] {
      if order[0] in signaled {
        SignalCount(ch, signaled, order[1..]);
      } else if |ch| < CAPACITY {
        SignalCount(ch + [order[0]], signaled + {order[0]}, order[1..]);
        var (ch', signaled') := Signal(ch + [order[0]], signaled + {order[0]}, order[1..]);
        assert signaled' - signaled == (signaled' - (signaled + {order[0]})) + {order[0]};
      }
    }
  }

  /** A delivery list grows without changing what was delivered last for other keys. */
  lemma LastDeliveredGrows(delivered: seq<Delivery>, d: Delivery, sent: seq<string>, key: string)
    ensures LastDelivered(delivered + [d], sent, key) ==
            if Carries(d, sent, key) then d.origin else LastDelivered(delivered, sent, key)
  {
    assert (delivered + [d])[..|delivered|] == delivered;
  }

  lemma {:induction false} LaterSendsDoNotMatter(delivered: seq<Delivery>, sent: seq<string>, msg: string, key: string)
    requires forall d :: d in delivered && d.Keyed? ==> d.origin < |sent|
    ensures LastDelivered(delivered, sent + [msg], key) == LastDelivered(delivered, sent, key)
    ensures LastDelivered(delivered, sent, key) < |sent|
  {
    if delivered != [] {
      assert delivered[|delivered| - 1] in delivered;
      LaterSendsDoNotMatter(delivered[..|delivered| - 1], sent, msg, key);
    }
  }

  lemma {:induction false} DeliveredIsBounded(delivered: seq<Delivery>, sent: seq<string>, key: string, i: nat)
    requires i < |delivered| && Carries(delivered[i], sent, key)
    requires Increasing(delivered, sent, key)
    ensures delivered[i].origin <= LastDelivered(delivered, sent, key)
  {
    var n := |delivered| - 1;
    if i < n && !Carries(delivered[n], sent, key) {
      DeliveredIsBounded(delivered[..n], sent, key, i);
    }
  }

  lemma SendKeylessKeepsInv(s: State, msg: string)
    requires Inv(s) && Enabled(s, Send(msg)) && EventKey(msg) == ""
    ensures Inv(Apply(s, Send(msg)))
  {
    KeylessMeetsKeyOnlyAtBareNames(msg);
    var s' := Apply(s, Send(msg));
    forall key | IsKey(key) ensures Tokens(s', key) == Tokens(s, key) {}
  }

  lemma SendKeepsSignals(s: State, s': State, msg: string)
    requires |s.ch| <= CAPACITY && SignalledOnce(s) && NeverParkedOnWork(s)
    requires EventKey(msg) != "" && Enabled(s, Send(msg)) && s' == Apply(s, Send(msg))
    ensures |s'.ch| <= CAPACITY && SignalledOnce(s') && NeverParkedOnWork(s')
  {
    SignalFacts(s.ch, s.signaled, [EventKey(msg)]);
  }

  lemma SendKeepsHistory(s: State, s': State, msg: string)
    requires InOrder(s) && NothingLost(s) && PendingIsNewest(s)
    requires EventKey(msg) != "" && Enabled(s, Send(msg)) && s' == Apply(s, Send(msg))
    ensures NothingLost(s') && PendingIsNewest(s')
  {
    var key := EventKey(msg);
    assert s'.sent[..|s.sent|] == s.sent;
    forall k ensures LastDelivered(s'.delivered, s'.sent, k) == LastDelivered(s.delivered, s.sent, k)
    ensures LastDelivered(s.delivered, s.sent, k) < |s.sent|
    ensures LastSent(s'.sent, k) == if k == key then |s.sent| else LastSent(s.sent, k)
    {
      LaterSendsDoNotMatter(s.delivered, s.sent, msg, k);
    }
  }

  lemma SendKeepsInv(s: State, msg: string)
    requires Inv(s) && Enabled(s, Send(msg))
    ensures Inv(Apply(s, Send(msg)))
  {
    if EventKey(msg) == "" {
      SendKeylessKeepsInv(s, msg);
    } else {
      var s' := Apply(s, Send(msg));
      SendKeepsSignals(s, s', msg);
      SendKeepsHistory(s, s', msg);
      SendKeepsOrder(s, s', msg);
    }
  }

  lemma SendKeepsOrder(s: State, s': State, msg: string)
    requires InOrder(s) && s'.delivered == s.delivered && s'.sent == s.sent + [msg]
    ensures InOrder(s')
  {
    forall key ensures Increasing(s'.delivered, s'.sent, key) {
      forall i | 0 <= i < |s.delivered| && Carries(s'.delivered[i], s'.sent, key)
        ensures Carries(s.delivered[i], s.sent, key)
      {
        assert s.delivered[i] in s.delivered;
      }
      assert Increasing(s.delivered, s.sent, key);
    }
  }

  lemma DequeueKeepsInv(s: State)
    requires Inv(s) && Enabled(s, Dequeue)
    ensures Inv(Apply(s, Dequeue))
  {
    assert s.ch == [s.ch[0]] + s.ch[1..];
  }

  lemma ResolveDelivers(s: State, k: string)
    requires Enabled(s, Resolve)
    ensures var s' := Apply(s, Resolve);
            && |s'.delivered| == |s.delivered| + 1 && s'.delivered[..|s.delivered|] == s.delivered
            && LastDelivered(s'.delivered, s'.sent, k) ==
               if Carries(s'.delivered[|s.delivered|], s.sent, k) then s'.delivered[|s.delivered|].origin
               else LastDelivered(s.delivered, s.sent, k)
  {
    LastDeliveredGrows(s.delivered, Apply(s, Resolve).delivered[|s.delivered|], s.sent, k);
  }

  lemma ResolveKeepsOrder(s: State)
    requires Inv(s) && Enabled(s, Resolve)
    ensures InOrder(Apply(s, Resolve))
  {
    var token := s.reader.token;
    var s' := Apply(s, Resolve);
    var d := s'.delivered[|s.delivered|];
    forall key ensures Increasing(s'.delivered, s'.sent, key) {
      assert Increasing(s.delivered, s.sent, key);
      if Carries(d, s.sent, key) {
        assert key == token;
        forall i | 0 <= i < |s.delivered| && Carries(s.delivered[i], s.sent, key)
          ensures s.delivered[i].origin < d.origin
        {
          DeliveredIsBounded(s.delivered, s.sent, key, i);
        }
      }
    }
  }

  lemma ResolveKeepsSignals(s: State)
    requires |s.ch| <= CAPACITY && SignalledOnce(s) && Enabled(s, Resolve)
    ensures |Apply(s, Resolve).ch| <= CAPACITY && SignalledOnce(Apply(s, Resolve))
            && NeverParkedOnWork(Apply(s, Resolve))
  {}

  lemma ResolveKeepsHistory(s: State)
    requires Inv(s) && Enabled(s, Resolve)
    ensures NothingLost(Apply(s, Resolve)) && PendingIsNewest(Apply(s, Resolve))
  {
    var s' := Apply(s, Resolve);
    forall k ensures LastDelivered(s'.delivered, s'.sent, k) ==
                     if Carries(s'.delivered[|s.delivered|], s.sent, k) then s'.delivered[|s.delivered|].origin
                     else LastDelivered(s.delivered, s.sent, k)
    {
      ResolveDelivers(s, k);
    }
  }

  lemma ResolveKeepsInv(s: State)
    requires Inv(s) && Enabled(s, Resolve)
    ensures Inv(Apply(s, Resolve))
  {
    ResolveKeepsSignals(s);
    ResolveKeepsHistory(s);
    ResolveKeepsOrder(s);
  }

  lemma FlushKeepsInv(s: State, order: seq<string>)
    requires Inv(s) && Enabled(s, Flush(order))
    ensures Inv(Apply(s, Flush(order)))
  {
    SignalFacts(s.ch, s.signaled, order);
  }

  lemma StepKeepsInv(s: State, step: Step)
    requires Inv(s) && Enabled(s, step)
    ensures Inv(Apply(s, step))
  {
    match step
    case Send(msg) => SendKeepsInv(s, msg);
    case Dequeue => DequeueKeepsInv(s);
    case Resolve => ResolveKeepsInv(s);
    case Flush(order) => FlushKeepsInv(s, order);
  }

  lemma {:induction false} RunKeepsInv(s: State, steps: seq<Step>, end: State)
    requires Inv(s) && Run(s, steps, end)
    ensures Inv(end)
    decreases steps
  {
    if steps != [] {
      StepKeepsInv(s, steps[0]);
      RunKeepsInv(Apply(s, steps[0]), steps[1..], end);
    }
  }

  /** Some interleaving of broadcasts with the reader leads from an empty mailbox to here. */
  ghost predicate Reachable(s: State) {
    exists steps :: Run(Empty, steps, s)
  }

  /** Main result: the mailbox keeps every guarantee in every interleaving of broadcasts with the reader. */
  lemma EveryRunIsSafe(s: State)
    requires Reachable(s)
    ensures |s.ch| <= CAPACITY && SignalledOnce(s) && NeverParkedOnWork(s)
    ensures InOrder(s) && NothingLost(s) && PendingIsNewest(s)
  {
    var steps :| Run(Empty, steps, s);
    RunKeepsInv(Empty, steps, s);
  }

  lemma {:induction false} RunThenStep(s: State, steps: seq<Step>, mid: State, step: Step)
    requires Run(s, steps, mid) && Enabled(mid, step)
    ensures Run(s, steps + [step], Apply(mid, step))
    decreases steps
  {
    if steps == [] {
      assert [step][1..] == [];
    } else {
      RunThenStep(Apply(s, steps[0]), steps[1..], mid, step);
      assert (steps + [step])[1..] == steps[1..] + [step];
    }
  }

  lemma ReachableStep(s: State, step: Step)
    requires Reachable(s) && Enabled(s, step)
    ensures Reachable(Apply(s, step))
  {
    var steps :| Run(Empty, steps, s);
    RunThenStep(Empty, steps, s, step);
  }

  /** While the reader is at work, at most one place of the channel is free if a key is not signalled. */
  ghost predicate NearlyFull(s: State) {
    forall key :: key in s.pending && key !in s.signaled ==>
        |s.ch| >= if s.reader.Parked? then CAPACITY else CAPACITY - 1
  }

  lemma StepKeepsNearlyFull(s: State, step: Step)
    requires Inv(s) && NearlyFull(s) && Enabled(s, step)
    ensures NearlyFull(Apply(s, step))
  {
    if step.Flush? { SignalFacts(s.ch, s.signaled, step.order); }
    if step.Send? { SignalOne(s.ch, s.signaled, EventKey(step.msg)); }
  }

  lemma {:induction false} RunKeepsNearlyFull(s: State, steps: seq<Step>, end: State)
    requires Inv(s) && NearlyFull(s) && Run(s, steps, end)
    ensures NearlyFull(end)
    decreases steps
  {
    if steps != [] {
      StepKeepsInv(s, steps[0]);
      StepKeepsNearlyFull(s, steps[0]);
      RunKeepsNearlyFull(Apply(s, steps[0]), steps[1..], end);
    }
  }

  /** One of a flush's own sends, or a broadcast without key: such a broadcast does not take the
      mailbox's mutex, so it can fall anywhere between the sends of a flush. */
  datatype Event = Signalling(key: string) | Broadcast(msg: string)

  function KeysOf(events: seq<Event>): seq<string> {
    if events == [] then []
    else if events[0].Signalling? then [events[0].key] + KeysOf(events[1..])
    else KeysOf(events[1..])
  }

  function MessagesOf(events: seq<Event>): seq<string> {
    if events == [] then []
    else if events[0].Broadcast? then [events[0].msg] + MessagesOf(events[1..])
    else MessagesOf(events[1..])
  }

  function Interleaved(ch: seq<string>, signaled: set<string>, events: seq<Event>): (seq<string>, set<string>)
    decreases |events|
  {
    if events == [] then (ch, signaled)
    else
      match events[0]
      case Signalling(key) =>
        var (ch', signaled') := Signal(ch, signaled, [key]);
        Interleaved(ch', signaled', events[1..])
      case Broadcast(msg) => Interleaved(Push(ch, msg), signaled, events[1..])
  }

  function PushAll(ch: seq<string>, msgs: seq<string>): seq<string>
    decreases |msgs|
  {
    if msgs == [] then ch else PushAll(Push(ch, msgs[0]), msgs[1..])
  }

  lemma {:induction false} NothingFits(ch: seq<string>, signaled: set<string>, events: seq<Event>)
    requires |ch| == CAPACITY
    ensures Interleaved(ch, signaled, events) == (ch, signaled)
    ensures PushAll(ch, MessagesOf(events)) == ch && Signal(ch, signaled, KeysOf(events)) == (ch, signaled)
    decreases |events|
  {
    SignalWhenFull(ch, signaled, KeysOf(events));
    if events != [] {
      if events[0].Signalling? { SignalWhenFull(ch, signaled, [events[0].key]); }
      NothingFits(ch, signaled, events[1..]);
      if events[0].Broadcast? { assert MessagesOf(events)[1..] == MessagesOf(events[1..]); }
    }
  }

  lemma {:induction false} OnlyBroadcastsCount(ch: seq<string>, signaled: set<string>, events: seq<Event>)
    requires forall i :: 0 <= i < |events| && events[i].Signalling? ==> events[i].key in signaled
    ensures Interleaved(ch, signaled, events) == (PushAll(ch, MessagesOf(events)), signaled)
    ensures forall other :: Signal(other, signaled, KeysOf(events)) == (other, signaled)
    decreases |events|
  {
    if events != [] {
      match events[0]
      case Signalling(key) =>
        SignalOne(ch, signaled, key);
        OnlyBroadcastsCount(ch, signaled, events[1..]);
        assert KeysOf(events)[1..] == KeysOf(events[1..]);
      case Broadcast(msg) =>
        OnlyBroadcastsCount(Push(ch, msg), signaled, events[1..]);
        assert MessagesOf(events)[1..] == MessagesOf(events[1..]);
    }
  }

  /** With at most one place free, or nothing to signal, the sends of a flush and the broadcasts between
      them leave what all of one kind and then all of the other leave. */
  lemma {:induction false} InterleavedIsWhole(ch: seq<string>, signaled: set<string>, events: seq<Event>)
    requires |ch| <= CAPACITY
    requires || |ch| >= CAPACITY - 1
             || forall i :: 0 <= i < |events| && events[i].Signalling? ==> events[i].key in signaled
    ensures var (flushed, all) := Signal(ch, signaled, KeysOf(events));
            || Interleaved(ch, signaled, events) == (PushAll(flushed, MessagesOf(events)), all)
            || Interleaved(ch, signaled, events) == Signal(PushAll(ch, MessagesOf(events)), signaled, KeysOf(events))
    decreases |events|
  {
    if |ch| == CAPACITY {
      NothingFits(ch, signaled, events);
    } else if forall i :: 0 <= i < |events| && events[i].Signalling? ==> events[i].key in signaled {
      OnlyBroadcastsCount(ch, signaled, events);
    } else {
      match events[0]
      case Signalling(key) =>
        SignalOne(ch, signaled, key);
        assert KeysOf(events)[1..] == KeysOf(events[1..]) && MessagesOf(events) == MessagesOf(events[1..]);
        if key in signaled {
          InterleavedIsWhole(ch, signaled, events[1..]);
        } else {
          NothingFits(ch + [key], signaled + {key}, events[1..]);
        }
      case Broadcast(msg) =>
        assert MessagesOf(events)[1..] == MessagesOf(events[1..]) && KeysOf(events) == KeysOf(events[1..]);
        NothingFits(ch + [msg], signaled, events[1..]);
    }
  }

  function Broadcasts(s: State, msgs: seq<string>): State
    decreases |msgs|
  {
    if msgs == [] then s else Broadcasts(ApplySend(s, msgs[0]), msgs[1..])
  }

  predicate Keyless(msgs: seq<string>) {
    forall i :: 0 <= i < |msgs| ==> EventKey(msgs[i]) == ""
  }

  lemma {:induction false} BroadcastsPush(s: State, msgs: seq<string>)
    requires Keyless(msgs)
    ensures Broadcasts(s, msgs) == s.(ch := PushAll(s.ch, msgs))
    decreases |msgs|
  {
    if msgs != [] {
      assert EventKey(msgs[0]) == "";
      BroadcastsPush(ApplySend(s, msgs[0]), msgs[1..]);
    }
  }

  /** What a flush leaves when broadcasts fall between its sends. */
  function SplitFlush(s: State, events: seq<Event>): State {
    var (ch, signaled) := Interleaved(s.ch, s.signaled, events);
    s.(ch := ch, signaled := signaled, reader := Parked)
  }

  /** They make no difference: the flush may as well be one step, before or after all those broadcasts. */
  lemma FlushMayBeOneStep(s: State, events: seq<Event>)
    requires Reachable(s) && Enabled(s, Flush(KeysOf(events))) && Keyless(MessagesOf(events))
    ensures Enabled(Broadcasts(s, MessagesOf(events)), Flush(KeysOf(events)))
    ensures SplitFlush(s, events) == Broadcasts(Apply(s, Flush(KeysOf(events))), MessagesOf(events))
         || SplitFlush(s, events) == Apply(Broadcasts(s, MessagesOf(events)), Flush(KeysOf(events)))
  {
    var steps :| Run(Empty, steps, s);
    RunKeepsInv(Empty, steps, s);
    RunKeepsNearlyFull(Empty, steps, s);
    forall i | 0 <= i < |events| && events[i].Signalling? && events[i].key !in s.signaled
      ensures |s.ch| >= CAPACITY - 1
    {
      SignalsItsKey(events, i);
      assert events[i].key in s.pending;
    }
    InterleavedIsWhole(s.ch, s.signaled, events);
    BroadcastsPush(s, MessagesOf(events));
    BroadcastsPush(Apply(s, Flush(KeysOf(events))), MessagesOf(events));
  }

  lemma {:induction false} SignalsItsKey(events: seq<Event>, i: nat)
    requires i < |events| && events[i].Signalling?
    ensures events[i].key in KeysOf(events)
    decreases |events|
  {
    if i > 0 { SignalsItsKey(events[1..], i - 1); }
  }

  /** When a parked reader finds the channel empty, nothing is pending and, for every key, the last
      payload delivered is the last one broadcast. */
  lemma DrainedMeansUpToDate(s: State)
    requires Reachable(s) && s.reader.Parked? && s.ch == []
    ensures s.pending == map[]
    ensures forall key :: IsKey(key) ==> LastDelivered(s.delivered, s.sent, key) == LastSent(s.sent, key)
  {
    EveryRunIsSafe(s);
    forall key | IsKey(key) ensures key !in s.signaled { assert Tokens(s, key) == 0; }
  }

  /** Exactly the bare names break the accounting, and only while the channel has room: their token is
      then taken for one of the key's. */
  lemma OnlyBareNamesBreakSignalling(s: State, msg: string)
    requires Inv(s)
    ensures SignalledOnce(ApplySend(s, msg)) <==> msg !in BARE_NAMES || |s.ch| == CAPACITY
  {
    if msg !in BARE_NAMES {
      SendKeepsInv(s, msg);
    } else {
      BareNamesHaveNoKey(msg);
      if |s.ch| < CAPACITY { BareNameBreaks(s, msg); }
    }
  }

  lemma BareNamesHaveNoKey(msg: string)
    requires msg in BARE_NAMES
    ensures EventKey(msg) == ""
  {
    assert |msg| >= 12 && (msg[0] == 'w' || msg[0] == 'c');
    Differ("reload:", msg, 0);
    Differ("event: workflows-updated\n", msg, 0);
    Differ("event: tasks-updated\n", msg, 0);
    Differ("event: chat-preview\n", msg, 0);
    Differ("event: worker-status\n", msg, 0);
  }

  lemma BareNameBreaks(s: State, msg: string)
    requires SignalledOnce(s) && msg in BARE_NAMES && EventKey(msg) == "" && |s.ch| < CAPACITY
    ensures !SignalledOnce(ApplySend(s, msg))
  {
    BareNamesAreKeys();
    assert Tokens(ApplySend(s, msg), msg) == Tokens(s, msg) + 1;
  }

  /** Work left for a reader that nobody interrupts. */
  ghost function Backlog(s: State): nat {
    |s.ch| + |s.pending.Keys - s.signaled|
  }

  // ---------------------------------------------------------------- the mailbox itself

  class SseClient {
    var ch: seq<string>
    var pending: map<string, string>
    var signaled: set<string>
    ghost var reader: Reader
    ghost var sent: seq<string>
    ghost var stamps: map<string, nat>
    ghost var delivered: seq<Delivery>

    ghost function Abs(): State
      reads this
    {
      State(ch, pending, signaled, reader, sent, stamps, delivered)
    }

    constructor ()
      ensures Abs() == Empty
    {
      ch, pending, signaled := [], map[], {};
      reader, sent, stamps, delivered := Parked, [], map[], [];
    }

    method Send(key: string, msg: string)
      requires key == EventKey(msg)
      modifies this
      ensures Abs() == ApplySend(old(Abs()), msg)
    {
      SignalOne(ch, signaled, key);
      if key == "" {
        if |ch| < CAPACITY {
          ch := ch + [msg];
        }
        return;
      }
      pending := pending[key := msg];
      if key !in signaled {
        if |ch| < CAPACITY {
          ch := ch + [key];
          signaled := signaled + {key};
        }
      }
      stamps, sent := stamps[key := |sent|], sent + [msg];
    }

    /** The receive at the top of the reader loop, when a token is available. */
    method Dequeue() returns (token: string)
      requires Enabled(Abs(), Step.Dequeue)
      modifies this`ch, this`reader
      ensures Abs() == Apply(old(Abs()), Step.Dequeue) && reader == InHand(token)
    {
      token, ch := ch[0], ch[1..];
      reader := InHand(token);
    }

    /** The first critical section of resolveToken: turn a token into the newest payload. */
    method Take(token: string) returns (msg: string)
      requires reader == InHand(token) && Enabled(Abs(), Step.Resolve)
      modifies this
      ensures Abs() == Apply(old(Abs()), Step.Resolve)
      ensures msg == delivered[|delivered| - 1].payload
    {
      if token in pending {
        msg := pending[token];
        delivered := delivered + [Keyed(msg, stamps[token])];
        pending, signaled, stamps := pending - {token}, signaled - {token}, stamps - {token};
      } else {
        msg := token;
        delivered := delivered + [Plain(msg)];
      }
      reader := Owing;
    }

    /** Retry the keys that found the channel full, in whatever order the table is iterated. */
    method FlushPending() returns (ghost order: seq<string>)
      requires |ch| <= CAPACITY && reader.Owing?
      modifies this`ch, this`signaled, this`reader
      ensures Enabled(old(Abs()), Step.Flush(order))
      ensures Abs() == Apply(old(Abs()), Step.Flush(order))
    {
      ghost var before := Abs();
      order := [];
      var left := pending.Keys;
      var full := false;
      while left != {} && !full
        invariant left <= pending.Keys && Enumerates(order, pending.Keys - left)
        invariant (ch, signaled) == Signal(before.ch, before.signaled, order)
        invariant full ==> |ch| >= CAPACITY
        decreases left, !full
      {
        var key :| key in left;
        SignalAppend(before.ch, before.signaled, order, [key]);
        SignalOne(ch, signaled, key);
        order, left := order + [key], left - {key};
        if key !in signaled {
          if |ch| < CAPACITY {
            ch := ch + [key];
            signaled := signaled + {key};
          } else {
            full := true;
          }
        }
      }
      ghost var tail := Listing(left);
      SignalAppend(before.ch, before.signaled, order, tail);
      if full { SignalWhenFull(ch, signaled, tail); }
      EnumeratesAppend(order, pending.Keys - left, tail, left);
      assert pending.Keys == (pending.Keys - left) + left;
      order := order + tail;
      reader := Parked;
    }

    /** One round of the reader loop: take a token, resolve it, retry, hand over the frame. */
    method Round() returns (msg: string)
      requires Reachable(Abs()) && reader.Parked? && ch != []
      modifies this
      ensures Reachable(Abs()) && reader.Parked? && sent == old(sent)
      ensures Backlog(Abs()) == old(Backlog(Abs())) - 1
      ensures exists d: Delivery :: delivered == old(delivered) + [d] && d.payload == msg
    {
      ReachableStep(Abs(), Step.Dequeue);
      var token := Dequeue();
      msg := Deliver(token);
      ghost var s := Abs();
      ghost var order := FlushPending();
      FlushKeepsBacklog(s, order);
      ReachableStep(s, Step.Flush(order));
    }

    /** The middle of a round: the token in hand becomes a frame. */
    method Deliver(token: string) returns (msg: string)
      requires Reachable(Abs()) && reader == InHand(token)
      modifies this
      ensures Reachable(Abs()) && reader.Owing? && sent == old(sent) && |ch| <= CAPACITY
      ensures Backlog(Abs()) == old(Backlog(Abs()))
      ensures exists d: Delivery :: delivered == old(delivered) + [d] && d.payload == msg
    {
      TokenIsSignalled(Abs());
      ResolveKeepsBacklog(Abs());
      ReachableStep(Abs(), Step.Resolve);
      assert |ch| <= CAPACITY by { EveryRunIsSafe(Abs()); }
      msg := Take(token);
      assert delivered == old(delivered) + [delivered[|old(delivered)|]];
    }

    /** The reader loop with no broadcast interfering: it delivers exactly its backlog, empties the
        mailbox, and leaves the last frame of every key equal to the last broadcast for that key. */
    method Drain() returns (frames: seq<string>)
      requires Reachable(Abs()) && reader.Parked?
      modifies this
      ensures Reachable(Abs()) && ch == [] && pending == map[] && sent == old(sent)
      ensures forall key :: IsKey(key) ==> LastDelivered(delivered, sent, key) == LastSent(sent, key)
      ensures |frames| == old(Backlog(Abs()))
      ensures exists added :: delivered == old(delivered) + added && Frames(added) == frames
    {
      frames := [];
      ghost var added: seq<Delivery> := [];
      while ch != []
        invariant Reachable(Abs()) && reader.Parked? && sent == old(sent)
        invariant Backlog(Abs()) + |frames| == old(Backlog(Abs()))
        invariant delivered == old(delivered) + added && Frames(added) == frames
        decreases Backlog(Abs())
      {
        ghost var before := delivered;
        var msg := Round();
        ghost var d: Delivery :| delivered == before + [d] && d.payload == msg;
        FramesGrow(added, d);
        OneMore(old(delivered), added, d);
        added, frames := added + [d], frames + [msg];
      }
      DrainedMeansUpToDate(Abs());
      assert Backlog(Abs()) == 0;
    }
  }

  /** What the stream sees of a list of deliveries. */
  function Frames(ds: seq<Delivery>): seq<string> {
    seq(|ds|, i requires 0 <= i < |ds| => ds[i].payload)
  }

  lemma OneMore(before: seq<Delivery>, added: seq<Delivery>, d: Delivery)
    ensures before + added + [d] == before + (added + [d])
  {}

  lemma FramesGrow(ds: seq<Delivery>, d: Delivery)
    ensures Frames(ds + [d]) == Frames(ds) + [d.payload]
  {}

  ghost function Listing(keys: set<string>): (order: seq<string>)
    ensures Enumerates(order, keys)
    decreases |keys|
  {
    if keys == {} then []
    else
      var k :| k in keys;
      var rest := Listing(keys - {k});
      assert forall x :: x in keys <==> x == k || x in keys - {k};
      [k] + rest
  }

  lemma EnumeratesAppend(first: seq<string>, a: set<string>, second: seq<string>, b: set<string>)
    requires Enumerates(first, a) && Enumerates(second, b) && a !! b
    ensures Enumerates(first + second, a + b)
  {
    forall i, j | 0 <= i < j < |first + second| ensures (first + second)[i] != (first + second)[j] {
      if i < |first| <= j { assert first[i] in a && second[j - |first|] in b; }
    }
  }

  /** Resolving leaves the backlog alone, because the key it clears was signalled ... */
  lemma ResolveKeepsBacklog(s: State)
    requires Enabled(s, Resolve) && (s.reader.token in s.pending ==> s.reader.token in s.signaled)
    ensures Backlog(Apply(s, Resolve)) == Backlog(s)
  {
    var s' := Apply(s, Resolve);
    assert s'.pending.Keys - s'.signaled == s.pending.Keys - s.signaled;
  }

  lemma TokenIsSignalled(s: State)
    requires Reachable(s) && s.reader.InHand?
    ensures Enabled(s, Resolve)
    ensures s.reader.token in s.pending ==> s.reader.token in s.signaled
  {
    EveryRunIsSafe(s);
    var token := s.reader.token;
    if token in s.pending { assert IsKey(token) && Tokens(s, token) >= 1; }
  }

  lemma CountRemaining(all: set<string>, before: set<string>, after: set<string>)
    requires before <= after && after - before <= all
    ensures |all - before| == |all - after| + |after - before|
  {
    assert all - before == (all - after) + (after - before);
  }

  /** ... and flushing turns unsignalled keys into as many tokens. */
  lemma FlushKeepsBacklog(s: State, order: seq<string>)
    requires |s.ch| <= CAPACITY && Enabled(s, Flush(order))
    ensures Backlog(Apply(s, Flush(order))) == Backlog(s)
  {
    var after := Signal(s.ch, s.signaled, order).1;
    assert s.signaled <= after && after - s.signaled <= s.pending.Keys
           && |Signal(s.ch, s.signaled, order).0| - |s.ch| == |after - s.signaled| by
    {
      SignalFacts(s.ch, s.signaled, order);
      SignalCount(s.ch, s.signaled, order);
    }
    CountRemaining(s.pending.Keys, s.signaled, after);
  }
}
