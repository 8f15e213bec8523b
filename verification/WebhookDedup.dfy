/** Webhook deliveries in front of ApplyProviderUpdate, as a transition system.

    A delivery is checked against Redis (SETNX), the key gets its expiry (EXPIRE), the event is forwarded, and
    the delivery is answered; these are separate steps, and those of other deliveries and of the orchestrator
    come in between. A delivery that is never stepped again has crashed. */
module WebhookDedup {
  import opened Wrappers
  import opened PayoutDomain
  import opened PayoutProtocol

  type DeliveryId = nat
  type Time = nat // milliseconds

  /** `uuid` is what the UUID parser makes of the external id. */
  datatype ProviderEvent = ProviderEvent(id: string, externalId: string, uuid: Option<PayoutId>, status: string)

  datatype Phase =
    | Admitted(event: ProviderEvent)              // SETNX set the key: before EXPIRE
    | Marked(event: ProviderEvent)                // before the RPC
    | Awaiting(event: ProviderEvent, call: CallId) // the RPC has begun
    | Replied(status: int)

  datatype Item =
    | Check(d: DeliveryId, event: ProviderEvent, at: Time, fate: Fate)
    | Expire(d: DeliveryId, at: Time, fate: Fate)
    | Forward(d: DeliveryId, call: CallId, at: Time)
    | Reply(d: DeliveryId, reached: bool)
    | Act(act: Action) // any step of the orchestrator

  datatype Stamp = Stamp(id: string, at: Time)

  datatype Rpc = Rpc(event: ProviderEvent, call: CallId)

  /** `seen` gives each key's expiry, if it has one. `admitted`, `forwards`, `sent`, the time of each delivery's
      forward, and `rpcs`, what was forwarded by which call, record what has happened. */
  datatype Hook = Hook(
    seen: map<string, Option<int>>,
    phases: map<DeliveryId, Phase>,
    sys: Sys,
    admitted: map<DeliveryId, Stamp>,
    forwards: multiset<DeliveryId>,
    sent: map<DeliveryId, Time>,
    rpcs: map<DeliveryId, Rpc>)

  const IDLE := Hook(map[], map[], INIT, map[], multiset{}, map[], map[])

  predicate Live(seen: map<string, Option<int>>, id: string, at: Time) {
    id in seen && (seen[id].Some? ==> at < seen[id].value)
  }

  /** SETNX sets the key when it is not there. A lost reply is an error, and yet the key is set. */
  function SeenAfterCheck(seen: map<string, Option<int>>, id: string, at: Time, fate: Fate): map<string, Option<int>> {
    if fate.Dropped? || Live(seen, id, at) then seen else seen[id := None]
  }

  /** The handler's reaction: an error, a duplicate, or a new event. */
  function PhaseAfterCheck(seen: map<string, Option<int>>, event: ProviderEvent, at: Time, fate: Fate): Phase {
    if !fate.Acked? then Replied(500)
    else if Live(seen, event.id, at) then Replied(200)
    else Admitted(event)
  }

  function DoCheck(h: Hook, d: DeliveryId, event: ProviderEvent, at: Time, fate: Fate): Hook {
    var phase := PhaseAfterCheck(h.seen, event, at, fate);
    h.(seen := SeenAfterCheck(h.seen, event.id, at, fate),
       phases := h.phases[d := phase],
       admitted := if phase.Admitted? then h.admitted[d := Stamp(event.id, at)] else h.admitted)
  }

  /** EXPIRE, whose reply nobody looks at. A time to live that is not positive deletes the key. */
  function DoExpire(h: Hook, d: DeliveryId, event: ProviderEvent, at: Time, fate: Fate, ttl: int): Hook {
    h.(seen := if !fate.Dropped? && Live(h.seen, event.id, at) then h.seen[event.id := Some(at + ttl)] else h.seen,
       phases := h.phases[d := Marked(event)])
  }

  function UpdateRequest(event: ProviderEvent): Request {
    Apply(event.externalId, event.uuid, event.status)
  }

  ghost function DoForward(h: Hook, d: DeliveryId, event: ProviderEvent, c: CallId, at: Time): Hook {
    h.(sys := Next(h.sys, Begin(c, UpdateRequest(event))),
       phases := h.phases[d := Awaiting(event, c)],
       forwards := h.forwards + multiset{d},
       sent := h.sent[d := at],
       rpcs := h.rpcs[d := Rpc(event, c)])
  }

  // The RPC's answer, or a transport error before or after it was sent.
  predicate CanReply(h: Hook, d: DeliveryId, reached: bool) {
    && d in h.phases
    && (if reached then h.phases[d].Awaiting? && h.phases[d].call in h.sys.calls &&
      h.sys.calls[h.phases[d].call].at.Answered?
        else h.phases[d].Awaiting? || h.phases[d].Marked?)
  }

  function DoReply(h: Hook, d: DeliveryId, reached: bool): Hook
    requires CanReply(h, d, reached)
  {
    h.(phases := h.phases[d := Replied(if reached && h.sys.calls[h.phases[d].call].at.resp.Success? then 200 else 500)])
  }

  ghost function NextHook(h: Hook, item: Item, ttl: int): Hook {
    match item
    case Check(d, event, at, fate) => if d in h.phases then h else DoCheck(h, d, event, at, fate)
    case Expire(d, at, fate) =>
      if d in h.phases && h.phases[d].Admitted? then DoExpire(h, d, h.phases[d].event, at, fate, ttl) else h
    case Forward(d, c, at) =>
      if d in h.phases && h.phases[d].Marked? && c !in h.sys.calls then DoForward(h, d, h.phases[d].event, c, at) else h
    case Reply(d, reached) => if CanReply(h, d, reached) then DoReply(h, d, reached) else h
    case Act(a) => h.(sys := Next(h.sys, a))
  }

  ghost function Run(items: seq<Item>, ttl: int): Hook {
    if items == [] then IDLE else NextHook(Run(items[..|items| - 1], ttl), items[|items| - 1], ttl)
  }

  lemma RunAppend(items: seq<Item>, item: Item, ttl: int)
    ensures Run(items + [item], ttl) == NextHook(Run(items, ttl), item, ttl)
  {
    assert (items + [item])[..|items|] == items;
  }

  // ---------- the clock

  predicate AsksRedis(item: Item) {
    item.Check? || item.Expire?
  }

  predicate Timed(item: Item) {
    AsksRedis(item) || item.Forward?
  }

  function Clock(items: seq<Item>): Time {
    if items == [] then 0
    else var last := items[|items| - 1]; if Timed(last) then last.at else Clock(items[..|items| - 1])
  }

  /** Time does not run backwards. */
  predicate Clocked(items: seq<Item>) {
    items != [] ==>
      var (init, last) := (items[..|items| - 1], items[|items| - 1]);
      Clocked(init) && (Timed(last) ==> Clock(init) <= last.at)
  }

  lemma ClockedAppend(items: seq<Item>, item: Item)
    requires Clocked(items) && (Timed(item) ==> Clock(items) <= item.at)
    ensures Clocked(items + [item]) && Clock(items + [item]) == if Timed(item) then item.at else Clock(items)
  {
    assert (items + [item])[..|items|] == items;
  }

  // ---------- at most once

  // The key that stands for an admission is there until its time is over.
  predicate Held(seen: map<string, Option<int>>, stamp: Stamp, now: Time, ttl: int) {
    && stamp.at <= now
    && (now < stamp.at + ttl ==> stamp.id in seen && (seen[stamp.id].Some? ==> stamp.at + ttl <= seen[stamp.id].value))
  }

  predicate Apart(s: Stamp, s': Stamp, ttl: int) {
    s.id == s'.id ==> s.at + ttl <= s'.at || s'.at + ttl <= s.at
  }

  ghost predicate StampsInv(h: Hook, now: Time, ttl: int) {
    && (forall d :: d in h.admitted ==> Held(h.seen, h.admitted[d], now, ttl))
    && (forall d, d' :: d in h.admitted && d' in h.admitted && d != d' ==> Apart(h.admitted[d], h.admitted[d'], ttl))
    && (forall d :: d in h.sent && d in h.admitted ==> h.admitted[d].at <= h.sent[d])
  }

  predicate PhaseInv(h: Hook, d: DeliveryId) {
    && h.forwards[d] <= 1
    && (d in h.forwards ==> d in h.admitted)
    && (d in h.admitted ==> d in h.phases)
    && (d in h.phases && !h.phases[d].Replied? ==> d in h.admitted && h.admitted[d].id == h.phases[d].event.id)
    && (d in h.forwards ==> h.phases[d].Awaiting? || h.phases[d].Replied?)
    && (d in h.forwards <==> d in h.sent)
  }

  ghost predicate PhasesInv(h: Hook) {
    forall d :: PhaseInv(h, d)
  }

  lemma CheckKeepsPhase(h: Hook, item: Item, d: DeliveryId)
    requires item.Check? && item.d !in h.phases && PhaseInv(h, d)
    ensures PhaseInv(DoCheck(h, item.d, item.event, item.at, item.fate), d)
  {
    PhaseAfter(h, item);
    hide SeenAfterCheck, PhaseAfterCheck;
  }

  lemma NextKeepsPhase(h: Hook, item: Item, ttl: int, d: DeliveryId)
    requires PhaseInv(h, d)
    ensures PhaseInv(NextHook(h, item, ttl), d)
  {
    hide Next, DoCheck, Live;
    if item.Check? && item.d !in h.phases { CheckKeepsPhase(h, item, d); }
  }

  lemma NextKeepsPhases(h: Hook, item: Item, ttl: int)
    requires PhasesInv(h)
    ensures PhasesInv(NextHook(h, item, ttl))
  {
    hide NextHook, PhaseInv;
    forall d ensures PhaseInv(NextHook(h, item, ttl), d) {
      NextKeepsPhase(h, item, ttl, d);
    }
  }

  // While a key is held by an admission, SETNX does not admit its event again.
  lemma HeldThroughCheck(h: Hook, item: Item, d: DeliveryId, now: Time, ttl: int)
    requires item.Check? && now <= item.at && d in h.admitted && Held(h.seen, h.admitted[d], now, ttl)
    ensures Held(DoCheck(h, item.d, item.event, item.at, item.fate).seen, h.admitted[d], item.at, ttl)
    ensures !Live(h.seen, item.event.id, item.at) ==> Apart(h.admitted[d], Stamp(item.event.id, item.at), ttl)
  {
  }

  // What a check leaves of the admissions: they stay, with one more when it is acknowledged on a key not live.
  lemma CheckAdmits(h: Hook, item: Item)
    requires item.Check?
    ensures var h' := DoCheck(h, item.d, item.event, item.at, item.fate);
      && h'.sent == h.sent
      && (h'.admitted == h.admitted ||
          (!Live(h.seen, item.event.id, item.at) &&
           h'.admitted == h.admitted[item.d := Stamp(item.event.id, item.at)] &&
           h'.seen == h.seen[item.event.id := None]))
  {
    hide Live;
  }

  lemma CheckKeepsStamps(h: Hook, item: Item, now: Time, ttl: int)
    requires StampsInv(h, now, ttl) && item.Check? && now <= item.at && item.d !in h.admitted && item.d !in h.sent
    ensures StampsInv(DoCheck(h, item.d, item.event, item.at, item.fate), item.at, ttl)
  {
    hide DoCheck, Live, Apart;
    var h' := DoCheck(h, item.d, item.event, item.at, item.fate);
    CheckAdmits(h, item);
    forall d | d in h.admitted
      ensures Held(h'.seen, h.admitted[d], item.at, ttl)
      ensures !Live(h.seen, item.event.id, item.at) ==> Apart(h.admitted[d], Stamp(item.event.id, item.at), ttl)
      ensures !Live(h.seen, item.event.id, item.at) ==> Apart(Stamp(item.event.id, item.at), h.admitted[d], ttl)
    {
      HeldThroughCheck(h, item, d, now, ttl);
      ApartEitherWay(h.admitted[d], Stamp(item.event.id, item.at), ttl);
    }
  }

  lemma ApartEitherWay(s: Stamp, s': Stamp, ttl: int)
    ensures Apart(s, s', ttl) <==> Apart(s', s, ttl)
  {
  }

  lemma NextKeepsStamps(h: Hook, item: Item, now: Time, ttl: int)
    requires StampsInv(h, now, ttl) && PhasesInv(h)
    requires Timed(item) ==> now <= item.at
    ensures StampsInv(NextHook(h, item, ttl), if Timed(item) then item.at else now, ttl)
  {
    hide Next, DoCheck;
    if item.Check? && item.d !in h.phases {
      assert PhaseInv(h, item.d);
      CheckKeepsStamps(h, item, now, ttl);
    }
  }

  lemma {:induction false} RunKeepsStamps(items: seq<Item>, ttl: int)
    requires Clocked(items)
    ensures PhasesInv(Run(items, ttl)) && StampsInv(Run(items, ttl), Clock(items), ttl)
  {
    hide NextHook;
    if items == [] {
      assert forall d :: PhaseInv(IDLE, d);
    } else {
      var init, last := items[..|items| - 1], items[|items| - 1];
      RunKeepsStamps(init, ttl);
      NextKeepsPhases(Run(init, ttl), last, ttl);
      NextKeepsStamps(Run(init, ttl), last, Clock(init), ttl);
    }
  }

  /** A delivery is forwarded at most once, and any two forwarded deliveries of one event were checked at least
      the time to live apart. */
  lemma ForwardedOnce(items: seq<Item>, ttl: int, d: DeliveryId, d': DeliveryId)
    requires Clocked(items)
    ensures var h := Run(items, ttl);
      && h.forwards[d] <= 1
      && (d in h.forwards ==> d in h.admitted)
      && (d in h.forwards && d' in h.forwards && d != d' ==>
            d' in h.admitted && Apart(h.admitted[d], h.admitted[d'], ttl))
  {
    RunKeepsStamps(items, ttl);
    assert PhaseInv(Run(items, ttl), d) && PhaseInv(Run(items, ttl), d');
  }

  // ---------- what is forwarded and what is answered

  /** What a check is answered: 500 when Redis does not reply, 200 when the key was there, and otherwise the delivery is
      admitted with its event. */
  lemma CheckTells(h: Hook, item: Item, ttl: int)
    requires item.Check? && item.d !in h.phases
    ensures var h' := NextHook(h, item, ttl);
      var there := item.event.id in h.seen && (h.seen[item.event.id].Some? ==> item.at < h.seen[item.event.id].value);
      h'.phases == h.phases[item.d :=
        if item.fate.Acked? then if there then Replied(200) else Admitted(item.event) else Replied(500)]
  {
  }

  /** What a delivery is answered once its RPC has been: 200 when the RPC succeeded and its reply arrived, and 500 in
      every other case. */
  lemma ReplyTells(h: Hook, d: DeliveryId, resp: Response, reached: bool, ttl: int)
    requires d in h.phases && h.phases[d].Awaiting? && h.phases[d].call in h.sys.calls
    requires h.sys.calls[h.phases[d].call].at == Answered(resp)
    ensures NextHook(h, Reply(d, reached), ttl) ==
      h.(phases := h.phases[d := if reached && resp == Success then Replied(200) else Replied(500)])
  {
  }

  // The RPC of a delivery carries its event, and its success is what the delivery's 200 stands for.
  ghost predicate RpcInv(h: Hook, d: DeliveryId) {
    && (d in h.rpcs <==> d in h.sent)
    && (d in h.rpcs ==> RpcIs(h.sys, h.rpcs[d]))
    && (d in h.phases && h.phases[d].Awaiting? ==> d in h.rpcs && h.rpcs[d] == Rpc(h.phases[d].event, h.phases[d].call))
    && (d in h.admitted && d in h.phases && h.phases[d] == Replied(200) ==>
          d in h.rpcs && h.sys.calls[h.rpcs[d].call].at == Answered(Success))
    && (d in h.admitted ==> d in h.phases)
  }

  predicate RpcIs(sys: Sys, rpc: Rpc) {
    && rpc.call in sys.calls
    && sys.calls[rpc.call].req == Apply(rpc.event.externalId, rpc.event.uuid, rpc.event.status)
  }

  // Calls keep their requests, and their answers once they have them.
  lemma CallsKeep(s: Sys, a: Action, c: CallId)
    requires c in s.calls
    ensures c in Next(s, a).calls && Next(s, a).calls[c].req == s.calls[c].req
    ensures s.calls[c].at.Answered? ==> Next(s, a).calls[c].at == s.calls[c].at
  {
  }

  lemma ActKeepsRpc(h: Hook, a: Action, d: DeliveryId, ttl: int)
    requires RpcInv(h, d)
    ensures RpcInv(NextHook(h, Act(a), ttl), d)
  {
    hide Next;
    if d in h.rpcs { CallsKeep(h.sys, a, h.rpcs[d].call); }
  }

  lemma ForwardKeepsRpc(h: Hook, item: Item, d: DeliveryId, ttl: int)
    requires RpcInv(h, d) && item.Forward?
    ensures RpcInv(NextHook(h, item, ttl), d)
  {
    if item.d in h.phases && h.phases[item.d].Marked? && item.call !in h.sys.calls {
      var begin := Begin(item.call, UpdateRequest(h.phases[item.d].event));
      if d in h.rpcs { CallsKeep(h.sys, begin, h.rpcs[d].call); }
      Begins(h.sys, item.call, h.phases[item.d].event);
    }
    hide Next;
  }

  lemma Begins(s: Sys, c: CallId, event: ProviderEvent)
    requires c !in s.calls
    ensures RpcIs(Next(s, Begin(c, UpdateRequest(event))), Rpc(event, c))
  {
  }

  lemma CheckKeepsRpc(h: Hook, item: Item, d: DeliveryId)
    requires RpcInv(h, d) && item.Check? && item.d !in h.phases
    ensures RpcInv(DoCheck(h, item.d, item.event, item.at, item.fate), d)
  {
    PhaseAfter(h, item);
    hide SeenAfterCheck, PhaseAfterCheck, RpcIs;
  }

  lemma NextKeepsRpc(h: Hook, item: Item, d: DeliveryId, ttl: int)
    requires RpcInv(h, d)
    ensures RpcInv(NextHook(h, item, ttl), d)
  {
    hide Next, RpcIs, DoCheck, DoForward, Live;
    match item
    case Act(a) => ActKeepsRpc(h, a, d, ttl);
    case Forward(_, _, _) => ForwardKeepsRpc(h, item, d, ttl);
    case Check(_, _, _, _) => if item.d !in h.phases { CheckKeepsRpc(h, item, d); }
    case _ =>
  }

  lemma {:induction false} RunKeepsRpc(items: seq<Item>, d: DeliveryId, ttl: int)
    ensures RpcInv(Run(items, ttl), d)
  {
    hide NextHook;
    if items != [] {
      RunKeepsRpc(items[..|items| - 1], d, ttl);
      NextKeepsRpc(Run(items[..|items| - 1], ttl), items[|items| - 1], d, ttl);
    }
  }

  /** An admitted delivery that has been answered 200 has had its event applied: the provider update that was forwarded
      for it has been answered with success. */
  lemma AcknowledgedMeansApplied(items: seq<Item>, ttl: int, d: DeliveryId)
    requires d in Run(items, ttl).admitted && d in Run(items, ttl).phases && Run(items, ttl).phases[d] == Replied(200)
    ensures var h := Run(items, ttl);
      && d in h.rpcs && h.rpcs[d].call in h.sys.calls
      && h.sys.calls[h.rpcs[d].call].at == Answered(Success)
      && var event := h.rpcs[d].event;
         h.sys.calls[h.rpcs[d].call].req == Apply(event.externalId, event.uuid, event.status)
  {
    RunKeepsRpc(items, d, ttl);
    hide Run;
  }

  ghost predicate Received(items: seq<Item>, d: DeliveryId, event: ProviderEvent) {
    exists item :: item in items && item.Check? && item.d == d && item.event == event
  }

  // The event that a delivery holds is the one it was checked with.
  ghost predicate HoldsReceived(h: Hook, items: seq<Item>, d: DeliveryId) {
    && (d in h.phases && !h.phases[d].Replied? ==> Received(items, d, h.phases[d].event))
    && (d in h.rpcs ==> Received(items, d, h.rpcs[d].event))
  }

  lemma {:induction false} RunHoldsReceived(items: seq<Item>, d: DeliveryId, ttl: int)
    ensures HoldsReceived(Run(items, ttl), items, d)
  {
    hide NextHook;
    if items != [] {
      var init, last := items[..|items| - 1], items[|items| - 1];
      RunHoldsReceived(init, d, ttl);
      NextHoldsReceived(Run(init, ttl), init, last, d, ttl);
      assert items == init + [last];
    }
  }

  lemma ReceivedStays(init: seq<Item>, last: Item, d: DeliveryId, event: ProviderEvent)
    ensures Received(init, d, event) ==> Received(init + [last], d, event)
    ensures last.Check? ==> Received(init + [last], last.d, last.event)
  {
    assert last in init + [last];
    if Received(init, d, event) {
      var item :| item in init && item.Check? && item.d == d && item.event == event;
      assert item in init + [last];
    }
  }

  // What a step leaves of a delivery's event: the event it had, or the one that its check brings.
  lemma NextEvent(h: Hook, item: Item, d: DeliveryId, ttl: int)
    ensures var h' := NextHook(h, item, ttl);
      && (d in h'.phases && !h'.phases[d].Replied? ==>
            (d in h.phases && !h.phases[d].Replied? && h'.phases[d].event == h.phases[d].event) ||
            (item.Check? && item.d == d && h'.phases[d].event == item.event))
      && (d in h'.rpcs ==>
            (d in h.rpcs && h'.rpcs[d] == h.rpcs[d]) ||
            (d in h.phases && h.phases[d].Marked? && h'.rpcs[d].event == h.phases[d].event))
  {
    hide Next, SeenAfterCheck, PhaseAfterCheck;
    if item.Check? { PhaseAfter(h, item); }
  }

  lemma PhaseAfter(h: Hook, item: Item)
    requires item.Check?
    ensures var phase := PhaseAfterCheck(h.seen, item.event, item.at, item.fate);
      phase == Admitted(item.event) || phase in {Replied(200), Replied(500)}
  {
    hide Live;
  }

  lemma NextHoldsReceived(h: Hook, init: seq<Item>, last: Item, d: DeliveryId, ttl: int)
    requires HoldsReceived(h, init, d)
    ensures HoldsReceived(NextHook(h, last, ttl), init + [last], d)
  {
    hide NextHook, Received;
    NextEvent(h, last, d, ttl);
    if d in h.phases && !h.phases[d].Replied? { ReceivedStays(init, last, d, h.phases[d].event); }
    if d in h.rpcs { ReceivedStays(init, last, d, h.rpcs[d].event); }
    if last.Check? { ReceivedStays(init, last, d, last.event); }
  }

  /** What is forwarded for a delivery is the event it came with: its external id, what the UUID parser made of that,
      and its type as the status. */
  lemma ForwardsWhatWasReceived(items: seq<Item>, ttl: int, d: DeliveryId)
    requires d in Run(items, ttl).sent
    ensures var h := Run(items, ttl);
      exists item :: item in items && item.Check? && item.d == d && d in h.rpcs && h.rpcs[d].call in h.sys.calls &&
        h.sys.calls[h.rpcs[d].call].req == Apply(item.event.externalId, item.event.uuid, item.event.status)
  {
    RunKeepsRpc(items, d, ttl);
    RunHoldsReceived(items, d, ttl);
    hide Run;
  }

  // ---------- how far apart the forwards are

  /** The time from a delivery's check to its forward. */
  function Delay(h: Hook, d: DeliveryId): int
    requires d in h.sent && d in h.admitted
  {
    h.sent[d] - h.admitted[d].at
  }

  // d was checked before d', both for the same event, and both were forwarded.
  predicate Twice(h: Hook, d: DeliveryId, d': DeliveryId) {
    && d in h.sent && d in h.admitted && d' in h.sent && d' in h.admitted && d != d'
    && h.admitted[d].id == h.admitted[d'].id && h.admitted[d].at <= h.admitted[d'].at
  }

  /** Two forwards of one event are the time to live apart, less what the first of them was delayed after its
      check. (The delay can be longer than that, and then the second may go first.) */
  lemma ForwardsApart(items: seq<Item>, ttl: int, d: DeliveryId, d': DeliveryId)
    requires Clocked(items) && ttl > 0 && Twice(Run(items, ttl), d, d')
    ensures var h := Run(items, ttl); 0 <= Delay(h, d) && h.sent[d] + ttl - Delay(h, d) <= h.sent[d']
  {
    RunKeepsStamps(items, ttl);
  }

  /** The run is clocked and forwards within this delay. */
  ghost predicate Prompt(items: seq<Item>, ttl: int, delay: nat) {
    var h := Run(items, ttl);
    Clocked(items) && forall d :: d in h.sent && d in h.admitted ==> Delay(h, d) <= delay
  }

  ghost predicate SentApart(h: Hook, ttl: int) {
    forall d, d' :: Twice(h, d, d') ==> h.sent[d] + ttl <= h.sent[d']
  }

  // The run in which the first of two forwards is late: the deliveries are checked the time to live apart.
  function LateForward(event: ProviderEvent, ttl: nat, late: nat): seq<Item> {
    [Check(0, event, 0, Acked), Expire(0, 0, Acked), Forward(0, 0, late),
     Check(1, event, ttl, Acked), Expire(1, ttl, Acked), Forward(1, 1, ttl)]
  }

  lemma LateForwardRuns(event: ProviderEvent, ttl: nat, late: nat)
    requires late <= ttl && ttl > 0
    ensures var h := Run(LateForward(event, ttl, late), ttl);
      && h.admitted == map[0 := Stamp(event.id, 0), 1 := Stamp(event.id, ttl)] && h.sent == map[0 := late, 1 := ttl]
    ensures Clocked(LateForward(event, ttl, late))
  {
    var half := FirstHalf(event, ttl, late);
    SecondHalf(event, ttl, late, half);
  }

  // One more item of a clocked run.
  lemma Goes(items: seq<Item>, item: Item, ttl: int, h: Hook) returns (more: seq<Item>, h': Hook)
    requires Clocked(items) && Run(items, ttl) == h && (Timed(item) ==> Clock(items) <= item.at)
    ensures more == items + [item] && Clocked(more) && Run(more, ttl) == h' == NextHook(h, item, ttl)
    ensures Clock(more) == if Timed(item) then item.at else Clock(items)
  {
    hide NextHook;
    more, h' := items + [item], NextHook(h, item, ttl);
    RunAppend(items, item, ttl);
    ClockedAppend(items, item);
  }

  // The first delivery, up to its forward.
  lemma FirstHalf(event: ProviderEvent, ttl: nat, late: nat) returns (items: seq<Item>)
    requires ttl > 0
    ensures items == LateForward(event, ttl, late)[..3] && Clocked(items) && Clock(items) == late
    ensures var h := Run(items, ttl);
      && h.seen == map[event.id := Some(ttl)] && h.phases.Keys == {0} && h.sys.calls.Keys == {0}
      && h.admitted == map[0 := Stamp(event.id, 0)] && h.sent == map[0 := late]
  {
    var h := Run([], ttl);
    items := [];
    assert h == IDLE && Clocked(items) && Clock(items) == 0;
    hide Run, Clocked, Clock;
    items, h := Goes(items, Check(0, event, 0, Acked), ttl, h);
    items, h := Goes(items, Expire(0, 0, Acked), ttl, h);
    items, h := Goes(items, Forward(0, 0, late), ttl, h);
  }

  // The second, from its check.
  lemma SecondHalf(event: ProviderEvent, ttl: nat, late: nat, half: seq<Item>)
    requires half == LateForward(event, ttl, late)[..3] && Clocked(half) && Clock(half) == late <= ttl && ttl > 0
    requires var h := Run(half, ttl);
      && h.seen == map[event.id := Some(ttl)] && h.phases.Keys == {0} && h.sys.calls.Keys == {0}
      && h.admitted == map[0 := Stamp(event.id, 0)] && h.sent == map[0 := late]
    ensures var h := Run(LateForward(event, ttl, late), ttl);
      && h.admitted == map[0 := Stamp(event.id, 0), 1 := Stamp(event.id, ttl)] && h.sent == map[0 := late, 1 := ttl]
    ensures Clocked(LateForward(event, ttl, late))
  {
    hide Run, Next, Clocked, Clock;
    var items, h := Goes(half, Check(1, event, ttl, Acked), ttl, Run(half, ttl));
    items, h := Goes(items, Expire(1, ttl, Acked), ttl, h);
    items, h := Goes(items, Forward(1, 1, ttl), ttl, h);
    assert items == LateForward(event, ttl, late);
  }

  /** Whatever the event: if forwards may be delayed by so much, all forwards of an event are the time to live
      apart in every run if and only if the delay is none at all. */
  lemma SentApartIff(ttl: nat, delay: nat, event: ProviderEvent)
    requires ttl > 0
    ensures (forall items :: Prompt(items, ttl, delay) ==> SentApart(Run(items, ttl), ttl)) <==> delay == 0
  {
    hide Run, Clocked, LateForward;
    if delay == 0 {
      forall items | Prompt(items, ttl, delay) ensures SentApart(Run(items, ttl), ttl) {
        forall d, d' | Twice(Run(items, ttl), d, d') ensures Run(items, ttl).sent[d] + ttl <= Run(items, ttl).sent[d'] {
          ForwardsApart(items, ttl, d, d');
        }
      }
    } else {
      var late: nat := if delay <= ttl then delay else ttl;
      LateForwardRuns(event, ttl, late);
      var items := LateForward(event, ttl, late);
      assert Prompt(items, ttl, delay) && Twice(Run(items, ttl), 0, 1);
    }
  }

  lemma NextKeepsAdmitted(h: Hook, item: Item, ttl: int, d: DeliveryId)
    requires PhasesInv(h) && d in h.admitted
    ensures var h' := NextHook(h, item, ttl); d in h'.admitted && h'.admitted[d] == h.admitted[d]
    ensures var h' := NextHook(h, item, ttl); d in h.phases && (h.phases[d].Replied? ==>
        d in h'.phases && h'.phases[d] == h.phases[d])
    ensures d in h.phases && h.phases[d].Replied? ==> NextHook(h, item, ttl).forwards[d] == h.forwards[d]
  {
    hide Next;
    assert PhaseInv(h, d);
  }

  lemma {:induction false} ClockedPrefix(items: seq<Item>, more: seq<Item>)
    requires Clocked(items + more)
    ensures Clocked(items)
  {
    if more == [] {
      assert items + more == items;
    } else {
      assert (items + more)[..|items + more| - 1] == items + more[..|more| - 1];
      ClockedPrefix(items, more[..|more| - 1]);
    }
  }

  lemma {:induction false} AdmittedStays(items: seq<Item>, more: seq<Item>, ttl: int, d: DeliveryId)
    requires Clocked(items + more)
    requires d in Run(items, ttl).admitted
    ensures d in Run(items + more, ttl).admitted && Run(items + more, ttl).admitted[d] == Run(items, ttl).admitted[d]
    ensures d in Run(items, ttl).phases
    ensures Run(items, ttl).phases[d].Replied? ==>
      && d in Run(items + more, ttl).phases && Run(items + more, ttl).phases[d] == Run(items, ttl).phases[d]
      && Run(items + more, ttl).forwards[d] == Run(items, ttl).forwards[d]
  {
    hide NextHook;
    ClockedPrefix(items, more);
    RunKeepsStamps(items, ttl);
    if more == [] {
      assert items + more == items;
      assert PhaseInv(Run(items, ttl), d);
    } else {
      var init, last := more[..|more| - 1], more[|more| - 1];
      assert items + more == items + init + [last];
      ClockedPrefix(items + init, [last]);
      AdmittedStays(items, init, ttl, d);
      RunAppend(items + init, last, ttl);
      RunKeepsStamps(items + init, ttl);
      NextKeepsAdmitted(Run(items + init, ttl), last, ttl, d);
    }
  }

  /** At most once, not exactly once: a delivery that was admitted and then answered 500 without its event
      reaching the orchestrator has used the event up. Whatever comes later, no delivery of that event checked
      within the time to live is forwarded. */
  lemma FailedForwardIsFinal(items: seq<Item>, more: seq<Item>, ttl: int, d: DeliveryId, d': DeliveryId)
    requires Clocked(items + more)
    requires var h := Run(items, ttl); d in h.admitted && d in h.phases && h.phases[d].Replied? && d !in h.forwards
    requires d' in Run(items + more, ttl).admitted && d' in Run(items + more, ttl).forwards
    ensures Apart(Run(items, ttl).admitted[d], Run(items + more, ttl).admitted[d'], ttl)
  {
    AdmittedStays(items, more, ttl, d);
    RunKeepsStamps(items + more, ttl);
    assert d != d';
  }

  /** A redelivery checked within the time to live is acknowledged and changes nothing, whatever became of the
      delivery that was admitted: in flight, applied, failed or crashed. */
  lemma RedeliveryIsAcknowledged(items: seq<Item>, ttl: int, d: DeliveryId, again: Item)
    requires Clocked(items + [again]) && again.Check? && again.fate.Acked?
    requires var h := Run(items, ttl);
      && d in h.admitted && again.event.id == h.admitted[d].id && again.at < h.admitted[d].at + ttl
      && again.d !in h.phases
    ensures var h := Run(items, ttl); Run(items + [again], ttl) == h.(phases := h.phases[again.d := Replied(200)])
  {
    assert (items + [again])[..|items|] == items;
    RunKeepsStamps(items, ttl);
    RunAppend(items, again, ttl);
    assert Held(Run(items, ttl).seen, Run(items, ttl).admitted[d], Clock(items), ttl);
  }

  /** Such a loss, the shortest: the event never reaches the orchestrator and yet is acknowledged. */
  lemma FailedForwardLosesEvent(event: ProviderEvent, ttl: int)
    requires ttl > 1
    ensures var failed := [Check(0, event, 0, Acked), Expire(0, 0, Acked), Reply(0, false)];
      && Run(failed, ttl).phases == map[0 := Replied(500)]
      && Run(failed + [Check(1, event, 1, Acked)], ttl).phases == map[0 := Replied(500), 1 := Replied(200)]
      && Run(failed + [Check(1, event, 1, Acked)], ttl).sys == INIT
  {
    var i1: seq<Item> := [Check(0, event, 0, Acked)];
    var i2 := i1 + [Expire(0, 0, Acked)];
    RunAppend([], i1[0], ttl);
    assert [] + i1 == i1;
    RunAppend(i1, Expire(0, 0, Acked), ttl);
    RunAppend(i2, Reply(0, false), ttl);
    RunAppend(i2 + [Reply(0, false)], Check(1, event, 1, Acked), ttl);
    assert i2 + [Reply(0, false)] == [Check(0, event, 0, Acked), Expire(0, 0, Acked), Reply(0, false)];
  }

  // A key without an expiry, and nobody about to give it one.
  ghost predicate Stuck(h: Hook, id: string) {
    id in h.seen && h.seen[id].None? && NobodyExpires(h, id)
  }

  // Nobody is about to give the key an expiry.
  ghost predicate NobodyExpires(h: Hook, id: string) {
    forall d :: d in h.phases && h.phases[d].Admitted? ==> h.phases[d].event.id != id
  }

  /** A SETNX that sets the key while its reply is lost leaves it without an expiry: the delivery is answered 500
      and nobody sets one. */
  lemma LostReplyIsStuck(h: Hook, check: Item, ttl: int)
    requires check.Check? && check.fate.Lost? && check.d !in h.phases
    requires !Live(h.seen, check.event.id, check.at) && NobodyExpires(h, check.event.id)
    ensures Stuck(NextHook(h, check, ttl), check.event.id)
  {
  }

  /** So does a lost EXPIRE. */
  lemma LostExpireIsStuck(h: Hook, expire: Item, ttl: int)
    requires expire.Expire? && expire.fate.Dropped? && expire.d in h.phases && h.phases[expire.d].Admitted?
    requires var id := h.phases[expire.d].event.id;
      && id in h.seen && h.seen[id].None?
      && (forall d :: d in h.phases && d != expire.d && h.phases[d].Admitted? ==> h.phases[d].event.id != id)
    ensures Stuck(NextHook(h, expire, ttl), h.phases[expire.d].event.id)
  {
  }

  // From h to h' no delivery of this event was admitted.
  ghost predicate NoneAdmitted(h: Hook, h': Hook, id: string) {
    forall d :: d in h'.admitted && h'.admitted[d].id == id ==> d in h.admitted && h'.admitted[d] == h.admitted[d]
  }

  lemma CheckStaysStuck(h: Hook, item: Item, id: string)
    requires Stuck(h, id) && item.Check? && item.d !in h.phases
    ensures var h' := DoCheck(h, item.d, item.event, item.at, item.fate); Stuck(h', id) && NoneAdmitted(h, h', id)
  {
  }

  lemma ExpireStaysStuck(h: Hook, d: DeliveryId, event: ProviderEvent, at: Time, fate: Fate, ttl: int, id: string)
    requires Stuck(h, id) && event.id != id
    ensures var h' := DoExpire(h, d, event, at, fate, ttl); Stuck(h', id) && NoneAdmitted(h, h', id)
  {
    hide Live;
  }

  lemma NextStaysStuck(h: Hook, item: Item, ttl: int, id: string)
    requires Stuck(h, id)
    ensures Stuck(NextHook(h, item, ttl), id)
    ensures NoneAdmitted(h, NextHook(h, item, ttl), id)
  {
    hide Next, DoCheck, DoExpire;
    if item.Check? && item.d !in h.phases { CheckStaysStuck(h, item, id); }
    if item.Expire? && item.d in h.phases && h.phases[item.d].Admitted? {
      ExpireStaysStuck(h, item.d, h.phases[item.d].event, item.at, item.fate, ttl, id);
    }
  }

  /** When EXPIRE is lost the key stays for good: no delivery of that event is admitted again, ever. */
  lemma {:induction false} LostExpiryIsForever(items: seq<Item>, more: seq<Item>, ttl: int, id: string)
    requires Stuck(Run(items, ttl), id)
    ensures Stuck(Run(items + more, ttl), id)
    ensures NoneAdmitted(Run(items, ttl), Run(items + more, ttl), id)
  {
    hide NextHook, Stuck;
    if more == [] {
      assert items + more == items;
    } else {
      var init, last := more[..|more| - 1], more[|more| - 1];
      assert items + more == items + init + [last];
      LostExpiryIsForever(items, init, ttl, id);
      RunAppend(items + init, last, ttl);
      NextStaysStuck(Run(items + init, ttl), last, ttl, id);
    }
  }

  // ---------- erasing repeats

  predicate IsCheck(items: seq<Item>, item: Item) {
    item.Check? && item.d !in Arrived(items)
  }

  function Arrived(items: seq<Item>): set<DeliveryId> {
    if items == [] then {}
    else
      var (init, last) := (items[..|items| - 1], items[|items| - 1]);
      Arrived(init) + if last.Check? then {last.d} else {}
  }

  /** The event ids that Redis has been asked about, not counting requests that never ran. */
  function Ids(items: seq<Item>): set<string> {
    if items == [] then {}
    else
      var (init, last) := (items[..|items| - 1], items[|items| - 1]);
      Ids(init) + if IsCheck(init, last) && !last.fate.Dropped? then {last.event.id} else {}
  }

  /** The deliveries whose event id has come before. */
  function Repeats(items: seq<Item>): set<DeliveryId> {
    if items == [] then {}
    else
      var (init, last) := (items[..|items| - 1], items[|items| - 1]);
      Repeats(init) + if IsCheck(init, last) && last.event.id in Ids(init) then {last.d} else {}
  }

  /** The sequence without them. */
  function Erased(items: seq<Item>): seq<Item> {
    if items == [] then []
    else
      var (init, last) := (items[..|items| - 1], items[|items| - 1]);
      Erased(init) + if !last.Act? && last.d in Repeats(items) then [] else [last]
  }

  lemma OneMoreItem(items: seq<Item>, item: Item)
    ensures Arrived(items + [item]) == Arrived(items) + if item.Check? then {item.d} else {}
    ensures Ids(items + [item]) == Ids(items) + if IsCheck(items, item) &&
        !item.fate.Dropped? then {item.event.id} else {}
    ensures Repeats(items + [item]) == Repeats(items) + if IsCheck(items, item) &&
        item.event.id in Ids(items) then {item.d} else {}
    ensures Erased(items + [item]) ==
      if !item.Act? && item.d in Repeats(items + [item]) then Erased(items) else Erased(items) + [item]
  {
    assert (items + [item])[..|items|] == items;
  }

  // Erased is items without its repeats, and nothing else is gone.
  ghost predicate Distilled(items: seq<Item>, erased: seq<Item>) {
    && Repeats(erased) == {} && Ids(erased) == Ids(items)
    && Arrived(erased) == Arrived(items) - Repeats(items) && Repeats(items) <= Arrived(items)
  }

  lemma ItemDistilled(items: seq<Item>, erased: seq<Item>, item: Item)
    requires Distilled(items, erased)
    ensures Distilled(items + [item],
      if !item.Act? && item.d in Repeats(items + [item]) then erased else erased + [item])
  {
    OneMoreItem(items, item);
    OneMoreItem(erased, item);
    hide Repeats, Ids, Arrived, Erased;
  }

  /** What is erased is just the repeats: the other deliveries and every event id are still there, and no
      repeat is left. */
  lemma {:induction false} ErasesRepeatsOnly(items: seq<Item>)
    ensures Repeats(Erased(items)) == {} && Ids(Erased(items)) == Ids(items)
    ensures Arrived(Erased(items)) == Arrived(items) - Repeats(items) && Repeats(items) <= Arrived(items)
  {
    if items != [] {
      var init, last := items[..|items| - 1], items[|items| - 1];
      hide Repeats, Ids, Arrived, Erased;
      ErasesRepeatsOnly(init);
      ItemDistilled(init, Erased(init), last);
      OneMoreItem(init, last);
      assert items == init + [last];
    }
  }

  /** All the requests to Redis happen within one time to live. */
  predicate Within(items: seq<Item>, start: Time, ttl: int) {
    forall item :: item in items && AsksRedis(item) ==> start <= item.at < start + ttl
  }

  ghost predicate IdsHeld(h: Hook, ids: set<string>, until: int) {
    h.seen.Keys == ids && forall id :: id in ids && h.seen[id].Some? ==> until <= h.seen[id].value
  }

  ghost predicate Answered200Or500(h: Hook, repeats: set<DeliveryId>) {
    forall d :: d in repeats ==> d in h.phases && h.phases[d] in {Replied(200), Replied(500)}
  }

  /** The same but for what the erased deliveries were answered. */
  ghost predicate SameButFor(h: Hook, h': Hook, repeats: set<DeliveryId>) {
    h' == h.(phases := h.phases - repeats)
  }

  lemma MinusUpdate(phases: map<DeliveryId, Phase>, repeats: set<DeliveryId>, d: DeliveryId, phase: Phase)
    requires d !in repeats
    ensures phases[d := phase] - repeats == (phases - repeats)[d := phase]
  {
  }

  lemma KeptCheck(h: Hook, h': Hook, repeats: set<DeliveryId>, item: Item)
    requires SameButFor(h, h', repeats) && item.Check? && item.d !in repeats
    ensures SameButFor(DoCheck(h, item.d, item.event, item.at, item.fate), DoCheck(h', item.d, item.event, item.at,
        item.fate), repeats)
  {
    hide SeenAfterCheck, PhaseAfterCheck;
    MinusUpdate(h.phases, repeats, item.d, PhaseAfterCheck(h.seen, item.event, item.at, item.fate));
  }

  // A step that is kept does the same in both runs.
  lemma KeptStep(h: Hook, h': Hook, repeats: set<DeliveryId>, item: Item, ttl: int)
    requires SameButFor(h, h', repeats)
    requires !item.Act? ==> item.d !in repeats
    ensures SameButFor(NextHook(h, item, ttl), NextHook(h', item, ttl), repeats)
  {
    hide Next, DoCheck;
    if item.Check? {
      KeptCheck(h, h', repeats, item);
    } else if !item.Act? && item.d in h.phases {
      MinusUpdate(h.phases, repeats, item.d, NextHook(h, item, ttl).phases[item.d]);
    }
  }

  // A step of an answered delivery does nothing, and a repeated check only answers.
  lemma ErasedStep(h: Hook, ids: set<string>, item: Item, start: Time, ttl: int)
    requires !item.Act? && IdsHeld(h, ids, start + ttl)
    requires AsksRedis(item) ==> start <= item.at < start + ttl
    requires if item.d in h.phases then h.phases[item.d].Replied? else item.Check? && item.event.id in ids
    ensures var h' := NextHook(h, item, ttl);
      && h' == h.(phases := h'.phases)
      && (if item.d in h.phases then h' == h
          else exists status :: status in {200, 500} && h'.phases == h.phases[item.d := Replied(status)])
  {
    if item.d !in h.phases {
      assert Live(h.seen, item.event.id, item.at);
      assert NextHook(h, item, ttl).phases == h.phases[item.d := Replied(if item.fate.Acked? then 200 else 500)];
    }
  }

  function Asked(h: Hook, item: Item): set<string> {
    if item.Check? && item.d !in h.phases && !item.fate.Dropped? then {item.event.id} else {}
  }

  lemma NextHoldsIds(h: Hook, ids: set<string>, item: Item, start: Time, ttl: int)
    requires IdsHeld(h, ids, start + ttl)
    requires AsksRedis(item) ==> start <= item.at < start + ttl
    ensures IdsHeld(NextHook(h, item, ttl), ids + Asked(h, item), start + ttl)
  {
    hide Next, DoCheck, DoExpire, DoForward, DoReply, IdsHeld;
    match item
    case Check(_, _, _, _) =>
      if item.d !in h.phases { CheckHoldsIds(h, ids, item, start, ttl); } else { SameIds(h, ids); }
    case Expire(d, at, fate) =>
      if d in h.phases && h.phases[d].Admitted? {
        ExpireHoldsIds(h, ids, d, h.phases[d].event, at, fate, start, ttl);
      }
      SameIds(h, ids);
    case Forward(_, _, _) => OthersKeepSeen(h, item, ids, start + ttl, ttl); SameIds(h, ids);
    case Reply(_, _) => OthersKeepSeen(h, item, ids, start + ttl, ttl); SameIds(h, ids);
    case Act(_) => OthersKeepSeen(h, item, ids, start + ttl, ttl); SameIds(h, ids);
  }

  lemma SameIds(h: Hook, ids: set<string>)
    ensures ids + {} == ids
  {
  }

  lemma CheckHoldsIds(h: Hook, ids: set<string>, item: Item, start: Time, ttl: int)
    requires IdsHeld(h, ids, start + ttl) && item.Check? && item.d !in h.phases && start <= item.at < start + ttl
    ensures IdsHeld(DoCheck(h, item.d, item.event, item.at, item.fate), ids + Asked(h, item), start + ttl)
  {
  }

  lemma ExpireHoldsIds(h: Hook, ids: set<string>, d: DeliveryId, event: ProviderEvent, at: Time, fate: Fate,
      start: Time, ttl: int)
    requires IdsHeld(h, ids, start + ttl) && start <= at
    ensures IdsHeld(DoExpire(h, d, event, at, fate, ttl), ids, start + ttl)
  {
  }

  lemma OthersKeepSeen(h: Hook, item: Item, ids: set<string>, until: int, ttl: int)
    requires IdsHeld(h, ids, until) && !AsksRedis(item)
    ensures IdsHeld(NextHook(h, item, ttl), ids, until)
  {
    hide Next;
  }

  lemma NextChecks(h: Hook, item: Item, ttl: int)
    ensures NextHook(h, item, ttl).phases.Keys == h.phases.Keys + if item.Check? then {item.d} else {}
  {
    hide Next, DoCheck, Live;
    if item.Check? && item.d !in h.phases { CheckChecks(h, item); }
  }

  lemma CheckChecks(h: Hook, item: Item)
    requires item.Check?
    ensures DoCheck(h, item.d, item.event, item.at, item.fate).phases.Keys == h.phases.Keys + {item.d}
  {
    hide SeenAfterCheck, PhaseAfterCheck;
  }

  lemma {:induction false} ArrivedIsPhases(items: seq<Item>, ttl: int)
    ensures Run(items, ttl).phases.Keys == Arrived(items)
  {
    hide NextHook;
    if items != [] {
      ArrivedIsPhases(items[..|items| - 1], ttl);
      NextChecks(Run(items[..|items| - 1], ttl), items[|items| - 1], ttl);
    }
  }

  lemma {:induction false} IdsAreHeld(items: seq<Item>, start: Time, ttl: int)
    requires Within(items, start, ttl)
    ensures IdsHeld(Run(items, ttl), Ids(items), start + ttl)
  {
    hide NextHook;
    if items != [] {
      var init, last := items[..|items| - 1], items[|items| - 1];
      assert last in items && forall item :: item in init ==> item in items;
      IdsAreHeld(init, start, ttl);
      ArrivedIsPhases(init, ttl);
      NextHoldsIds(Run(init, ttl), Ids(init), last, start, ttl);
    }
  }

  // Dropping an answered delivery's entry, whatever it is.
  lemma SameButForMore(h: Hook, h': Hook, h'': Hook, repeats: set<DeliveryId>, d: DeliveryId)
    requires SameButFor(h, h', repeats)
    requires h'' == h.(phases := h''.phases) && (forall e :: e != d ==> (e in h''.phases <==> e in h.phases))
    requires forall e :: e in h.phases && e != d ==> h''.phases[e] == h.phases[e]
    requires d in repeats || d !in h.phases
    ensures SameButFor(h'', h', repeats + {d})
  {
    assert h''.phases - (repeats + {d}) == h.phases - repeats;
  }

  lemma AnswersStay(h: Hook, repeats: set<DeliveryId>, item: Item, ttl: int)
    requires Answered200Or500(h, repeats)
    ensures Answered200Or500(NextHook(h, item, ttl), repeats)
  {
    hide Next;
  }

  // The last item of a run within the time to live, erased or kept.
  lemma ErasingOne(h: Hook, h': Hook, repeats: set<DeliveryId>, ids: set<string>, item: Item, start: Time, ttl: int)
    requires SameButFor(h, h', repeats) && Answered200Or500(h, repeats)
    requires IdsHeld(h, ids, start + ttl) && (AsksRedis(item) ==> start <= item.at < start + ttl)
    ensures var more := repeats + if item.Check? && item.d !in h.phases && item.event.id in ids then {item.d} else {};
      && Answered200Or500(NextHook(h, item, ttl), more)
      && SameButFor(NextHook(h, item, ttl), if !item.Act? && item.d in more then h' else NextHook(h', item, ttl), more)
  {
    hide NextHook;
    AnswersStay(h, repeats, item, ttl);
    if !item.Act? && item.d in repeats {
      ErasedStep(h, ids, item, start, ttl);
    } else if item.Check? && item.d !in h.phases && item.event.id in ids {
      ErasedStep(h, ids, item, start, ttl);
      SameButForMore(h, h', NextHook(h, item, ttl), repeats, item.d);
    } else {
      KeptStep(h, h', repeats, item, ttl);
    }
  }

  /** The run without the repeats is the run itself but for what the repeats were answered, and they were all
      answered. */
  lemma {:induction false} ErasureSimulates(items: seq<Item>, start: Time, ttl: int)
    requires Within(items, start, ttl)
    ensures SameButFor(Run(items, ttl), Run(Erased(items), ttl), Repeats(items))
    ensures Answered200Or500(Run(items, ttl), Repeats(items))
  {
    hide NextHook;
    if items != [] {
      var init, last := items[..|items| - 1], items[|items| - 1];
      assert last in items && forall item :: item in init ==> item in items;
      ErasureSimulates(init, start, ttl);
      IdsAreHeld(init, start, ttl);
      ArrivedIsPhases(init, ttl);
      ErasingOne(Run(init, ttl), Run(Erased(init), ttl), Repeats(init), Ids(init), last, start, ttl);
      RunAppend(Erased(init), last, ttl);
      assert Erased(init) + [] == Erased(init);
    }
  }

  /** Trace equivalence. Within the time to live, any sequence of deliveries, interleaved with anything, with
      forwards that fail or crash and requests to Redis that fail, leaves the payout service exactly as the
      sequence does from which the deliveries of repeated events are erased. */
  lemma ErasingRepeatsChangesNothing(items: seq<Item>, start: Time, ttl: int)
    requires Within(items, start, ttl)
    ensures Run(Erased(items), ttl).sys == Run(items, ttl).sys
  {
    ErasureSimulates(items, start, ttl);
  }

  // ---------- which delivery decides

  /** The first check of an event that ran, whether or not its reply arrived. */
  function First(items: seq<Item>, id: string): Option<Item> {
    if items == [] then None
    else
      var (init, last) := (items[..|items| - 1], items[|items| - 1]);
      if First(init, id).Some? then First(init, id)
      else if IsCheck(init, last) && !last.fate.Dropped? && last.event.id == id then Some(last)
      else None
  }

  /** The event has reached the orchestrator. */
  ghost predicate Reached(h: Hook, id: string) {
    exists d :: d in h.forwards && d in h.admitted && h.admitted[d].id == id
  }

  lemma {:induction false} FirstIsInIds(items: seq<Item>, id: string)
    ensures First(items, id).Some? <==> id in Ids(items)
    ensures First(items, id).Some? ==> First(items, id).value.Check?
  {
    if items != [] { FirstIsInIds(items[..|items| - 1], id); }
  }

  // The delivery of the first check is the only one that can be admitted, and is if its reply arrived.
  ghost predicate OnlyFirst(h: Hook, first: Option<Item>, id: string) {
    && (first.Some? ==> first.value.Check?)
    && forall d :: (d in h.admitted && h.admitted[d].id == id) <==>
                   (first.Some? && first.value.d == d && first.value.fate.Acked?)
  }

  // Only a check that was not live and was acknowledged admits its delivery.
  lemma NextAdmits(h: Hook, item: Item, ttl: int)
    ensures var h' := NextHook(h, item, ttl);
      h'.admitted ==
        if item.Check? && item.d !in h.phases && item.fate.Acked? && !Live(h.seen, item.event.id, item.at)
        then h.admitted[item.d := Stamp(item.event.id, item.at)] else h.admitted
  {
    hide Next;
  }

  lemma {:induction false} AdmittedIsFirst(items: seq<Item>, start: Time, ttl: int, id: string)
    requires Within(items, start, ttl)
    ensures OnlyFirst(Run(items, ttl), First(items, id), id)
  {
    hide NextHook;
    if items != [] {
      var init, last := items[..|items| - 1], items[|items| - 1];
      assert last in items && forall item :: item in init ==> item in items;
      AdmittedIsFirst(init, start, ttl, id);
      IdsAreHeld(init, start, ttl);
      ArrivedIsPhases(init, ttl);
      FirstIsInIds(init, id);
      RunKeepsPhases(init, ttl);
      assert last.Check? ==> PhaseInv(Run(init, ttl), last.d);
      NextAdmits(Run(init, ttl), last, ttl);
      FirstStaysOnly(Run(init, ttl), init, last, start, ttl, id);
    }
  }

  lemma OneMoreFirst(items: seq<Item>, item: Item, id: string)
    ensures First(items + [item], id) ==
      if First(items, id).Some? then First(items, id)
      else if IsCheck(items, item) && !item.fate.Dropped? && item.event.id == id then Some(item)
      else None
  {
    assert (items + [item])[..|items|] == items;
  }

  // The keys that are live are those of the ids that have been checked.
  lemma LiveIsChecked(h: Hook, ids: set<string>, id: string, at: Time, start: Time, ttl: int)
    requires IdsHeld(h, ids, start + ttl) && start <= at < start + ttl
    ensures Live(h.seen, id, at) <==> id in ids
  {
  }

  lemma FirstStaysOnly(h: Hook, init: seq<Item>, last: Item, start: Time, ttl: int, id: string)
    requires OnlyFirst(h, First(init, id), id) && IdsHeld(h, Ids(init), start + ttl)
    requires h.phases.Keys == Arrived(init) && (First(init, id).Some? <==> id in Ids(init))
    requires last.Check? && last.d !in h.phases ==> last.d !in h.admitted
    requires AsksRedis(last) ==> start <= last.at < start + ttl
    ensures OnlyFirst(NextHook(h, last, ttl), First(init + [last], id), id)
  {
    hide NextHook, Ids, Arrived, First, Live, IdsHeld;
    OneMoreFirst(init, last, id);
    NextAdmits(h, last, ttl);
    if last.Check? { LiveIsChecked(h, Ids(init), last.event.id, last.at, start, ttl); }
  }

  lemma {:induction false} RunKeepsPhases(items: seq<Item>, ttl: int)
    ensures PhasesInv(Run(items, ttl))
  {
    hide NextHook;
    if items == [] {
      assert forall d :: PhaseInv(IDLE, d);
    } else {
      RunKeepsPhases(items[..|items| - 1], ttl);
      NextKeepsPhases(Run(items[..|items| - 1], ttl), items[|items| - 1], ttl);
    }
  }

  /** Within one time to live an event reaches the orchestrator if and only if the reply to the first check of it
      that ran arrived, and that very delivery was forwarded: no other delivery makes up for it, be it that the
      reply was lost, that the delivery crashed, or that its forward never got through. */
  lemma FirstCheckDecides(items: seq<Item>, start: Time, ttl: int, id: string)
    requires Within(items, start, ttl)
    ensures var (h, first) := (Run(items, ttl), First(items, id));
      && (first.Some? ==> first.value.Check?)
      && (Reached(h, id) <==> first.Some? && first.value.fate.Acked? && first.value.d in h.forwards)
  {
    hide Run, First;
    AdmittedIsFirst(items, start, ttl, id);
  }
}
