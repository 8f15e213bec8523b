/** The webhook handler, run step by step while other deliveries and other RPCs move in between.

    ServeHTTP is proved to be a run of one delivery of the dedup protocol, so what holds of its runs holds of
    the handler. The signature check and the event parser come before and are not part of this model. */
module StripeHandler {
  import opened Wrappers
  import opened PayoutDomain
  import opened PayoutProtocol
  import opened ProtocolTheorems
  import opened PayoutService
  import opened WebhookDedup

  // ---------- lifting a run of the orchestrator

  function Acts(acts: seq<Action>): seq<Item> {
    if acts == [] then [] else Acts(acts[..|acts| - 1]) + [Act(acts[|acts| - 1])]
  }

  lemma {:induction false} ActsRun(items: seq<Item>, acts: seq<Action>, ttl: int)
    requires Clocked(items)
    ensures Run(items + Acts(acts), ttl) == Run(items, ttl).(sys := Exec(Run(items, ttl).sys, acts))
    ensures Clocked(items + Acts(acts)) && Clock(items + Acts(acts)) == Clock(items)
  {
    hide Next, Run, Clocked, Clock;
    if acts == [] {
      assert items + [] == items;
    } else {
      var init, a := acts[..|acts| - 1], acts[|acts| - 1];
      ActsRun(items, init, ttl);
      assert items + Acts(acts) == items + Acts(init) + [Act(a)];
      RunAppend(items + Acts(init), Act(a), ttl);
      ClockedAppend(items + Acts(init), Act(a));
    }
  }

  // ---------- Redis

  const NANOS_PER_SECOND := 1_000_000_000
  const DEFAULT_TTL := 24 * 3600 * NANOS_PER_SECOND

  /** NewService and IsProcessed: the default for 0, then whole seconds, rounded towards zero. */
  function TtlMillis(ttlNanos: int): int {
    var ttl := if ttlNanos == 0 then DEFAULT_TTL else ttlNanos;
    1000 * (if ttl >= 0 then ttl / NANOS_PER_SECOND else -(-ttl / NANOS_PER_SECOND))
  }

  /** 24 hours when nothing is configured; otherwise the whole seconds of what is, in milliseconds, so that less than a
      second is none. */
  lemma TtlIsWholeSeconds(ttlNanos: int)
    ensures TtlMillis(0) == 86_400_000
    ensures ttlNanos > 0 ==>
      TtlMillis(ttlNanos) % 1000 == 0 && 0 <= ttlNanos - TtlMillis(ttlNanos) * 1_000_000 < 1_000_000_000
    ensures ttlNanos < 0 ==> TtlMillis(ttlNanos) <= 0
  {
  }

  class Redis {
    var seen: map<string, Option<int>>
    var clock: Time

    constructor ()
      ensures seen == map[] && clock == 0
    {
      seen, clock := map[], 0;
    }

    method Now() returns (at: Time)
      modifies this`clock
      ensures at == clock >= old(clock)
    {
      at :| clock <= at;
      clock := at;
    }

    // None is an error.
    method Setnx(id: string, at: Time, fate: Fate) returns (set_: Option<bool>)
      modifies this`seen
      ensures seen == if fate.Dropped? || Live(old(seen), id, at) then old(seen) else old(seen)[id := None]
      ensures set_ == if fate.Acked? then Some(!Live(old(seen), id, at)) else None
    {
      if fate.Dropped? { return None; }
      var live := Live(seen, id, at);
      if !live { seen := seen[id := None]; }
      return if fate.Acked? then Some(!live) else None;
    }

    method Expire(id: string, at: Time, ttl: int, fate: Fate)
      modifies this`seen
      ensures seen == if !fate.Dropped? && Live(old(seen), id, at) then old(seen)[id := Some(at + ttl)] else old(seen)
    {
      if !fate.Dropped? && Live(seen, id, at) { seen := seen[id := Some(at + ttl)]; }
    }
  }

  // ---------- the handler

  class Handler {
    const redis: Redis
    const orchestrator: Server
    const ttl: int

    // The run so far, and the state it leads to.
    ghost var items: seq<Item>
    ghost var hook: Hook

    ghost predicate IsHookRun()
      reads this
    {
      Run(items, ttl) == hook && Clocked(items)
    }

    ghost predicate Valid()
      reads this, redis, orchestrator, orchestrator.store, orchestrator.orchestrator.tracker
    {
      && IsHookRun() && Clock(items) <= redis.clock
      && hook.seen == redis.seen && hook.sys == orchestrator.sys
      && orchestrator.Valid()
    }

    constructor (orchestrator: Server, ttlNanos: int)
      requires orchestrator.Valid() && orchestrator.trace == []
      ensures Valid() && items == [] && this.orchestrator == orchestrator && ttl == TtlMillis(ttlNanos)
    {
      redis := new Redis();
      this.orchestrator := orchestrator;
      ttl := TtlMillis(ttlNanos);
      items, hook := [], IDLE;
    }

    // Delivery d is in this phase.
    ghost predicate InPhase(d: DeliveryId, phase: Phase)
      reads this
    {
      d in hook.phases && hook.phases[d] == phase
    }

    /** Any number of steps of other deliveries and of other calls. Callers know this contract only. */
    method Others(ghost d: DeliveryId, ghost c: CallId)
      requires Valid()
      modifies this`items, this`hook, redis, orchestrator, orchestrator.store, orchestrator.orchestrator.tracker,
        orchestrator.orchestrator.directory
      ensures Valid() && old(items) <= items
      ensures d in hook.phases <==> d in old(hook).phases
      ensures d in hook.phases ==> hook.phases[d] == old(hook).phases[d]
      ensures c in hook.sys.calls <==> c in old(hook).sys.calls
    {
    }

    ghost method Moved(item: Item)
      requires IsHookRun() && (Timed(item) ==> Clock(items) <= item.at)
      modifies this`items, this`hook
      ensures IsHookRun() && items == old(items) + [item] && hook == NextHook(old(hook), item, ttl)
      ensures Clock(items) == if Timed(item) then item.at else old(Clock(items))
    {
      RunAppend(items, item, ttl);
      ClockedAppend(items, item);
      items, hook := items + [item], NextHook(hook, item, ttl);
    }

    /** While the RPC is under way: its own steps and those of other calls, which are `acts`, and among them any
        steps of other deliveries. Callers know this contract only. */
    method Meanwhile(ghost d: DeliveryId, ghost acts: seq<Action>)
      requires IsHookRun() && Clock(items) <= redis.clock && hook.seen == redis.seen
      modifies this`items, this`hook, redis
      ensures IsHookRun() && Clock(items) <= redis.clock && hook.seen == redis.seen
      ensures old(items) <= items && hook.sys == Exec(old(hook).sys, acts)
      ensures d in hook.phases <==> d in old(hook).phases
      ensures d in hook.phases ==> hook.phases[d] == old(hook).phases[d]
    {
      ActsRun(items, acts, ttl);
      items, hook := items + Acts(acts), hook.(sys := Exec(hook.sys, acts));
    }

    method AnyFate() returns (fate: Fate)
    {
      fate := *;
    }

    /** IsProcessed; None is its error. */
    method IsProcessed(ghost d: DeliveryId, ghost c: CallId, event: ProviderEvent) returns (duplicate: Option<bool>)
      requires Valid() && d !in hook.phases
      modifies this, redis, orchestrator, orchestrator.store, orchestrator.orchestrator.tracker,
        orchestrator.orchestrator.directory
      ensures Valid() && old(items) <= items
      ensures InPhase(d, match duplicate
                         case None => Replied(500)
                         case Some(true) => Replied(200)
                         case Some(false) => Marked(event))
      ensures c in hook.sys.calls <==> c in old(hook).sys.calls
    {
      hide Next, Exec, Run, Clocked, Clock, Live;
      Others(d, c);
      var at := redis.Now();
      var fate := AnyFate();
      var set_ := redis.Setnx(event.id, at, fate);
      Moved(Check(d, event, at, fate));
      if set_.None? { return None; }
      if !set_.value { return Some(true); }
      SetExpiry(d, c, event);
      return Some(false);
    }

    // The reply to EXPIRE is ignored.
    method SetExpiry(ghost d: DeliveryId, ghost c: CallId, event: ProviderEvent)
      requires Valid() && InPhase(d, Admitted(event))
      modifies this, redis, orchestrator, orchestrator.store, orchestrator.orchestrator.tracker,
        orchestrator.orchestrator.directory
      ensures Valid() && old(items) <= items && InPhase(d, Marked(event))
      ensures c in hook.sys.calls <==> c in old(hook).sys.calls
    {
      hide Next, Exec, Run, Clocked, Clock, Live;
      Others(d, c);
      var at := redis.Now();
      var fate := AnyFate();
      redis.Expire(event.id, at, ttl, fate);
      Moved(Item.Expire(d, at, fate));
    }

    /** forwardToOrchestrator. The RPC may be lost on its way there, or its answer on the way back, or the client may
        give up on it while it is still running. */
    method ForwardToOrchestrator(ghost d: DeliveryId, ghost c: CallId, event: ProviderEvent) returns (ok: bool)
      requires Valid() && InPhase(d, Marked(event)) && c !in hook.sys.calls
      modifies this, redis, orchestrator, orchestrator.store, orchestrator.orchestrator.tracker,
        orchestrator.orchestrator.directory
      ensures Valid() && old(items) <= items && InPhase(d, Replied(if ok then 200 else 500))
      ensures ok ==> c in hook.sys.calls && hook.sys.calls[c].at == Answered(Success)
    {
      hide Next, Exec, Run, Clocked, Clock, Live;
      Others(d, c);
      var sent, finished, answered: bool := *, *, *;
      if !sent {
        Moved(Reply(d, false));
        return false;
      }
      if !finished {
        GiveUp(d, c, event);
        return false;
      }
      var resp := Call(d, c, event);
      Moved(Reply(d, answered));
      return answered && resp.Success?;
    }

    // The RPC has begun and the client times out; its steps go on among those of others.
    method GiveUp(ghost d: DeliveryId, ghost c: CallId, event: ProviderEvent)
      requires Valid() && InPhase(d, Marked(event)) && c !in hook.sys.calls
      modifies this, redis, orchestrator, orchestrator.store, orchestrator.orchestrator.tracker,
        orchestrator.orchestrator.directory
      ensures Valid() && old(items) <= items && InPhase(d, Replied(500))
    {
      hide Next, Exec, Run, Clocked, Clock;
      var at := redis.Now();
      orchestrator.Began(c, UpdateRequest(event));
      Moved(Forward(d, c, at));
      Others(d, c);
      Moved(Reply(d, false));
    }

    method Call(ghost d: DeliveryId, ghost c: CallId, event: ProviderEvent) returns (resp: Response)
      requires Valid() && InPhase(d, Marked(event)) && c !in hook.sys.calls
      modifies this, redis, orchestrator, orchestrator.store, orchestrator.orchestrator.tracker,
        orchestrator.orchestrator.directory
      ensures Valid() && old(items) <= items && InPhase(d, Awaiting(event, c))
      ensures c in hook.sys.calls && hook.sys.calls[c].at == Answered(resp)
    {
      hide Next, Exec, Run, Clocked, Clock;
      var at := redis.Now();
      ghost var before, sysBefore := orchestrator.trace, orchestrator.sys;
      ghost var begin := Begin(c, UpdateRequest(event));
      resp := orchestrator.ApplyProviderUpdate(c, event.externalId, event.uuid, event.status);
      ghost var rest := orchestrator.trace[|before| + 1..];
      assert orchestrator.trace == before + [begin] + rest;
      LaterRun(before, sysBefore, begin, rest, orchestrator.sys);
      Moved(Forward(d, c, at));
      Meanwhile(d, rest);
    }

    /** ServeHTTP, from the dedup check on. */
    method ServeHTTP(ghost d: DeliveryId, ghost c: CallId, event: ProviderEvent) returns (status: int)
      requires Valid() && d !in hook.phases && c !in hook.sys.calls
      modifies this, redis, orchestrator, orchestrator.store, orchestrator.orchestrator.tracker,
        orchestrator.orchestrator.directory
      ensures Valid() && old(items) <= items && InPhase(d, Replied(status))
    {
      var duplicate := IsProcessed(d, c, event);
      if duplicate.None? { return 500; }
      if duplicate.value { return 200; }
      var ok := ForwardToOrchestrator(d, c, event);
      return if ok then 200 else 500;
    }
  }

  lemma LaterRun(trace: seq<Action>, sys: Sys, a: Action, rest: seq<Action>, sys': Sys)
    requires IsRun(trace, sys) && IsRun(trace + [a] + rest, sys')
    ensures sys' == Exec(Next(sys, a), rest)
  {
    ExecConcat(INIT, trace + [a], rest);
    ExecAppend(INIT, trace, a);
  }
}
