/** The coordinator thread: it mutates its queues in place, exactly as the event functions say. */
module Scheduler {
  import opened Collections
  import opened EngineTypes
  import opened Workers
  import opened Coordinator

  class Scheduler {
    const env: Env
    const pool: WorkerPool
    var queues: map<KeyHash, seq<Op>>
    var active: set<KeyHash>
    var pending: seq<PendingEvent>
    var maintenanceActive: bool
    var picks: nat
    var running: bool
    var lifecycle: Lifecycle
    var channel: seq<Event>
    var replies: seq<Reply>
    var order: seq<Op>
    var fate: map<nat, Fate>
    var barriers: seq<Barrier>

    ghost function View(): Coord
      reads this, pool
    {
      Coord(queues, active, pending, maintenanceActive, pool.View(), picks, running, lifecycle, channel, pool.jobs,
            replies, order, fate, barriers)
    }

    ghost predicate Valid()
      reads this, pool
    {
      pool.env == env && ValidEnv(env) && pool.sender && pool.Valid()
    }

    constructor (env: Env)
      requires ValidEnv(env)
      ensures Valid() && this.env == env && fresh(pool)
      ensures View() == Coord(map[], {}, [], false, Pool(0, 0, true), 0, true, Open, [], [], [], [], map[], [])
    {
      this.env := env;
      queues, active, pending, maintenanceActive := map[], {}, [], false;
      picks, running, lifecycle := 0, true, Open;
      channel, replies, order, fate, barriers := [], [], [], map[], [];
      pool := new WorkerPool(env);
    }

    method Send(reply: Reply)
      modifies this`replies
      ensures replies == old(replies) + [reply]
    {
      replies := replies + [reply];
    }

    /** Delivers a result. A result of another kind would be a bug, so callers must rule it out. */
    method Deliver(op: Op, result: BlockingResult)
      requires Matches(op.operation, result)
      modifies this`replies
      ensures replies == old(replies) + [OpReply(op, Delivered(result))]
    {
      Send(OpReply(op, Delivered(result)));
    }

    method Push(op: Op)
      modifies this`queues
      ensures queues == old(queues)[op.key := Queue(old(queues), op.key) + [op]]
    {
      if op.key in queues {
        queues := queues[op.key := queues[op.key] + [op]];
      } else {
        queues := queues[op.key := [op]];
        assert [] + [op] == [op];
      }
    }

    /** Takes the head of a queue. */
    method Pop(key: KeyHash) returns (op: Op)
      requires key in queues && queues[key] != []
      modifies this`queues
      ensures op == old(queues)[key][0] && queues == old(queues)[key := old(queues)[key][1..]]
    {
      op := queues[key][0];
      queues := queues[key := queues[key][1..]];
    }

    method Forget(key: KeyHash)
      modifies this`queues
      ensures queues == if key in old(queues) && old(queues)[key] == [] then old(queues) - {key} else old(queues)
    {
      if key in queues && queues[key] == [] {
        queues := queues - {key};
      }
    }

    method RefuseHead(key: KeyHash)
      requires key in queues && queues[key] != []
      modifies this`queues, this`replies, this`fate
      ensures View() == Refuse(old(View()), key)
    {
      var op := Pop(key);
      replies := replies + [OpReply(op, Rejected(WorkerUnavailable))];
      fate := fate[op.id := Refused];
      Forget(key);
      assert old(queues)[key := old(queues)[key][1..]] - {key} == old(queues) - {key};
    }

    method StartHead(key: KeyHash)
      requires key in queues && queues[key] != [] && pool.sender
      modifies this`queues, this`active, pool`jobs
      ensures View() == Start(old(View()), key)
    {
      var op := Pop(key);
      active := active + {key};
      var sent := pool.Execute(Fresh(op));
      assert sent;  // the pool is open, so the fallback completion is never needed
    }

    method DispatchIfIdle(key: KeyHash)
      requires Valid()
      modifies this, pool
      ensures Valid() && View() == Coordinator.DispatchIfIdle(env, old(View()), key)
    {
      hide Prepared, ValidEnv, Start, Refuse;
      if key in active || |active| >= env.limit {
        return;
      }
      if key !in queues || queues[key] == [] {
        return;
      }
      var ok := pool.Prepare(|active| + 1);
      assert (pool.View(), ok) == Prepared(env, old(pool.View()), |old(active)| + 1);
      if !ok {
        RefuseHead(key);
        return;
      }
      StartHead(key);
    }

    method DispatchAvailable()
      requires Valid()
      modifies this, pool
      ensures Valid() && View() == Coordinator.DispatchAvailable(env, old(View()))
    {
      while |active| < env.limit
        invariant Valid()
        invariant Coordinator.DispatchAvailable(env, View()) == Coordinator.DispatchAvailable(env, old(View()))
        decreases |QueueIds(queues)|
      {
        var ready := set key | key in queues && queues[key] != [] && key !in active;
        if ready == {} {
          assert Ready(View()) == {};
          break;
        }
        assert ready == Ready(View());
        var key := env.choose(picks, ready);
        picks := picks + 1;
        DispatchShrinks(env, View(), key);
        DispatchIfIdle(key);
      }
    }

    method DispatchMaintenance(id: nat, mark: nat)
      requires Valid()
      modifies this, pool
      ensures Valid() && View() == Coordinator.DispatchMaintenance(env, old(View()), id, mark)
    {
      var ok := pool.Prepare(1);
      if !ok {
        Send(MaintenanceReply(id, Some(Err(WorkerUnavailable))));
        channel := channel + [MaintenanceCompletion(None)];
        return;
      }
      Pass(id, mark);
      var sent := pool.Execute(Maintain(id));
      assert sent;
    }

    /** Records that a barrier passed. */
    method Pass(id: nat, mark: nat)
      modifies this`barriers
      ensures View() == Honour(old(View()), id, mark)
    {
      var moved := |order| - |FlatMap(SubmissionOf(), pending)|;
      barriers := barriers + [Barrier(id, mark, if moved < 0 then 0 else moved, |replies|)];
    }

    method AdvancePendingIfReady()
      requires Valid()
      modifies this, pool
      ensures Valid() && View() == Advance(env, old(View()))
    {
      hide ValidEnv, Coordinator.DispatchIfIdle, Coordinator.DispatchMaintenance, Honour;
      if maintenanceActive {
        return;
      }
      while pending != []
        invariant Valid() && !maintenanceActive
        invariant Advance(env, View()) == Advance(env, old(View()))
        decreases |pending|
      {
        var front := pending[0];
        match front
        case PendingMaintenance(id, mark) =>
          if active != {} || !AllQueuesEmpty(queues) {
            return;
          }
          pending := pending[1..];
          maintenanceActive := true;
          DispatchMaintenance(id, mark);
          return;
        case PendingSubmission(op) =>
          pending := pending[1..];
          Push(op);
          ghost var enqueued := View();
          DispatchIfIdle(op.key);
          DispatchKeepsPending(env, enqueued, op.key);
        case PendingFlush(id, mark) =>
          if active != {} || !AllQueuesEmpty(queues) {
            return;
          }
          pending := pending[1..];
          Pass(id, mark);
          Send(FlushReply(id, Ok(())));
        case PendingClose(_) =>
          return;
      }
    }

    /** Answers the closes at the front of the deque. */
    method AnswerCloses(ok: bool)
      modifies this`pending, this`replies
      ensures replies == old(replies) + CloseFront(old(pending), ok)
      ensures pending == AfterCloses(old(pending))
    {
      while pending != [] && pending[0].PendingClose?
        invariant replies + CloseFront(pending, ok) == old(replies) + CloseFront(old(pending), ok)
        invariant AfterCloses(pending) == AfterCloses(old(pending))
        decreases |pending|
      {
        var reply := CloseReply(pending[0].id, Verdict(ok));
        assert replies + CloseFront(pending, ok) == replies + [reply] + CloseFront(pending[1..], ok);
        pending := pending[1..];
        replies := replies + [reply];
      }
      assert replies + [] == replies;
    }

    /** Answers what is still in the channel. */
    method DrainChannel(ok: bool)
      modifies this`channel, this`replies
      ensures replies == old(replies) + FlatMap(DrainReply(ok), old(channel))
      ensures channel == []
    {
      while channel != []
        invariant replies + FlatMap(DrainReply(ok), channel) == old(replies) + FlatMap(DrainReply(ok), old(channel))
        decreases |channel|
      {
        var answer := DrainReply(ok)(channel[0]);
        assert replies + FlatMap(DrainReply(ok), channel) == replies + answer + FlatMap(DrainReply(ok), channel[1..]);
        channel := channel[1..];
        replies := replies + answer;
      }
      assert replies + [] == replies;
    }

    /** Joins the workers, publishes the verdict, answers every close, and drains the channel. */
    method Shutdown()
      requires Valid()
      modifies this, pool
      ensures View() == Stop(env, old(View()))
    {
      var ok := pool.Shutdown();
      lifecycle := if ok then Closed else ShutdownFailed;
      running := false;
      AnswerCloses(ok);
      DrainChannel(ok);
    }

    method StopIfClosing()
      requires Valid()
      modifies this, pool
      ensures View() == StopIfClosed(env, old(View()))
    {
      if pending != [] && pending[0].PendingClose? && active == {} && AllQueuesEmpty(queues) && !maintenanceActive {
        Shutdown();
      }
    }

    method OnSubmission(op: Op)
      requires Valid()
      modifies this, pool
      ensures View() == Coordinator.OnSubmission(env, old(View()), op)
    {
      hide ValidEnv, Coordinator.DispatchIfIdle, Coordinator.DispatchAvailable, StopIfClosed;
      if lifecycle != Open {
        Send(OpReply(op, Rejected(StoreClosed)));
        return;
      }
      order := order + [op];
      if maintenanceActive || pending != [] {
        pending := pending + [PendingSubmission(op)];
        return;
      }
      Push(op);
      DispatchIfIdle(op.key);
      DispatchAvailable();
      StopIfClosing();
    }

    /** Refills the slot of a completed key. */
    method Release(key: KeyHash)
      requires Valid()
      modifies this, pool
      ensures Valid() && View() == Coordinator.Release(env, old(View()), key)
    {
      hide ValidEnv, Coordinator.DispatchIfIdle, Coordinator.DispatchAvailable;
      active := active - {key};
      DispatchIfIdle(key);
      DispatchAvailable();
      if key !in active && key in queues && queues[key] == [] {
        queues := queues - {key};
      }
    }

    /** A finished operation's slot is refilled before its result is delivered. */
    method OnCompletion(key: KeyHash, outcome: Option<(Op, BlockingResult)>)
      requires Valid()
      requires outcome.Some? ==> Matches(outcome.value.0.operation, outcome.value.1)
      modifies this, pool
      ensures View() == Coordinator.OnCompletion(env, old(View()), key, outcome)
    {
      hide ValidEnv, Coordinator.Release, StopIfClosed, Advance;
      Release(key);
      if outcome.Some? {
        Deliver(outcome.value.0, outcome.value.1);
      }
      AdvancePendingIfReady();
      StopIfClosing();
    }

    method OnMaintenance(id: nat)
      requires Valid()
      modifies this, pool
      ensures View() == Coordinator.OnMaintenance(env, old(View()), id)
    {
      hide ValidEnv, StopIfClosed, Advance;
      if lifecycle != Open {
        Send(MaintenanceReply(id, Some(Err(StoreClosed))));
        return;
      }
      pending := pending + [PendingMaintenance(id, |order|)];
      AdvancePendingIfReady();
      StopIfClosing();
    }

    method OnMaintenanceCompletion(report: Option<(nat, Result<()>)>)
      requires Valid()
      modifies this, pool
      ensures View() == Coordinator.OnMaintenanceCompletion(env, old(View()), report)
    {
      hide ValidEnv, StopIfClosed, Advance;
      maintenanceActive := false;
      if report.Some? {
        Send(MaintenanceReply(report.value.0, Some(report.value.1)));
      }
      AdvancePendingIfReady();
      StopIfClosing();
    }

    method OnFlush(id: nat)
      requires Valid()
      modifies this, pool
      ensures View() == Coordinator.OnFlush(env, old(View()), id)
    {
      hide ValidEnv, StopIfClosed, Advance;
      if lifecycle != Open {
        Send(FlushReply(id, Err(StoreClosed)));
        return;
      }
      pending := pending + [PendingFlush(id, |order|)];
      AdvancePendingIfReady();
      StopIfClosing();
    }

    method OnClose(id: nat)
      requires Valid()
      modifies this, pool
      ensures View() == Coordinator.OnClose(env, old(View()), id)
    {
      hide ValidEnv, StopIfClosed, Advance;
      match lifecycle {
        case Open =>
          lifecycle := Closing;
          pending := pending + [PendingClose(id)];
        case Closing =>
          pending := pending + [PendingClose(id)];
        case Closed =>
          Send(CloseReply(id, Ok(())));
        case ShutdownFailed =>
          Send(CloseReply(id, Err(ShutdownFailure)));
        case Failed =>
          Send(CloseReply(id, Err(ShutdownFailure)));
      }
      AdvancePendingIfReady();
      StopIfClosing();
    }

    /** One iteration of the receive loop. */
    method HandleEvent()
      requires Valid() && channel != []
      requires channel[0].Completion? && channel[0].outcome.Some? ==>
        Matches(channel[0].outcome.value.0.operation, channel[0].outcome.value.1)
      modifies this, pool
      ensures View() == Handle(env, old(View()))
    {
      hide ValidEnv, Coordinator.OnSubmission, Coordinator.OnCompletion, Coordinator.OnMaintenance,
        Coordinator.OnMaintenanceCompletion, Coordinator.OnFlush, Coordinator.OnClose;
      var event := channel[0];
      channel := channel[1..];
      match event
      case Submission(op) => OnSubmission(op);
      case Completion(key, outcome) => OnCompletion(key, outcome);
      case Maintenance(id) => OnMaintenance(id);
      case MaintenanceCompletion(report) => OnMaintenanceCompletion(report);
      case Flush(id) => OnFlush(id);
      case Close(id) => OnClose(id);
    }
  }
}
