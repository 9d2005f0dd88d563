/** The lazily grown worker pool. */
module Workers {
  import opened EngineTypes

  /** What the platform decides. Every outcome is indexed so that a run may use any sequence of them. */
  datatype Env = Env(
    limit: nat,
    spawn: nat -> bool,
    choose: (nat, set<KeyHash>) -> KeyHash,
    panics: nat -> bool)

  /** A non-zero limit, and map iteration that yields a member. */
  ghost predicate ValidEnv(env: Env) {
    && env.limit > 0
    && forall n: nat, keys: set<KeyHash> :: keys != {} ==> env.choose(n, keys) in keys
  }

  datatype Pool = Pool(workers: nat, attempts: nat, open: bool)

  /** Joining the pool succeeds: no worker has panicked. */
  predicate Joins(env: Env, pool: Pool) {
    forall worker :: 0 <= worker < pool.workers ==> !env.panics(worker)
  }

  function Min(a: nat, b: nat): nat {
    if a < b then a else b
  }

  /** Starts workers one at a time until the requirement, capped by the capacity, is met or a start fails. */
  function Prepared(env: Env, pool: Pool, required: nat): (r: (Pool, bool))
    ensures r.0.open == pool.open
    ensures pool.workers <= r.0.workers
    ensures r.0.workers <= pool.workers || r.0.workers <= Min(required, env.limit)
    ensures r.1 <==> Min(required, env.limit) <= r.0.workers
    ensures (exists i: nat :: pool.attempts <= i < r.0.attempts && !env.spawn(i)) <==> !r.1
    ensures r.0.attempts - pool.attempts == r.0.workers - pool.workers + if r.1 then 0 else 1
    decreases env.limit - pool.workers
  {
    if pool.workers >= Min(required, env.limit) then
      (pool, true)
    else if !env.spawn(pool.attempts) then
      (pool.(attempts := pool.attempts + 1), false)
    else
      Prepared(env, pool.(workers := pool.workers + 1, attempts := pool.attempts + 1), required)
  }

  lemma PreparedStep(env: Env, pool: Pool, required: nat)
    ensures pool.workers >= Min(required, env.limit) ==> Prepared(env, pool, required) == (pool, true)
    ensures pool.workers < Min(required, env.limit) && env.spawn(pool.attempts) ==>
      Prepared(env, pool, required) == Prepared(env, Pool(pool.workers + 1, pool.attempts + 1, pool.open), required)
    ensures pool.workers < Min(required, env.limit) && !env.spawn(pool.attempts) ==>
      Prepared(env, pool, required) == (Pool(pool.workers, pool.attempts + 1, pool.open), false)
  {
  }

  class WorkerPool {
    const env: Env
    /** The workers started so far, by index. */
    var handles: seq<nat>
    var attempts: nat
    var sender: bool
    var jobs: seq<Job>

    ghost function View(): Pool
      reads this
    {
      Pool(|handles|, attempts, sender)
    }

    ghost predicate Valid()
      reads this
    {
      forall i :: 0 <= i < |handles| ==> handles[i] == i
    }

    constructor (env: Env)
      ensures Valid() && this.env == env && View() == Pool(0, 0, true) && jobs == []
    {
      this.env := env;
      handles, attempts, sender, jobs := [], 0, true, [];
    }

    method Prepare(required: nat) returns (ok: bool)
      requires Valid()
      modifies this`handles, this`attempts
      ensures Valid() && (View(), ok) == Prepared(env, old(View()), required)
    {
      hide Prepared;
      while |handles| < Min(required, env.limit)
        invariant Valid() && sender == old(sender)
        invariant Prepared(env, View(), required) == Prepared(env, old(View()), required)
        decreases env.limit - |handles|
      {
        PreparedStep(env, View(), required);
        attempts := attempts + 1;
        if !env.spawn(attempts - 1) {
          return false;
        }
        handles := handles + [|handles|];
      }
      PreparedStep(env, View(), required);
      return true;
    }

    /** Sends a job. It fails only when the sending side was taken by a shutdown. */
    method Execute(job: Job) returns (ok: bool)
      modifies this`jobs
      ensures ok == sender
      ensures jobs == if sender then old(jobs) + [job] else old(jobs)
    {
      if sender {
        jobs := jobs + [job];
      }
      return sender;
    }

    /** Closes the job channel and joins every worker, even after one turns out to have panicked. */
    method Shutdown() returns (ok: bool)
      requires Valid()
      modifies this`handles, this`sender
      ensures Valid() && View() == Pool(0, old(attempts), false)
      ensures ok <==> Joins(env, old(View()))
    {
      sender := false;
      var panicked := false;
      var joined := 0;
      while handles != []
        invariant attempts == old(attempts) && !sender
        invariant joined + |handles| == old(|handles|) && handles == old(handles)[joined..]
        invariant panicked <==> exists worker :: 0 <= worker < joined && env.panics(worker)
        decreases |handles|
      {
        assert handles[0] == joined;
        panicked := panicked || env.panics(handles[0]);
        handles := handles[1..];
        joined := joined + 1;
      }
      return !panicked;
    }
  }
}
