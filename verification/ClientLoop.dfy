/** The runtime object around the reducer: it holds the current state by reference, executes effects and keeps the
    stored sessions in step with the ones in memory by comparing map references. */
module ClientLoop {
  import C = ClientState
  import H = ClientReducer
  import R = ClientRuntime
  import S = ClientSessions

  /** How a spawn ends, from what the launcher and the backend do. */
  function OutcomeOf(wraps: bool, sandboxed: bool, panics: bool, refused: bool): R.Outcome {
    if !wraps || (panics && !sandboxed) then R.FailedEarly
    else if panics then R.PanickedHolding
    else if refused then R.BackendRefused(sandboxed)
    else R.Up(sandboxed)
  }

  class Loop {
    var state: H.StateRef
    var store: map<C.Sid, C.Session>
    var cleanups: map<C.Fid, R.Cid>
    var spawning: map<C.Fid, R.Spawn>
    var completed: map<C.Fid, R.Completion>
    var failed: map<C.Fid, R.Spawn>
    var accepted: map<C.Fid, R.Spawn>
    var acquired: nat
    var ran: seq<R.Cid>
    var lost: set<R.Cid>
    var replies: seq<R.Reply>

    ghost function View(): R.Runtime
      reads this, state.sessions, H.Slices(state.sessions.m)
    {
      R.Runtime(H.Value(state), store, cleanups, spawning, completed, failed, accepted, acquired, ran, lost, replies)
    }

    /** What is stored is what is in memory. */
    ghost predicate Agrees()
      reads this, state.sessions, H.Slices(state.sessions.m)
    {
      store == H.SessionsOf(state.sessions.m)
    }

    constructor ()
      ensures View() == R.IDLE
    {
      var sessions := new H.SessionMap();
      state, store, cleanups := H.StateRef(sessions, map[], 0, 1), map[], map[];
      spawning, completed, failed, accepted := map[], map[], map[], map[];
      acquired, ran, lost, replies := 0, [], {}, [];
      new;
      assert H.SessionsOf(map[]) == map[];
    }

    method InvokeFrameCleanup(f: C.Fid)
      modifies this`ran, this`cleanups
      ensures View() == R.RunCleanup(old(View()), f)
    {
      if f in cleanups {
        var c := cleanups[f];
        cleanups := cleanups - {f};
        ran := ran + [c];
      }
    }

    method AcceptSpawn(f: C.Fid, spawn: R.Spawn)
      modifies this`spawning, this`accepted
      ensures View() == R.Exec(old(View()), C.EffSpawn(spawn.sid, f, spawn.conn, spawn.req))
    {
      spawning := spawning[f := spawn];
      accepted := accepted[f := spawn];
    }

    method Answer(reply: R.Reply)
      modifies this`replies
      ensures View() == R.Exec(old(View()), C.EffReply(reply.conn, reply.req, reply.ok, reply.frame))
    {
      replies := replies + [reply];
    }

    method PersistSnapshot()
      modifies this`store
      ensures View() == R.Exec(old(View()), C.EffPersist)
    {
      Save();
    }

    method Execute(eff: C.Effect)
      modifies this
      ensures state == old(state) && View() == R.Exec(old(View()), eff)
    {
      match eff
      case EffSpawn(sid, f, conn, req) => AcceptSpawn(f, R.Spawn(sid, conn, req));
      case EffRelease(f) => InvokeFrameCleanup(f);
      case EffReply(conn, req, ok, f) => Answer(R.Reply(conn, req, ok, f));
      case EffPersist => PersistSnapshot();
      case _ =>
    }

    /** Save upserts every session in memory and removes nothing. */
    method Save()
      modifies this`store
      ensures store == old(store) + H.SessionsOf(state.sessions.m)
    {
      var entries := state.sessions.m;
      var todo := entries.Keys;
      while todo != {}
        invariant todo <= entries.Keys
        invariant store == old(store) + map sid | sid in entries && sid !in todo :: H.SessionOf(entries[sid])
        decreases todo
      {
        var sid :| sid in todo;
        todo := todo - {sid};
        store := store[sid := H.SessionOf(entries[sid])];
      }
      assert (map sid | sid in entries && sid !in todo :: H.SessionOf(entries[sid])) == H.SessionsOf(entries);
    }

    /** The deletions of reconcilePersist: every stored session that was there before and is gone now. */
    method DeleteGone(prev: H.SessionMap)
      modifies this`store
      ensures store == old(store) - (prev.m.Keys - state.sessions.m.Keys)
    {
      var todo := prev.m.Keys;
      while todo != {}
        invariant todo <= prev.m.Keys
        invariant store == old(store) - set sid | sid in prev.m.Keys && sid !in todo && sid !in state.sessions.m
        decreases todo
      {
        var sid :| sid in todo;
        todo := todo - {sid};
        if sid !in state.sessions.m {
          store := store - {sid};
        }
      }
      assert (set sid | sid in prev.m.Keys && sid !in todo && sid !in state.sessions.m)
             == prev.m.Keys - state.sessions.m.Keys;
    }

    /** reconcilePersist on a new map: delete what is gone, and save unless nothing is left. */
    method WriteDelta(prev: H.SessionMap, ghost before: map<C.Sid, C.Session>, ghost next: map<C.Sid, C.Session>)
      requires before == H.SessionsOf(prev.m) && next == H.SessionsOf(state.sessions.m)
      requires store == before || store == before + next
      modifies this`store
      ensures store == next
    {
      R.ReconcileStore(store, before, next);
      assert prev.m.Keys == before.Keys && state.sessions.m.Keys == next.Keys;
      DeleteGone(prev);
      if state.sessions.m == map[] {
        assert next == map[];
        return;
      }
      assert next == H.SessionsOf(state.sessions.m);
      Save();
    }

    /** reconcilePersist: nothing when the map is the very same object. Comparing references comes to the same as
        comparing contents, and leaves the store in agreement. */
    method ReconcilePersist(prev: H.SessionMap, ghost before: C.State, ghost rt: R.Runtime)
      requires rt == View() && before.sessions == H.SessionsOf(prev.m)
      requires store == before.sessions || store == before.sessions + rt.state.sessions
      modifies this`store
      ensures View() == R.Reconcile(rt, before) && Agrees()
    {
      R.ReconcileIs(rt, before);
      ghost var next := rt.state.sessions;
      if state.sessions == prev {
        assert next + next == next;
      } else {
        WriteDelta(prev, before.sessions, next);
      }
      assert View() == rt.(store := next);
    }

    /** The part of dispatch behind the reducer: take the new state, execute every effect, then reconcile persistence
        against the old map. */
    method SettleState(next: H.StateRef, effects: seq<C.Effect>, ghost rt: R.Runtime, ghost v: C.State)
      requires rt == View() && Agrees() && v == H.Value(next)
      modifies this
      ensures View() == R.Settle(rt, v, effects) && Agrees()
    {
      var prev := state.sessions;
      state := next;
      assert View() == rt.(state := v);
      ExecuteAll(effects);
      R.ExecAllStore(rt.(state := v), effects);
      R.ExecAllFrame(rt.(state := v), effects);
      ReconcilePersist(prev, rt.state, R.ExecAll(rt.(state := v), effects));
    }

    method Dispatch(ev: C.Event)
      requires S.Sound(H.Value(state)) && Agrees()
      modifies this
      ensures View() == R.Dispatch(old(View()), ev) && Agrees()
    {
      ghost var rt := View();
      var next, effects := H.ReduceRef(state, ev);
      SettleState(next, effects, rt, C.Reduce(rt.state, ev).0);
    }

    method ExecuteAll(effects: seq<C.Effect>)
      modifies this
      ensures state == old(state) && View() == R.ExecAll(old(View()), effects)
    {
      var i := 0;
      assert effects[0..] == effects;
      while i < |effects|
        invariant 0 <= i <= |effects| && state == old(state)
        invariant R.ExecAll(View(), effects[i..]) == R.ExecAll(old(View()), effects)
      {
        assert effects[i..][0] == effects[i] && effects[i..][1..] == effects[i + 1..];
        Execute(effects[i]);
        i := i + 1;
      }
    }

    /** spawnTargetAlive. */
    method SpawnTargetAlive(sid: C.Sid, f: C.Fid) returns (alive: bool)
      ensures alive == R.TargetAlive(H.Value(state), sid, f)
    {
      if sid !in state.sessions.m {
        return false;
      }
      var frames := state.sessions.m[sid].frames;
      for i := 0 to frames.Length
        invariant forall k | 0 <= k < i :: frames[..][k].id != f
      {
        if frames[i].id == f {
          assert frames[..][i].id == f;
          return true;
        }
      }
      return false;
    }

    /** handleSpawnComplete and discardSpawnResult up to the event they dispatch: where the closure goes. */
    method TakeClosure(f: C.Fid, alive: bool)
      requires f in completed && alive == R.TargetAlive(H.Value(state), completed[f].spawn.sid, f)
      modifies this`completed, this`ran, this`cleanups
      ensures View() == R.Store(old(View()), f)
    {
      var cleanup := completed[f].cleanup;
      completed := completed - {f};
      if cleanup.Some? {
        if alive {
          cleanups := cleanups[f := cleanup.value];
        } else {
          ran := ran + [cleanup.value];
        }
      }
    }

    /** handleSpawnComplete and discardSpawnResult. */
    method HandleSpawnComplete(f: C.Fid, boot: C.Boot)
      requires f in completed && S.Sound(H.Value(state)) && Agrees()
      modifies this
      ensures View() == R.Complete(old(View()), f, boot) && Agrees()
    {
      ghost var rt := View();
      var spawn := completed[f].spawn;
      var alive := SpawnTargetAlive(spawn.sid, f);
      assert View() == rt;
      TakeClosure(f, alive);
      if alive {
        Dispatch(C.EvSpawned(spawn.sid, f, spawn.conn, spawn.req, boot));
      } else {
        Dispatch(C.EvSpawnFailed(f, spawn.conn, spawn.req));
      }
    }

    /** A failed spawn reaches the loop as an event. */
    method HandleSpawnFailed(f: C.Fid)
      requires f in failed && S.Sound(H.Value(state)) && Agrees()
      modifies this
      ensures View() == R.Failure(old(View()), f) && Agrees()
    {
      ghost var rt := View();
      var spawn := failed[f];
      failed := failed - {f};
      assert View() == rt.(failed := rt.failed - {f});
      Dispatch(C.EvSpawnFailed(f, spawn.conn, spawn.req));
    }

    /** spawnFrameWindow, as its effects on the resources it holds: `refused` and `panics` are what the backend and the
        launcher do. */
    method SpawnFrameWindow(f: C.Fid, wraps: bool, sandboxed: bool, panics: bool, refused: bool)
      requires f in spawning
      modifies this`spawning, this`failed, this`completed, this`acquired, this`ran, this`lost
      ensures View() == R.SpawnEnds(old(View()), f, OutcomeOf(wraps, sandboxed, panics, refused))
    {
      var spawn := spawning[f];
      spawning := spawning - {f};
      if !wraps {
        failed := failed[f := spawn];
        return;
      }
      var cleanup := C.None;
      if sandboxed {
        cleanup := C.Some(acquired);
        acquired := acquired + 1;
      }
      FinishSpawn(f, spawn, cleanup, panics, refused);
    }

    /** The rest of spawnFrameWindow, with the closure it holds: dropped by a panic, run when the backend refuses, else
        carried to the loop. */
    method FinishSpawn(f: C.Fid, spawn: R.Spawn, cleanup: C.Option<R.Cid>, panics: bool, refused: bool)
      modifies this`failed, this`completed, this`ran, this`lost
      ensures failed == if panics || refused then old(failed)[f := spawn] else old(failed)
      ensures completed
              == if panics || refused then old(completed) else old(completed)[f := R.Completion(spawn, cleanup)]
      ensures ran == if !panics && refused && cleanup.Some? then old(ran) + [cleanup.value] else old(ran)
      ensures lost == if panics && cleanup.Some? then old(lost) + {cleanup.value} else old(lost)
    {
      if panics {
        failed := failed[f := spawn];
        if cleanup.Some? {
          lost := lost + {cleanup.value};
        }
        return;
      }
      if refused {
        if cleanup.Some? {
          ran := ran + [cleanup.value];
        }
        failed := failed[f := spawn];
        return;
      }
      completed := completed[f := R.Completion(spawn, cleanup)];
    }

    /** One turn of the event loop. */
    method Turn(step: R.Step)
      requires R.RuntimeOk(View())
      modifies this
      ensures View() == R.Apply(old(View()), step) && R.RuntimeOk(View())
    {
      R.ApplyOk(View(), step);
      S.SoundGood(H.Value(state));
      match step
      case Handle(ev) => Dispatch(ev);
      case Ends(f, outcome) =>
        if f in spawning {
          SpawnFrameWindow(f, !outcome.FailedEarly?, R.Acquires(outcome), outcome.PanickedHolding?,
                           outcome.BackendRefused?);
        }
      case Completes(f, boot) =>
        if f in completed {
          HandleSpawnComplete(f, boot);
        }
      case Fails(f) =>
        if f in failed {
          HandleSpawnFailed(f);
        }
    }

    /** Whatever arrives, in whatever order: every promise about RunSteps holds of the object. */
    method Run(steps: seq<R.Step>)
      requires View() == R.IDLE
      modifies this
      ensures View() == R.RunSteps(steps) && Agrees()
    {
      R.IdleOk();
      assert steps[..0] == [];
      for k := 0 to |steps|
        invariant View() == R.RunSteps(steps[..k]) && R.RuntimeOk(View())
      {
        assert steps[..k + 1][..k] == steps[..k];
        Turn(steps[k]);
      }
      assert steps[..|steps|] == steps;
    }
  }
}
