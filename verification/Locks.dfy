/**
 InProcessLockProvider: one reference-counted lock entry per scope, created by the first task
 that asks for the scope and reclaimed by the last one that leaves.

 The async generator is cut where it can be suspended: a task enters, waits, is granted the lock
 or gives up (timeout or cancellation), and later exits. Each piece runs without interruption.
 Any waiter may be granted a free lock, which allows every wake-up order asyncio could choose.
 */
module Locks {
  import opened Wrappers

  type Scope = string
  type Task = nat

  /** Where a task stands: queued for a scope or holding it. */
  datatype Place = Waiting(scope: Scope) | Holding(scope: Scope)

  predicate ValidScope(scope: Scope) {
    scope != "" && '\0' !in scope
  }

  predicate Holds(inside: map<Task, Place>, t: Task, scope: Scope) {
    t in inside && inside[t] == Holding(scope)
  }

  predicate Waits(inside: map<Task, Place>, t: Task, scope: Scope) {
    t in inside && inside[t] == Waiting(scope)
  }

  ghost predicate Free(inside: map<Task, Place>, scope: Scope) {
    forall t :: !Holds(inside, t, scope)
  }

  /** One asyncio lock and the number of holders and waiters that refer to it. */
  class LockEntry {
    var locked: bool
    var users: nat
    ghost var holder: Option<Task>
    ghost var waiters: set<Task>

    ghost predicate Valid()
      reads this
    {
      && (locked <==> holder.Some?)
      && (holder.Some? ==> holder.value !in waiters)
      && users == |waiters| + (if holder.Some? then 1 else 0)
    }

    /** The entry knows exactly who waits for and who holds the scope; no two tasks hold it. */
    ghost predicate Knows(inside: map<Task, Place>, scope: Scope)
      reads this
    {
      && (forall t: Task :: t in waiters <==> Waits(inside, t, scope))
      && (forall t: Task :: holder == Some(t) <==> Holds(inside, t, scope))
    }

    constructor ()
      ensures Valid() && users == 0 && holder == None && waiters == {}
    {
      locked := false;
      users := 0;
      holder := None;
      waiters := {};
    }

    method Join(ghost t: Task, ghost inside: map<Task, Place>, ghost scope: Scope)
      requires Valid() && Knows(inside, scope) && t !in inside
      modifies this
      ensures Valid() && users == old(users) + 1 && Knows(inside[t := Waiting(scope)], scope)
    {
      assert !Waits(inside, t, scope) && !Holds(inside, t, scope);
      users := users + 1;
      waiters := waiters + {t};
    }

    method TryLock(ghost t: Task, ghost inside: map<Task, Place>, ghost scope: Scope) returns (got: bool)
      requires Valid() && Knows(inside, scope) && Waits(inside, t, scope)
      modifies this
      ensures Valid() && users == old(users)
      ensures got <==> Free(inside, scope)
      ensures !got ==> unchanged(this)
      ensures Knows(if got then inside[t := Holding(scope)] else inside, scope)
    {
      got := !locked;
      if got {
        locked := true;
        holder := Some(t);
        waiters := waiters - {t};
      } else {
        assert Holds(inside, holder.value, scope);
      }
    }

    method Forget(ghost t: Task, ghost inside: map<Task, Place>, ghost scope: Scope)
      requires Valid() && Knows(inside, scope) && Waits(inside, t, scope)
      modifies this
      ensures Valid() && users == old(users) - 1 && Knows(inside - {t}, scope)
    {
      assert |waiters - {t}| == |waiters| - 1;
      users := users - 1;
      waiters := waiters - {t};
    }

    method Release(ghost t: Task, ghost inside: map<Task, Place>, ghost scope: Scope)
      requires Valid() && Knows(inside, scope) && Holds(inside, t, scope)
      modifies this
      ensures Valid() && users == old(users) - 1 && Knows(inside - {t}, scope) && Free(inside - {t}, scope)
    {
      locked := false;
      users := users - 1;
      holder := None;
      assert forall u: Task :: u != t ==> (Holds(inside - {t}, u, scope) <==> Holds(inside, u, scope));
    }
  }

  /** The two maps place the same tasks in the scope. */
  ghost predicate SameIn(a: map<Task, Place>, b: map<Task, Place>, scope: Scope) {
    forall t: Task :: (Waits(a, t, scope) <==> Waits(b, t, scope)) && (Holds(a, t, scope) <==> Holds(b, t, scope))
  }

  lemma PlacedWithin(inside: map<Task, Place>, t: Task, place: Place, now: map<Task, Place>)
    requires t in inside ==> inside[t].scope == place.scope
    requires now == inside[t := place]
    ensures forall s :: s != place.scope ==> SameIn(inside, now, s)
  {
  }

  lemma RemovedWithin(inside: map<Task, Place>, t: Task)
    requires t in inside
    ensures forall s :: s != inside[t].scope ==> SameIn(inside, inside - {t}, s)
  {
  }

  class InProcessLockProvider {
    var locks: map<Scope, LockEntry>
    /** The tasks inside lock(), and the entry each of them captured when it entered. */
    ghost var inside: map<Task, Place>
    ghost var refs: map<Task, LockEntry>

    /** Everybody inside a scope refers to the entry listed for it, and only scopes in use are listed. */
    ghost predicate Valid()
      reads this, locks.Values
    {
      Linked() && forall s :: s in locks ==> locks[s].Valid() && locks[s].users > 0 && locks[s].Knows(inside, s)
    }

    ghost predicate Linked()
      reads this
    {
      && refs.Keys == inside.Keys
      && (forall t :: t in inside ==> inside[t].scope in locks && locks[inside[t].scope] == refs[t])
      && (forall s, r :: s in locks && r in locks && locks[s] == locks[r] ==> s == r)
    }

    constructor ()
      ensures Valid() && inside == map[]
    {
      locks := map[];
      inside := map[];
      refs := map[];
    }

    /** Every other scope's entry knows what `where` says of its scope. */
    ghost predicate OthersKnow(scope: Scope, where: map<Task, Place>)
      reads this, locks.Values
    {
      forall s :: s in locks && s != scope ==> locks[s].Valid() && locks[s].users > 0 && locks[s].Knows(where, s)
    }

    /** A task that moves within `scope` goes unnoticed by the other scopes. */
    lemma OthersUnmoved(scope: Scope, before: map<Task, Place>)
      requires OthersKnow(scope, before)
      requires forall s :: s != scope ==> SameIn(before, inside, s)
      ensures OthersKnow(scope, inside)
    {
      forall s | s in locks && s != scope ensures locks[s].Knows(inside, s) {
        assert SameIn(before, inside, s);
      }
    }

    /** setdefault, then one more user; an invalid scope is refused before anything happens. */
    method Enter(ghost t: Task, scope: Scope) returns (entry: Option<LockEntry>)
      requires Valid() && t !in inside
      modifies this, locks.Values
      ensures Valid()
      ensures ValidScope(scope) <==> entry.Some?
      ensures entry.Some? ==> inside == old(inside)[t := Waiting(scope)] && refs == old(refs)[t := entry.value]
      ensures entry.Some? ==> locks == old(locks)[scope := entry.value]
      ensures entry.Some? ==> if scope in old(locks) then entry.value == old(locks)[scope] else fresh(entry.value)
      ensures entry.None? ==> inside == old(inside) && locks == old(locks)
    {
      if |scope| == 0 || '\0' in scope {
        return None;
      }
      var e := SetDefault(scope);
      EnterListed(t, scope, e);
      return Some(e);
    }

    method SetDefault(scope: Scope) returns (e: LockEntry)
      requires Valid()
      modifies this`locks
      ensures locks == old(locks)[scope := e]
      ensures if scope in old(locks) then e == old(locks)[scope] else fresh(e)
      ensures Linked() && OthersKnow(scope, inside) && e.Valid() && e.Knows(inside, scope)
    {
      if scope in locks {
        return locks[scope];
      }
      e := new LockEntry();
      locks := locks[scope := e];
    }

    method EnterListed(ghost t: Task, scope: Scope, e: LockEntry)
      requires scope in locks && locks[scope] == e && t !in inside
      requires Linked() && OthersKnow(scope, inside) && e.Valid() && e.Knows(inside, scope)
      modifies this`inside, this`refs, e
      ensures Valid() && inside == old(inside)[t := Waiting(scope)] && refs == old(refs)[t := e]
    {
      e.Join(t, inside, scope);
      Queue(t, scope, e);
    }

    ghost method Queue(t: Task, scope: Scope, e: LockEntry)
      requires scope in locks && locks[scope] == e && t !in inside
      requires Linked() && OthersKnow(scope, inside)
      requires e.Valid() && e.users > 0 && e.Knows(inside[t := Waiting(scope)], scope)
      modifies this`inside, this`refs
      ensures Valid() && inside == old(inside)[t := Waiting(scope)] && refs == old(refs)[t := e]
    {
      ghost var before := inside;
      PlacedWithin(before, t, Waiting(scope), inside[t := Waiting(scope)]);
      inside := inside[t := Waiting(scope)];
      refs := refs[t := e];
      OthersUnmoved(scope, before);
    }

    /** A waiter takes the lock when nobody holds it, and only then. */
    method TryAcquire(ghost t: Task, scope: Scope, entry: LockEntry) returns (got: bool)
      requires Valid() && Waits(inside, t, scope) && refs[t] == entry
      modifies this`inside, entry
      ensures Valid()
      ensures got <==> Free(old(inside), scope)
      ensures inside == if got then old(inside)[t := Holding(scope)] else old(inside)
    {
      got := entry.TryLock(t, inside, scope);
      if got {
        Grant(t, scope, entry);
      }
    }

    ghost method Grant(t: Task, scope: Scope, entry: LockEntry)
      requires t in inside && inside[t].scope == scope && scope in locks && locks[scope] == entry
      requires Linked() && OthersKnow(scope, inside)
      requires entry.Valid() && entry.users > 0 && entry.Knows(inside[t := Holding(scope)], scope)
      modifies this`inside
      ensures Valid() && inside == old(inside)[t := Holding(scope)]
    {
      ghost var before := inside;
      PlacedWithin(before, t, Holding(scope), inside[t := Holding(scope)]);
      inside := inside[t := Holding(scope)];
      OthersUnmoved(scope, before);
    }

    /** A waiter times out or is cancelled. */
    method Abandon(ghost t: Task, scope: Scope, entry: LockEntry)
      requires Valid() && Waits(inside, t, scope) && refs[t] == entry
      modifies this, entry
      ensures Valid() && inside == old(inside) - {t} && refs == old(refs) - {t}
      ensures scope in locks <==> exists u :: u in inside && inside[u].scope == scope
      ensures locks == old(locks) || locks == old(locks) - {scope}
    {
      entry.Forget(t, inside, scope);
      Leave(t, scope, entry);
      Reclaim(scope, entry);
    }

    /** The holder leaves the block: release, then one user less. */
    method Exit(ghost t: Task, scope: Scope, entry: LockEntry)
      requires Valid() && Holds(inside, t, scope) && refs[t] == entry
      modifies this, entry
      ensures Valid() && inside == old(inside) - {t} && refs == old(refs) - {t} && Free(inside, scope)
      ensures scope in locks <==> exists u :: u in inside && inside[u].scope == scope
      ensures locks == old(locks) || locks == old(locks) - {scope}
    {
      entry.Release(t, inside, scope);
      Leave(t, scope, entry);
      Reclaim(scope, entry);
    }

    ghost method Leave(t: Task, scope: Scope, entry: LockEntry)
      requires t in inside && inside[t].scope == scope && scope in locks && locks[scope] == entry
      requires Linked() && OthersKnow(scope, inside) && entry.Valid() && entry.Knows(inside - {t}, scope)
      modifies this`inside, this`refs
      ensures inside == old(inside) - {t} && refs == old(refs) - {t}
      ensures Linked() && OthersKnow(scope, inside) && entry.Valid() && entry.Knows(inside, scope)
    {
      ghost var before := inside;
      RemovedWithin(before, t);
      inside := inside - {t};
      refs := refs - {t};
      OthersUnmoved(scope, before);
    }

    /** The last user removes the entry, if it is still the one listed for the scope. */
    method Reclaim(scope: Scope, entry: LockEntry)
      requires scope in locks && locks[scope] == entry
      requires Linked() && OthersKnow(scope, inside) && entry.Valid() && entry.Knows(inside, scope)
      modifies this`locks
      ensures Valid()
      ensures scope in locks <==> exists u :: u in inside && inside[u].scope == scope
      ensures locks == old(locks) || locks == old(locks) - {scope}
    {
      if entry.users == 0 && scope in locks && locks[scope] == entry {
        assert entry.waiters == {} && entry.holder == None;
        assert forall u :: u in inside && inside[u].scope == scope ==>
                 Waits(inside, u, scope) || Holds(inside, u, scope);
        locks := locks - {scope};
      } else {
        assert entry.waiters != {} || entry.holder.Some?;
        if u :| u in entry.waiters {
          assert Waits(inside, u, scope);
        } else {
          assert Holds(inside, entry.holder.value, scope);
        }
      }
    }

    /** No two tasks ever hold one scope, even across reclamation of its entry. */
    lemma MutualExclusion(t: Task, u: Task, scope: Scope)
      requires Valid() && Holds(inside, t, scope) && Holds(inside, u, scope)
      ensures t == u
    {
      assert scope in locks && locks[scope].Knows(inside, scope);
    }

    /** A listed scope has someone inside. */
    lemma SomeoneIsInside(scope: Scope)
      requires Valid() && scope in locks
      ensures exists t :: t in inside && inside[t].scope == scope
    {
      var e := locks[scope];
      if u :| u in e.waiters {
        assert Waits(inside, u, scope);
      } else {
        assert Holds(inside, e.holder.value, scope);
      }
    }

    /** Nothing is leaked: with no task inside, the map is empty. */
    lemma EmptyWhenIdle()
      requires Valid()
      ensures inside == map[] <==> locks == map[]
    {
      if s :| s in locks {
        SomeoneIsInside(s);
      }
      if t :| t in inside {
        assert inside[t].scope in locks;
      }
    }

    /** `users` is the number of tasks inside the scope. */
    lemma UsersCountTasks(scope: Scope)
      requires Valid() && scope in locks
      ensures locks[scope].users == |set t | t in inside && inside[t].scope == scope|
    {
      var e := locks[scope];
      var tasks := set t | t in inside && inside[t].scope == scope;
      var all := e.waiters + (if e.holder.Some? then {e.holder.value} else {});
      forall t ensures t in tasks <==> t in all {
        assert t in tasks <==> Waits(inside, t, scope) || Holds(inside, t, scope);
      }
      assert tasks == all;
    }
  }
}
