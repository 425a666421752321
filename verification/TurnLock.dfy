/** The per-session turn lock: a registry of cancellation tokens that refuses a second turn, and
    the guard whose release frees the session. */
module TurnLock {
  import opened Wrappers

  class Token {
    var cancelled: bool

    constructor ()
      ensures !cancelled
    {
      cancelled := false;
    }

    method Cancel()
      modifies this
      ensures cancelled
    {
      cancelled := true;
    }
  }

  /** Held for as long as a turn runs. */
  class TurnGuard {
    const registry: CancelRegistry
    const session: string
    const token: Token

    constructor (registry: CancelRegistry, session: string, token: Token)
      ensures this.registry == registry && this.session == session && this.token == token
    {
      this.registry, this.session, this.token := registry, session, token;
    }
  }

  /** Every entry belongs to exactly one held guard, and every held guard to its entry. */
  ghost predicate Locked(inner: map<string, Token>, held: set<TurnGuard>, registry: CancelRegistry) {
    && (forall g :: g in held ==> g.registry == registry && g.session in inner && inner[g.session] == g.token)
    && (forall s :: s in inner ==> exists g :: g in held && g.session == s)
    && (forall g, h :: g in held && h in held && g.session == h.session ==> g == h)
    && (forall s, t :: s in inner && t in inner && inner[s] == inner[t] ==> s == t)
  }

  lemma LockOne(inner: map<string, Token>, held: set<TurnGuard>, guard: TurnGuard)
    requires Locked(inner, held, guard.registry) && guard.session !in inner
    requires forall h :: h in held ==> h.token != guard.token
    ensures Locked(inner[guard.session := guard.token], held + {guard}, guard.registry)
  {
    var inner1 := inner[guard.session := guard.token];
    forall s | s in inner1 ensures exists g :: g in held + {guard} && g.session == s {
      if s == guard.session {
        assert guard in held + {guard};
      } else {
        var g :| g in held && g.session == s;
        assert g in held + {guard};
      }
    }
  }

  class CancelRegistry {
    var inner: map<string, Token>
    ghost var held: set<TurnGuard>   // begun, not dropped

    ghost predicate Valid() reads this { Locked(inner, held, this) }

    ghost predicate Running(session: string) reads this {
      exists g :: g in held && g.session == session
    }

    constructor ()
      ensures Valid() && held == {}
    {
      inner, held := map[], {};
    }

    /** A fresh token if no turn of the session is in flight; else nothing happens. */
    method TryBeginTurn(session: string) returns (guard: Option<TurnGuard>)
      requires Valid()
      modifies this
      ensures Valid() && guard.Some? == !old(Running(session))
      ensures guard.None? ==> held == old(held) && inner == old(inner)
      ensures guard.Some? ==>
                && fresh(guard.value) && fresh(guard.value.token) && !guard.value.token.cancelled
                && guard.value.session == session && held == old(held) + {guard.value}
                && inner == old(inner)[session := guard.value.token]
    {
      if session in inner { return None; }
      var token := new Token();
      var g := new TurnGuard(this, session, token);
      LockOne(inner, held, g);
      inner := inner[session := token];
      held := held + {g};
      return Some(g);
    }

    /** Fires the running turn's token, and no other; tells whether there was one. */
    method Cancel(session: string) returns (found: bool)
      requires Valid()
      modifies if session in inner then {inner[session]} else {}
      ensures Valid() && found == Running(session)
      ensures forall g :: g in held ==> g.token.cancelled == (old(g.token.cancelled) || g.session == session)
    {
      if session in inner {
        inner[session].Cancel();
        return true;
      }
      return false;
    }

    predicate IsActive(session: string)
      requires Valid()
      reads this
      ensures IsActive(session) == Running(session)
    {
      session in inner
    }
  }

  /** The drop of a guard frees its session, whatever other turns began since. */
  method Drop(guard: TurnGuard)
    requires guard.registry.Valid() && guard in guard.registry.held
    modifies guard.registry
    ensures guard.registry.Valid() && guard.registry.held == old(guard.registry.held) - {guard}
    ensures !guard.registry.Running(guard.session)
    ensures forall s :: s != guard.session ==> guard.registry.Running(s) == old(guard.registry.Running(s))
  {
    var r := guard.registry;
    r.inner := r.inner - {guard.session};
    r.held := r.held - {guard};
    assert forall g :: g in old(r.held) && g != guard ==> g in r.held;
  }
}
