/** How a run moves forward: nothing already established is taken back. */
module Runs {
  import opened Cells
  import opened Server
  import opened ServerFacts
  import opened Replica
  import opened Client
  import opened Conservation
  import opened System
  import opened SystemProofs

  ghost predicate DevicesMove(s: System, u: System) {
    forall d :: d in s.devices ==> d in u.devices && Moves(s.devices[d], u.devices[d])
  }

  /** `u` is a later state than `s`. */
  ghost predicate Later(s: System, u: System) {
    && Grows(s.server, u.server)
    && Extends(s.history, u.history)
    && DevicesMove(s, u)
    && s.requests <= u.requests && s.exchanges <= u.exchanges
  }

  lemma LaterReflexive(s: System, t: Schema)
    requires Inv(s, t)
    ensures Later(s, s)
  {
    GrowsReflexive(s.server);
    forall d | d in s.devices ensures Moves(s.devices[d], s.devices[d]) {
      MovesReflexive(s.devices[d]);
    }
  }

  lemma MovesTransitive(c: Client, d: Client, e: Client)
    requires Moves(c, d) && Moves(d, e)
    ensures Moves(c, e)
  {
    if e.scopes == map[] {
      assert forall x :: x !in d.scopes;
      assert d.scopes == map[];
      LogGrowsTransitive(c, d, e);
    }
  }

  lemma LaterTransitive(s: System, u: System, v: System, t: Schema)
    requires Inv(s, t) && Inv(u, t) && Inv(v, t) && Later(s, u) && Later(u, v)
    ensures Later(s, v)
  {
    GrowsTransitive(s.server, u.server, v.server);
    forall d | d in s.devices ensures d in v.devices && Moves(s.devices[d], v.devices[d]) {
      MovesTransitive(s.devices[d], u.devices[d], v.devices[d]);
    }
  }

  /** A change of one device and its own history moves the system forward. */
  lemma DeviceLater(s: System, d: string, c: Client, g: History, t: Schema)
    requires Inv(s, t) && d in s.devices && Moves(s.devices[d], c) && Extends(s.history, g)
    ensures Later(s, SetDevice(s, d, c).(history := g))
  {
    LaterReflexive(s, t);
  }

  lemma RequestLater(s: System, u: System, r: Request, t: Schema)
    requires Later(s, u)
    ensures Later(s, u.(requests := u.requests + {r}))
  {
    var v := u.(requests := u.requests + {r});
    assert DevicesMove(s, v);
  }

  lemma LocalLater(s: System, d: string, op: LocalOp, env: Env)
    requires Inv(s, env.schema) && WellFormed(env.schema)
    ensures Later(s, StepLocal(s, d, op, env))
  {
    LaterReflexive(s, env.schema);
    if d in s.devices && Apply(s.devices[d], op, env.schema).Ok? {
      LocalKeeps(s.devices[d], op, s.server, s.history, env.schema);
      var n := Apply(s.devices[d], op, env.schema).value;
      DeviceLater(s, d, n, Record(s.history, s.devices[d], n), env.schema);
    }
  }

  lemma SendScopedLater(s: System, d: string, scope: string, interest: Interest, env: Env)
    requires Inv(s, env.schema)
    ensures Later(s, StepSendScoped(s, d, scope, interest, env))
  {
    LaterReflexive(s, env.schema);
    ExtendsReflexive(s.history);
    if d in s.devices && PartialRequestOf(s.devices[d], scope, interest, env.schema).Ok? {
      RequestKeeps(s.devices[d], scope, interest, s.server, s.history, env.schema);
      var r := PartialRequestOf(s.devices[d], scope, interest, env.schema).value;
      DeviceLater(s, d, r.client, s.history, env.schema);
      RequestLater(s, SetDevice(s, d, r.client), Scoped(r.request), env.schema);
    }
  }

  lemma UnsubscribeLater(s: System, d: string, scope: string, env: Env)
    requires Inv(s, env.schema)
    ensures Later(s, StepUnsubscribe(s, d, scope))
  {
    LaterReflexive(s, env.schema);
    ExtendsReflexive(s.history);
    if d in s.devices && RemoveScope(s.devices[d], scope).Ok? {
      UnsubscribeKeeps(s.devices[d], scope, s.server, s.history, env.schema);
      DeviceLater(s, d, RemoveScope(s.devices[d], scope).value, s.history, env.schema);
    }
  }

  lemma RewindLater(s: System, d: string, env: Env)
    requires Inv(s, env.schema) && d in s.devices
    ensures Later(s, SetDevice(s, d, ResetCursor(s.devices[d])))
  {
    ExtendsReflexive(s.history);
    RewindKeeps(s.devices[d], s.server, s.history, env.schema);
    DeviceLater(s, d, ResetCursor(s.devices[d]), s.history, env.schema);
  }

  lemma DeliverLater(s: System, e: Exchange, env: Env)
    requires Inv(s, env.schema)
    ensures Later(s, StepDeliver(s, e, env))
  {
    LaterReflexive(s, env.schema);
    var d := SentIn(e).source;
    if e in s.exchanges && d in s.devices && Complete(s.devices[d], e, env.schema).Ok? {
      if e.FullExchange? {
        FullKeeps(s.devices[d], e, s.server, s.history, env.schema);
      } else {
        ScopedKeeps(s.devices[d], e, s.server, s.history, env.schema);
      }
      ExtendsReflexive(s.history);
      DeviceLater(s, d, Complete(s.devices[d], e, env.schema).value, s.history, env.schema);
    }
  }

  lemma ServeLater(s: System, r: Request, sec: Security, env: Env)
    requires Inv(s, env.schema)
    ensures Later(s, StepServe(s, r, sec, env))
  {
    LaterReflexive(s, env.schema);
    if r in s.requests && Answered(s.server, r, sec, env).Ok? {
      ServeKeeps(s.server, r, s.devices[PayloadOf(r).source], sec, env, s.history);
      var v := Answered(s.server, r, sec, env).value;
      ServedLater(s, v.state, v.exchange, env.schema);
      assert StepServe(s, r, sec, env) == s.(server := v.state, exchanges := s.exchanges + {v.exchange});
    }
  }

  lemma ServedLater(s: System, u: State, e: Exchange, t: Schema)
    requires Inv(s, t) && Grows(s.server, u)
    ensures Later(s, s.(server := u, exchanges := s.exchanges + {e}))
  {
    LaterReflexive(s, t);
  }

  lemma StepLater(s: System, a: Action, env: Env)
    requires Inv(s, env.schema) && WellFormed(env.schema)
    ensures Later(s, Step(s, a, env))
  {
    LaterReflexive(s, env.schema);
    match a
    case Join(d) =>
    case Send(d) =>
      if d in s.devices && LocalDelta(s.devices[d], env.schema).Ok? {
        RequestLater(s, s, Full(DeltaOf(s.devices[d], env.schema)), env.schema);
      }
    case Serve(r, sec) => ServeLater(s, r, sec, env);
    case Deliver(e) => DeliverLater(s, e, env);
    case Local(d, op) => LocalLater(s, d, op, env);
    case SendScoped(d, scope, interest) => SendScopedLater(s, d, scope, interest, env);
    case Unsubscribe(d, scope) => UnsubscribeLater(s, d, scope, env);
    case Rewind(d) => if d in s.devices { RewindLater(s, d, env); }
  }

  /** From a state in order, a run keeps order and only moves forward. */
  lemma {:induction false} RunLater(s: System, actions: seq<Action>, env: Env)
    requires Inv(s, env.schema) && WellFormed(env.schema)
    ensures Inv(Run(s, actions, env), env.schema) && Later(s, Run(s, actions, env))
    decreases |actions|
  {
    if actions == [] {
      LaterReflexive(s, env.schema);
    } else {
      var n := |actions| - 1;
      RunLater(s, actions[..n], env);
      var u := Run(s, actions[..n], env);
      StepKeeps(u, actions[n], env);
      StepLater(u, actions[n], env);
      LaterTransitive(s, u, Step(u, actions[n], env), env.schema);
    }
  }
}
