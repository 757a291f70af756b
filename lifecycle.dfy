/**
  The behaviour every revision of the pool manager shares, on values: the pool
  factory (open, apply limits, ping, close-on-failure), the lazy getter of one
  slot, the close path over both slots, and runs of these operations.
*/
module Lifecycle {
  import opened Wrappers
  import opened Driver

  datatype Built = Built(reply: Result<Handle, DbError>, calls: seq<DriverCall>)

  /**
    Open a pool on `dsn`, record `limits` on it and ping it; when the ping
    fails the just-opened pool is closed and an error returned.
  */
  function OpenPool(dsn: string, limits: Limits, nombre: string, a: Attempt): (b: Built)
    ensures |b.calls| >= 1 && b.calls[0] == OpenCall(dsn) && NoStatements(b.calls)
    ensures b.reply.Ok? <==> a.Reachable?
    ensures b.reply.Ok? ==> b.reply.value == Handle(a.id, dsn, limits) && PingCall(a.id) in b.calls && CloseCall(a.id) !in b.calls
    ensures a.OpenFails? ==> b.reply == Err(OpenFailed(nombre)) && b.calls == [OpenCall(dsn)]
    ensures a.PingFails? ==> b.reply == Err(PingFailed(nombre)) && b.calls == [OpenCall(dsn), PingCall(a.id), CloseCall(a.id)]
  {
    match a
    case OpenFails => Built(Err(OpenFailed(nombre)), [OpenCall(dsn)])
    case PingFails(id) => Built(Err(PingFailed(nombre)), [OpenCall(dsn), PingCall(id), CloseCall(id)])
    case Reachable(id) => Built(Ok(Handle(id, dsn, limits)), [OpenCall(dsn), PingCall(id)])
  }

  datatype Got = Got(slot: Option<Handle>, reply: Result<Handle, DbError>, calls: seq<DriverCall>)

  /**
    The lazy getter of one slot. `build` is what the factory does if it is
    called; it is called (and its calls made) only when the slot is empty.
  */
  function Get(slot: Option<Handle>, build: Built): (g: Got)
    ensures slot.Some? ==> g.slot == slot && g.reply == Ok(slot.value) && g.calls == []
    ensures slot.None? ==> g.reply == build.reply && g.calls == build.calls
    ensures g.reply.Err? ==> g.slot == None
    ensures g.reply.Ok? ==> g.slot == Some(g.reply.value)
  {
    if slot.Some? then Got(slot, Ok(slot.value), [])
    else if build.reply.Err? then Got(None, build.reply, build.calls)
    else Got(Some(build.reply.value), build.reply, build.calls)
  }

  datatype Slots = Slots(principal: Option<Handle>, secundaria: Option<Handle>)

  const Empty := Slots(None, None)

  datatype Closed = Closed(slots: Slots, failed: seq<Slot>, calls: seq<DriverCall>)

  /**
    Close every present pool, principal first, going on past failures
    (`okP`/`okS` are the outcomes of the two Close calls), and empty both slots.
  */
  function CloseAll(s: Slots, okP: bool, okS: bool): (c: Closed)
    ensures c.slots == Empty && NoStatements(c.calls)
    ensures |c.calls| == (if s.principal.Some? then 1 else 0) + (if s.secundaria.Some? then 1 else 0)
    ensures s.principal.Some? ==> c.calls[0] == CloseCall(s.principal.value.id)
    ensures s.secundaria.Some? ==> c.calls[|c.calls| - 1] == CloseCall(s.secundaria.value.id)
    ensures (Principal in c.failed <==> s.principal.Some? && !okP) && (Secundaria in c.failed <==> s.secundaria.Some? && !okS)
    ensures c.failed == [] <==> (s.principal.None? || okP) && (s.secundaria.None? || okS)
    ensures |c.failed| <= 2 && (|c.failed| == 2 ==> c.failed == [Principal, Secundaria])
  {
    var p := if s.principal.Some? then [CloseCall(s.principal.value.id)] else [];
    var q := if s.secundaria.Some? then [CloseCall(s.secundaria.value.id)] else [];
    var fp := if s.principal.Some? && !okP then [Principal] else [];
    var fq := if s.secundaria.Some? && !okS then [Secundaria] else [];
    Closed(Empty, fp + fq, p + q)
  }

  /** The single error Cerrar returns: nil when no close failed, otherwise one built from all failures. */
  function CloseError(failed: seq<Slot>): Option<DbError>
  {
    if |failed| > 0 then Some(CloseFailed(failed)) else None
  }

  /** Closing twice: the second close finds nothing, makes no call and reports no error. */
  lemma CloseIdempotent(s: Slots, okP: bool, okS: bool, okP': bool, okS': bool)
    ensures var again := CloseAll(CloseAll(s, okP, okS).slots, okP', okS');
      again == Closed(Empty, [], []) && CloseError(again.failed) == None
  {
  }

  /** After a close, a getter finds the slot empty and goes to the factory again: there is no closed flag. */
  lemma CloseThenGetReopens(s: Slots, okP: bool, okS: bool, build: Built)
    ensures Get(CloseAll(s, okP, okS).slots.principal, build).calls == build.calls
    ensures Get(CloseAll(s, okP, okS).slots.secundaria, build).calls == build.calls
  {
  }

  /** How each slot is built: its connection string, limits and name. */
  datatype Factory = Factory(dsn: string, limits: Limits, nombre: string)

  datatype Targets = Targets(principal: Factory, secundaria: Factory)

  datatype Op = ObtainPrincipal(a: Attempt) | ObtainSecundaria(a: Attempt) | CloseBoth(okP: bool, okS: bool)

  datatype Reply =
    | Obtained(reply: Result<Handle, DbError>, calls: seq<DriverCall>)
    | ClosedWith(err: Option<DbError>, calls: seq<DriverCall>)

  function Build(f: Factory, a: Attempt): Built {
    OpenPool(f.dsn, f.limits, f.nombre, a)
  }

  function Step(s: Slots, t: Targets, op: Op): (Slots, Reply) {
    match op
    case ObtainPrincipal(a) =>
      var g := Get(s.principal, Build(t.principal, a));
      (s.(principal := g.slot), Obtained(g.reply, g.calls))
    case ObtainSecundaria(a) =>
      var g := Get(s.secundaria, Build(t.secundaria, a));
      (s.(secundaria := g.slot), Obtained(g.reply, g.calls))
    case CloseBoth(okP, okS) =>
      var c := CloseAll(s, okP, okS);
      (c.slots, ClosedWith(CloseError(c.failed), c.calls))
  }

  /** One principal getter step is `Get` on the principal slot; secundaria stays. */
  lemma StepPrincipal(s: Slots, t: Targets, a: Attempt, g: Got)
    requires g == Get(s.principal, Build(t.principal, a))
    ensures Step(s, t, ObtainPrincipal(a)) == (Slots(g.slot, s.secundaria), Obtained(g.reply, g.calls))
  {
  }

  /** One secundaria getter step is `Get` on the secundaria slot; principal stays. */
  lemma StepSecundaria(s: Slots, t: Targets, a: Attempt, g: Got)
    requires g == Get(s.secundaria, Build(t.secundaria, a))
    ensures Step(s, t, ObtainSecundaria(a)) == (Slots(s.principal, g.slot), Obtained(g.reply, g.calls))
  {
  }

  /** One close step is `CloseAll` with its single error; the recipes play no part. */
  lemma StepClose(s: Slots, t: Targets, okP: bool, okS: bool, c: Closed)
    requires c == CloseAll(s, okP, okS)
    ensures Step(s, t, CloseBoth(okP, okS)) == (Empty, ClosedWith(CloseError(c.failed), c.calls))
  {
  }

  datatype Trace = Trace(last: Slots, replies: seq<Reply>)

  /** The state after `ops` in order, and the reply to each. */
  function Run(s: Slots, t: Targets, ops: seq<Op>): (r: Trace)
    ensures |r.replies| == |ops|
    decreases |ops|
  {
    if |ops| == 0 then Trace(s, [])
    else
      var (s1, r1) := Step(s, t, ops[0]);
      var rest := Run(s1, t, ops[1..]);
      Trace(rest.last, [r1] + rest.replies)
  }

  predicate NoClose(ops: seq<Op>) {
    forall i :: 0 <= i < |ops| ==> !ops[i].CloseBoth?
  }

  /**
    Once principal holds `h`, in any close-free run of getters (principal and
    secundaria mixed), every principal getter returns `h` without a driver call
    and the slot keeps `h`.
  */
  lemma {:induction false} PrincipalCachedUntilClose(s: Slots, t: Targets, ops: seq<Op>, h: Handle)
    requires s.principal == Some(h) && NoClose(ops)
    ensures Run(s, t, ops).last.principal == Some(h)
    ensures forall i :: 0 <= i < |ops| && ops[i].ObtainPrincipal? ==> Run(s, t, ops).replies[i] == Obtained(Ok(h), [])
    decreases |ops|
  {
    if |ops| > 0 {
      var (s1, r1) := Step(s, t, ops[0]);
      assert NoClose(ops[1..]) by {
        forall i | 0 <= i < |ops[1..]| ensures !ops[1..][i].CloseBoth? {
          assert ops[1..][i] == ops[i + 1];
        }
      }
      PrincipalCachedUntilClose(s1, t, ops[1..], h);
      var r := Run(s, t, ops);
      forall i | 0 <= i < |ops| && ops[i].ObtainPrincipal?
        ensures r.replies[i] == Obtained(Ok(h), [])
      {
        if i > 0 {
          assert ops[1..][i - 1] == ops[i];
        }
      }
    }
  }

  /** Symmetric to PrincipalCachedUntilClose: in any close-free run of getters, a held secundaria is kept and returned. */
  lemma {:induction false} SecundariaCachedUntilClose(s: Slots, t: Targets, ops: seq<Op>, h: Handle)
    requires s.secundaria == Some(h) && NoClose(ops)
    ensures Run(s, t, ops).last.secundaria == Some(h)
    ensures forall i :: 0 <= i < |ops| && ops[i].ObtainSecundaria? ==> Run(s, t, ops).replies[i] == Obtained(Ok(h), [])
    decreases |ops|
  {
    if |ops| > 0 {
      var (s1, r1) := Step(s, t, ops[0]);
      assert NoClose(ops[1..]) by {
        forall i | 0 <= i < |ops[1..]| ensures !ops[1..][i].CloseBoth? {
          assert ops[1..][i] == ops[i + 1];
        }
      }
      SecundariaCachedUntilClose(s1, t, ops[1..], h);
      var r := Run(s, t, ops);
      forall i | 0 <= i < |ops| && ops[i].ObtainSecundaria?
        ensures r.replies[i] == Obtained(Ok(h), [])
      {
        if i > 0 {
          assert ops[1..][i - 1] == ops[i];
        }
      }
    }
  }

  /**
    No poisoned slot: a slot is filled only by a successful build. Whatever the
    run, a slot that ends up holding a handle either held it from the start (with
    no close in between) or received it from a getter whose reply was that handle.
  */
  lemma {:induction false} PrincipalProvenance(s: Slots, t: Targets, ops: seq<Op>)
    requires Run(s, t, ops).last.principal.Some?
    ensures var h := Run(s, t, ops).last.principal.value;
      (s.principal == Some(h) && NoClose(ops)) ||
      exists i :: 0 <= i < |ops| && ops[i].ObtainPrincipal? && Run(s, t, ops).replies[i].Obtained? && Run(s, t, ops).replies[i].reply == Ok(h)
    decreases |ops|
  {
    if |ops| > 0 {
      var (s1, r1) := Step(s, t, ops[0]);
      var r := Run(s, t, ops);
      var h := r.last.principal.value;
      PrincipalProvenance(s1, t, ops[1..]);
      if s1.principal == Some(h) && NoClose(ops[1..]) {
        if ops[0].CloseBoth? {
          assert false;
        } else if ops[0].ObtainPrincipal? {
          assert r.replies[0].reply == Ok(h);
        } else {
          assert NoClose(ops) by {
            forall i | 0 <= i < |ops| ensures !ops[i].CloseBoth? {
              if i > 0 { assert ops[i] == ops[1..][i - 1]; }
            }
          }
        }
      } else {
        var i :| 0 <= i < |ops[1..]| && ops[1..][i].ObtainPrincipal? && Run(s1, t, ops[1..]).replies[i].Obtained? && Run(s1, t, ops[1..]).replies[i].reply == Ok(h);
        assert ops[i + 1] == ops[1..][i] && r.replies[i + 1] == Run(s1, t, ops[1..]).replies[i];
      }
    }
  }

  /** Neither getter touches the other slot: a run with no secundaria getter and no close leaves secundaria as it was. */
  lemma {:induction false} PrincipalGettersLeaveSecundaria(s: Slots, t: Targets, ops: seq<Op>)
    requires forall i :: 0 <= i < |ops| ==> ops[i].ObtainPrincipal?
    ensures Run(s, t, ops).last.secundaria == s.secundaria
    decreases |ops|
  {
    if |ops| > 0 {
      var (s1, r1) := Step(s, t, ops[0]);
      assert forall i :: 0 <= i < |ops[1..]| ==> ops[1..][i] == ops[i + 1];
      PrincipalGettersLeaveSecundaria(s1, t, ops[1..]);
    }
  }
}
