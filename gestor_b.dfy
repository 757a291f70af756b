/**
  Revision B of the pool manager (internal/config/database/conexion.go and
  internal/config/database/health.go): the same two lazily built slots, a
  connection string that writes both TLS flags with `%t`, an explicit
  start-up initialisation of principal, and a strict health check in which
  principal is critical and secundaria optional.
*/
module GestorB {
  import opened Wrappers
  import opened DatabaseModel
  import opened GoFormat
  import opened ConnString
  import opened Driver
  import opened Lifecycle
  import GestorA

  /** The eight `key=value` fields of the connection string, in the template's order. */
  function Campos(cfg: ConfiguracionDB): seq<Pair> {
    [("server", cfg.host),
     ("port", Itoa(cfg.port)),
     ("database", cfg.name),
     ("user id", cfg.user),
     ("password", cfg.password),
     ("encrypt", FormatBool(cfg.encrypt)),
     ("TrustServerCertificate", FormatBool(cfg.trustServerCert)),
     ("connection timeout", Itoa(TruncDiv1000(cfg.pool.connectionTimeoutMs)))]
  }

  /**
    The connection string: `encrypt` and `TrustServerCertificate` are both
    written "true"/"false", and the timeout is the whole number of seconds,
    truncated toward zero.
  */
  function ConstruirCadenaConexion(cfg: ConfiguracionDB): (s: string)
    ensures s == "server=" + cfg.host
      + ";port=" + Itoa(cfg.port)
      + ";database=" + cfg.name
      + ";user id=" + cfg.user
      + ";password=" + cfg.password
      + ";encrypt=" + (if cfg.encrypt then "true" else "false")
      + ";TrustServerCertificate=" + (if cfg.trustServerCert then "true" else "false")
      + ";connection timeout=" + Itoa(TruncDiv1000(cfg.pool.connectionTimeoutMs))
  {
    var cs := Campos(cfg);
    RenderEight(cs[0], cs[1], cs[2], cs[3], cs[4], cs[5], cs[6], cs[7]);
    Claves();
    assert cs == [cs[0], cs[1], cs[2], cs[3], cs[4], cs[5], cs[6], cs[7]];
    Render(cs)
  }

  lemma CamposSonPlanos(cfg: ConfiguracionDB)
    requires GestorA.CamposPlanos(cfg)
    ensures forall i :: 0 <= i < |Campos(cfg)| ==> Plain(Campos(cfg)[i])
  {
    ClavesPlanas();
    GestorA.ItoaPlain(cfg.port);
    GestorA.ItoaPlain(TruncDiv1000(cfg.pool.connectionTimeoutMs));
  }

  /** The fields come back in the template's fixed order, both flags as "true"/"false", the timeout truncated. */
  lemma CadenaCampos(cfg: ConfiguracionDB)
    requires GestorA.CamposPlanos(cfg)
    ensures Parse(ConstruirCadenaConexion(cfg)) == Some(Campos(cfg))
  {
    CamposSonPlanos(cfg);
    ParseRender(Campos(cfg));
  }

  /** The two revisions write the same connection string exactly when encryption is on ("disable" against "false"). */
  lemma CadenaComoRevisionA(cfg: ConfiguracionDB)
    ensures ConstruirCadenaConexion(cfg) == GestorA.ConstruirCadenaConexion(cfg) <==> cfg.encrypt
  {
    if !cfg.encrypt {
      RenderDiffersAt(Campos(cfg), GestorA.Campos(cfg), 5);
    } else {
      assert Campos(cfg) == GestorA.Campos(cfg);
    }
  }

  /** inicializarPool: max open = Pool.Max, max idle = Pool.Min, idle time, 30 minutes lifetime; ping or close. */
  function InicializarPool(cfg: ConfiguracionDB, nombre: string, a: Attempt): (b: Built)
    ensures b.reply.Ok? <==> a.Reachable?
    ensures b.reply.Ok? ==> b.reply.value.dsn == ConstruirCadenaConexion(cfg)
    ensures b.reply.Ok? ==>
      b.reply.value.limits == Limits(Some(cfg.pool.max), Some(cfg.pool.min), Some(cfg.pool.idleTimeoutMs), Some(30 * 60 * 1000))
    ensures b.reply.Ok? ==> b.calls == [OpenCall(ConstruirCadenaConexion(cfg)), PingCall(b.reply.value.id)]
    ensures a.PingFails? ==> b.reply == Err(PingFailed(nombre)) && b.calls == [OpenCall(ConstruirCadenaConexion(cfg)), PingCall(a.id), CloseCall(a.id)]
    ensures a.OpenFails? ==> b.reply == Err(OpenFailed(nombre)) && b.calls == [OpenCall(ConstruirCadenaConexion(cfg))]
  {
    OpenPool(ConstruirCadenaConexion(cfg), GestorA.Limites(cfg), nombre, a)
  }

  function Recetas(c: Configuracion): Targets {
    Targets(
      Factory(ConstruirCadenaConexion(c.principal), GestorA.Limites(c.principal), "principal"),
      Factory(ConstruirCadenaConexion(c.secundaria), GestorA.Limites(c.secundaria), "secundaria"))
  }

  /** The strict health verdict: principal must be present and answer; secundaria, when present, must answer. */
  predicate Saludable(s: Slots, pingP: bool, pingS: bool) {
    s.principal.Some? && pingP && (s.secundaria.None? || pingS)
  }

  /** The strict verdict is the lenient one plus "principal is present". */
  lemma EstrictaContraLaxa(s: Slots, pingP: bool, pingS: bool)
    ensures Saludable(s, pingP, pingS) <==> s.principal.Some? && GestorA.Saludable(s, pingP, pingS)
  {
  }

  class GestorDB {
    var principal: Option<Handle>
    var secundaria: Option<Handle>
    const configuracion: Configuracion

    /** The manager as built from a loaded configuration: both slots empty. */
    constructor (configuracion: Configuracion)
      ensures this.configuracion == configuracion && principal == None && secundaria == None
    {
      this.configuracion := configuracion;
      principal := None;
      secundaria := None;
    }

    function Estado(): Slots
      reads this
    {
      Slots(principal, secundaria)
    }

    method ObtenerPrincipal(a: Attempt) returns (r: Result<Handle, DbError>, calls: seq<DriverCall>)
      modifies this`principal
      ensures old(principal).Some? ==> r == Ok(old(principal).value) && principal == old(principal) && calls == []
      ensures old(principal).None? ==> r == InicializarPool(configuracion.principal, "principal", a).reply
      ensures r.Err? ==> principal == None
      ensures r.Ok? ==> principal == Some(r.value)
      ensures var g := Get(old(principal), InicializarPool(configuracion.principal, "principal", a));
        principal == g.slot && r == g.reply && calls == g.calls
      ensures (Estado(), Obtained(r, calls)) == Step(old(Estado()), Recetas(configuracion), ObtainPrincipal(a))
    {
      ghost var g := Get(principal, Build(Recetas(configuracion).principal, a));
      StepPrincipal(Estado(), Recetas(configuracion), a, g);
      if principal.Some? {
        return Ok(principal.value), [];
      }
      var b := InicializarPool(configuracion.principal, "principal", a);
      if b.reply.Err? {
        return Err(b.reply.error), b.calls;
      }
      principal := Some(b.reply.value);
      return Ok(b.reply.value), b.calls;
    }

    method ObtenerSecundaria(a: Attempt) returns (r: Result<Handle, DbError>, calls: seq<DriverCall>)
      modifies this`secundaria
      ensures old(secundaria).Some? ==> r == Ok(old(secundaria).value) && secundaria == old(secundaria) && calls == []
      ensures old(secundaria).None? ==> r == InicializarPool(configuracion.secundaria, "secundaria", a).reply
      ensures r.Err? ==> secundaria == None
      ensures r.Ok? ==> secundaria == Some(r.value)
      ensures var g := Get(old(secundaria), InicializarPool(configuracion.secundaria, "secundaria", a));
        secundaria == g.slot && r == g.reply && calls == g.calls
      ensures (Estado(), Obtained(r, calls)) == Step(old(Estado()), Recetas(configuracion), ObtainSecundaria(a))
    {
      ghost var g := Get(secundaria, Build(Recetas(configuracion).secundaria, a));
      StepSecundaria(Estado(), Recetas(configuracion), a, g);
      if secundaria.Some? {
        return Ok(secundaria.value), [];
      }
      var b := InicializarPool(configuracion.secundaria, "secundaria", a);
      if b.reply.Err? {
        return Err(b.reply.error), b.calls;
      }
      secundaria := Some(b.reply.value);
      return Ok(b.reply.value), b.calls;
    }

    /** InicializarPrincipal: the principal getter with its handle dropped. */
    method InicializarPrincipal(a: Attempt) returns (err: Option<DbError>, calls: seq<DriverCall>)
      modifies this`principal
      ensures var g := Get(old(principal), InicializarPool(configuracion.principal, "principal", a));
        principal == g.slot && calls == g.calls && (err.None? <==> g.reply.Ok?) && (g.reply.Err? ==> err == Some(g.reply.error))
    {
      var r;
      r, calls := ObtenerPrincipal(a);
      err := if r.Err? then Some(r.error) else None;
    }

    /**
      Strict health check on a snapshot of the slots: an absent principal is an
      error and nothing is pinged; a failing principal is reported before
      secundaria is probed; an absent secundaria never fails. It assigns nothing.
    */
    method VerificarSalud(pingP: bool, pingS: bool) returns (err: Option<DbError>, probes: seq<DriverCall>)
      ensures err.None? <==> Saludable(Estado(), pingP, pingS)
      ensures principal.None? ==> err == Some(PrincipalNotInitialised) && probes == []
      ensures principal.Some? && !pingP ==> err == Some(HealthCheckFailed("principal")) && probes == [PingCall(principal.value.id)]
      ensures principal.Some? && pingP && secundaria.None? ==> err == None && probes == [PingCall(principal.value.id)]
      ensures principal.Some? && pingP && secundaria.Some? ==>
        probes == [PingCall(principal.value.id), PingCall(secundaria.value.id)] &&
        err == (if pingS then None else Some(HealthCheckFailed("secundaria")))
    {
      var principal := this.principal;
      var secundaria := this.secundaria;
      if principal.None? {
        return Some(PrincipalNotInitialised), [];
      }
      probes := [PingCall(principal.value.id)];
      if !pingP {
        return Some(HealthCheckFailed("principal")), probes;
      }
      if secundaria.Some? {
        probes := probes + [PingCall(secundaria.value.id)];
        if !pingS {
          return Some(HealthCheckFailed("secundaria")), probes;
        }
      }
      return None, probes;
    }

    method Cerrar(okP: bool, okS: bool) returns (err: Option<DbError>, calls: seq<DriverCall>)
      modifies this`principal, this`secundaria
      ensures principal == None && secundaria == None
      ensures var c := CloseAll(old(Estado()), okP, okS); err == CloseError(c.failed) && calls == c.calls
      ensures (Estado(), ClosedWith(err, calls)) == Step(old(Estado()), Recetas(configuracion), CloseBoth(okP, okS))
      ensures err.None? <==> (old(principal).None? || okP) && (old(secundaria).None? || okS)
    {
      ghost var c := CloseAll(Estado(), okP, okS);
      StepClose(Estado(), Recetas(configuracion), okP, okS, c);
      var errores: seq<Slot> := [];
      calls := [];
      if principal.Some? {
        calls := calls + [CloseCall(principal.value.id)];
        if !okP {
          errores := errores + [Principal];
        }
        principal := None;
      }
      if secundaria.Some? {
        calls := calls + [CloseCall(secundaria.value.id)];
        if !okS {
          errores := errores + [Secundaria];
        }
        secundaria := None;
      }
      assert errores == c.failed;
      if |errores| > 0 {
        return Some(CloseFailed(errores)), calls;
      }
      return None, calls;
    }
  }
}
