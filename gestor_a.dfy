/**
  Revision A of the pool manager (internal/config/database/database.go): the
  singleton `GestorDB` with two lazily built pools, a lenient health check and
  a close path that goes on past failures.
*/
module GestorA {
  import opened Wrappers
  import opened DatabaseModel
  import opened GoFormat
  import opened ConnString
  import opened Driver
  import opened Lifecycle

  /** The eight `key=value` fields of the connection string, in the template's order. */
  function Campos(cfg: ConfiguracionDB): seq<Pair> {
    [("server", cfg.host),
     ("port", Itoa(cfg.port)),
     ("database", cfg.name),
     ("user id", cfg.user),
     ("password", cfg.password),
     ("encrypt", if cfg.encrypt then "true" else "disable"),
     ("TrustServerCertificate", if cfg.trustServerCert then "true" else "false"),
     ("connection timeout", Itoa(TruncDiv1000(cfg.pool.connectionTimeoutMs)))]
  }

  /**
    The connection string: `encrypt` is written "disable"/"true",
    `TrustServerCertificate` "false"/"true", and the timeout is the whole
    number of seconds, truncated toward zero.
  */
  function ConstruirCadenaConexion(cfg: ConfiguracionDB): (s: string)
    ensures s == "server=" + cfg.host
      + ";port=" + Itoa(cfg.port)
      + ";database=" + cfg.name
      + ";user id=" + cfg.user
      + ";password=" + cfg.password
      + ";encrypt=" + (if cfg.encrypt then "true" else "disable")
      + ";TrustServerCertificate=" + (if cfg.trustServerCert then "true" else "false")
      + ";connection timeout=" + Itoa(TruncDiv1000(cfg.pool.connectionTimeoutMs))
  {
    var cs := Campos(cfg);
    RenderEight(cs[0], cs[1], cs[2], cs[3], cs[4], cs[5], cs[6], cs[7]);
    Claves();
    assert cs == [cs[0], cs[1], cs[2], cs[3], cs[4], cs[5], cs[6], cs[7]];
    Render(cs)
  }

  /** No `;` in the free-text fields, so that the connection string can be split back into its fields. */
  predicate CamposPlanos(cfg: ConfiguracionDB) {
    ';' !in cfg.host && ';' !in cfg.name && ';' !in cfg.user && ';' !in cfg.password
  }

  lemma ItoaPlain(n: int)
    ensures ';' !in Itoa(n)
  {
  }

  lemma CamposSonPlanos(cfg: ConfiguracionDB)
    requires CamposPlanos(cfg)
    ensures forall i :: 0 <= i < |Campos(cfg)| ==> Plain(Campos(cfg)[i])
  {
    ClavesPlanas();
    ItoaPlain(cfg.port);
    ItoaPlain(TruncDiv1000(cfg.pool.connectionTimeoutMs));
  }

  /** The fields come back in the template's fixed order, with the rendered flags and the truncated timeout. */
  lemma CadenaCampos(cfg: ConfiguracionDB)
    requires CamposPlanos(cfg)
    ensures Parse(ConstruirCadenaConexion(cfg)) == Some(Campos(cfg))
  {
    CamposSonPlanos(cfg);
    ParseRender(Campos(cfg));
  }

  const MaxLifetimeMs: int := 30 * 60 * 1000

  /** The limits the factory applies: max open = Pool.Max, max idle = Pool.Min, idle time, 30 minutes lifetime. */
  function Limites(cfg: ConfiguracionDB): Limits
  {
    Limits(Some(cfg.pool.max), Some(cfg.pool.min), Some(cfg.pool.idleTimeoutMs), Some(MaxLifetimeMs))
  }

  /** inicializarPool: an unverified pool is never handed back; a pool whose ping fails is closed. */
  function InicializarPool(cfg: ConfiguracionDB, nombre: string, a: Attempt): (b: Built)
    ensures b.reply.Ok? <==> a.Reachable?
    ensures b.reply.Ok? ==> b.reply.value.dsn == ConstruirCadenaConexion(cfg)
    ensures b.reply.Ok? ==>
      b.reply.value.limits == Limits(Some(cfg.pool.max), Some(cfg.pool.min), Some(cfg.pool.idleTimeoutMs), Some(30 * 60 * 1000))
    ensures b.reply.Ok? ==> b.calls == [OpenCall(ConstruirCadenaConexion(cfg)), PingCall(b.reply.value.id)]
    ensures a.PingFails? ==> b.reply == Err(PingFailed(nombre)) && b.calls == [OpenCall(ConstruirCadenaConexion(cfg)), PingCall(a.id), CloseCall(a.id)]
    ensures a.OpenFails? ==> b.reply == Err(OpenFailed(nombre)) && b.calls == [OpenCall(ConstruirCadenaConexion(cfg))]
  {
    OpenPool(ConstruirCadenaConexion(cfg), Limites(cfg), nombre, a)
  }

  /** The build recipe of both slots, for runs of operations (Lifecycle.Run). */
  function Recetas(c: Configuracion): Targets {
    Targets(
      Factory(ConstruirCadenaConexion(c.principal), Limites(c.principal), "principal"),
      Factory(ConstruirCadenaConexion(c.secundaria), Limites(c.secundaria), "secundaria"))
  }

  /** The lenient health verdict: every PRESENT pool answers its ping; no pool at all is healthy. */
  predicate Saludable(s: Slots, pingP: bool, pingS: bool) {
    (s.principal.None? || pingP) && (s.secundaria.None? || pingS)
  }

  class GestorDB {
    var principal: Option<Handle>
    var secundaria: Option<Handle>
    const configuracion: Configuracion

    /** The struct literal `&GestorDB{configuracion: config}`: both slots empty. */
    constructor (configuracion: Configuracion)
      ensures this.configuracion == configuracion && principal == None && secundaria == None
    {
      this.configuracion := configuracion;
      principal := None;
      secundaria := None;
    }

    function Estado(): Slots
      reads this
    {
      Slots(principal, secundaria)
    }

    /** Lazy getter; the fast path and the re-check under the lock collapse into one test. */
    method ObtenerPrincipal(a: Attempt) returns (r: Result<Handle, DbError>, calls: seq<DriverCall>)
      modifies this`principal
      ensures old(principal).Some? ==> r == Ok(old(principal).value) && principal == old(principal) && calls == []
      ensures old(principal).None? ==> r == InicializarPool(configuracion.principal, "principal", a).reply
      ensures r.Err? ==> principal == None
      ensures r.Ok? ==> principal == Some(r.value)
      ensures var g := Get(old(principal), InicializarPool(configuracion.principal, "principal", a));
        principal == g.slot && r == g.reply && calls == g.calls
      ensures (Estado(), Obtained(r, calls)) == Step(old(Estado()), Recetas(configuracion), ObtainPrincipal(a))
    {
      ghost var g := Get(principal, Build(Recetas(configuracion).principal, a));
      StepPrincipal(Estado(), Recetas(configuracion), a, g);
      if principal.Some? {
        return Ok(principal.value), [];
      }
      var b := InicializarPool(configuracion.principal, "principal", a);
      if b.reply.Err? {
        return Err(b.reply.error), b.calls;
      }
      principal := Some(b.reply.value);
      return Ok(b.reply.value), b.calls;
    }

    method ObtenerSecundaria(a: Attempt) returns (r: Result<Handle, DbError>, calls: seq<DriverCall>)
      modifies this`secundaria
      ensures old(secundaria).Some? ==> r == Ok(old(secundaria).value) && secundaria == old(secundaria) && calls == []
      ensures old(secundaria).None? ==> r == InicializarPool(configuracion.secundaria, "secundaria", a).reply
      ensures r.Err? ==> secundaria == None
      ensures r.Ok? ==> secundaria == Some(r.value)
      ensures var g := Get(old(secundaria), InicializarPool(configuracion.secundaria, "secundaria", a));
        secundaria == g.slot && r == g.reply && calls == g.calls
      ensures (Estado(), Obtained(r, calls)) == Step(old(Estado()), Recetas(configuracion), ObtainSecundaria(a))
    {
      ghost var g := Get(secundaria, Build(Recetas(configuracion).secundaria, a));
      StepSecundaria(Estado(), Recetas(configuracion), a, g);
      if secundaria.Some? {
        return Ok(secundaria.value), [];
      }
      var b := InicializarPool(configuracion.secundaria, "secundaria", a);
      if b.reply.Err? {
        return Err(b.reply.error), b.calls;
      }
      secundaria := Some(b.reply.value);
      return Ok(b.reply.value), b.calls;
    }

    /**
      Lenient health check: pings only the present pools, principal first, and
      reports the first failure; it assigns nothing (no modifies clause).
      `pingP`/`pingS` are the answers the two pools would give.
    */
    method VerificarSalud(pingP: bool, pingS: bool) returns (err: Option<DbError>, probes: seq<DriverCall>)
      ensures err.None? <==> Saludable(Estado(), pingP, pingS)
      ensures principal.None? && secundaria.None? ==> err == None && probes == []
      ensures principal.Some? && !pingP ==> err == Some(HealthCheckFailed("principal")) && probes == [PingCall(principal.value.id)]
      ensures (principal.None? || pingP) && secundaria.Some? && !pingS ==> err == Some(HealthCheckFailed("secundaria"))
      ensures probes ==
        (if principal.Some? then [PingCall(principal.value.id)] else []) +
        (if secundaria.Some? && (principal.None? || pingP) then [PingCall(secundaria.value.id)] else [])
    {
      probes := [];
      if principal.Some? {
        probes := probes + [PingCall(principal.value.id)];
        if !pingP {
          return Some(HealthCheckFailed("principal")), probes;
        }
      }
      if secundaria.Some? {
        probes := probes + [PingCall(secundaria.value.id)];
        if !pingS {
          return Some(HealthCheckFailed("secundaria")), probes;
        }
      }
      return None, probes;
    }

    /**
      Close every present pool (`okP`/`okS`: the outcomes of their Close calls),
      collecting the failures; both slots end up empty whatever happened.
    */
    method Cerrar(okP: bool, okS: bool) returns (err: Option<DbError>, calls: seq<DriverCall>)
      modifies this`principal, this`secundaria
      ensures principal == None && secundaria == None
      ensures var c := CloseAll(old(Estado()), okP, okS); err == CloseError(c.failed) && calls == c.calls
      ensures (Estado(), ClosedWith(err, calls)) == Step(old(Estado()), Recetas(configuracion), CloseBoth(okP, okS))
      ensures err.None? <==> (old(principal).None? || okP) && (old(secundaria).None? || okS)
    {
      ghost var c := CloseAll(Estado(), okP, okS);
      StepClose(Estado(), Recetas(configuracion), okP, okS, c);
      var errores: seq<Slot> := [];
      calls := [];
      if principal.Some? {
        calls := calls + [CloseCall(principal.value.id)];
        if !okP {
          errores := errores + [Principal];
        }
        principal := None;
      }
      if secundaria.Some? {
        calls := calls + [CloseCall(secundaria.value.id)];
        if !okS {
          errores := errores + [Secundaria];
        }
        secundaria := None;
      }
      assert errores == c.failed;
      if |errores| > 0 {
        return Some(CloseFailed(errores)), calls;
      }
      return None, calls;
    }
  }

  /** The package variables `instancia` and `once`; `cargas` counts runs of the configuration load. */
  class Paquete {
    var instancia: GestorDB?
    var once: bool
    ghost var cargas: nat

    ghost predicate Valid()
      reads this
    {
      cargas == (if once then 1 else 0) && (instancia != null ==> once)
    }

    constructor ()
      ensures Valid() && instancia == null && !once
    {
      instancia := null;
      once := false;
      cargas := 0;
    }

    /**
      NuevoGestor: the load (whose outcome is `carga`) runs only on the first
      call. A failed first load is reported once; later calls then return a nil
      manager and no error.
    */
    method NuevoGestor(carga: Result<Configuracion, DbError>) returns (g: GestorDB?, err: Option<DbError>)
      requires Valid()
      modifies this
      ensures Valid() && once && cargas <= 1
      ensures old(once) ==> instancia == old(instancia) && g == instancia && err == None && cargas == old(cargas)
      ensures !old(once) && carga.Ok? ==>
        g != null && fresh(g) && g == instancia && err == None &&
        g.configuracion == carga.value && g.principal == None && g.secundaria == None
      ensures !old(once) && carga.Err? ==> g == null && instancia == null && err == Some(ConfigLoadFailed)
    {
      err := None;
      if !once {
        once := true;
        cargas := cargas + 1;
        if carga.Err? {
          err := Some(ConfigLoadFailed);
        } else {
          instancia := new GestorDB(carga.value);
        }
      }
      if err.Some? {
        return null, err;
      }
      return instancia, None;
    }

    /** ObtenerGestor: the instance, or an error when none has been built. */
    method ObtenerGestor() returns (g: GestorDB?, err: Option<DbError>)
      ensures instancia == null ==> g == null && err == Some(NotInitialised)
      ensures instancia != null ==> g == instancia && err == None
    {
      if instancia == null {
        return null, Some(NotInitialised);
      }
      return instancia, None;
    }
  }
}
