/**
  The legacy pool code (config/database.go): two package globals
  `PoolPrincipal` and `PoolExterno`, configuration read from environment
  variables, a fixed connection-string template and fixed pool bounds. The
  environment is a map; a missing variable reads as "".
*/
module ConfigDatabase {
  import opened Wrappers
  import opened ConnString
  import opened Driver
  import opened Lifecycle

  datatype ConfigDB = ConfigDB(
    Usuario: string,
    Password: string,
    Servidor: string,
    BaseDatos: string,
    Puerto: string,
    Encrypt: string,
    TrustServerCert: string)

  function Getenv(env: map<string, string>, key: string): string {
    if key in env then env[key] else ""
  }

  /** The principal configuration: each field is its variable's value, or "" when the variable is unset. */
  function ObtenerConfigPrincipal(env: map<string, string>): (c: ConfigDB)
    ensures c.Usuario == (if "DB_USER" in env then env["DB_USER"] else "")
    ensures c.Password == (if "DB_PASSWORD" in env then env["DB_PASSWORD"] else "")
    ensures c.Servidor == (if "DB_SERVER" in env then env["DB_SERVER"] else "")
    ensures c.BaseDatos == (if "DB_DATABASE_PRINCIPAL" in env then env["DB_DATABASE_PRINCIPAL"] else "")
    ensures c.Puerto == (if "DB_PORT" in env then env["DB_PORT"] else "")
    ensures c.Encrypt == (if "DB_ENCRYPT" in env then env["DB_ENCRYPT"] else "")
    ensures c.TrustServerCert == (if "DB_TRUST_SERVER_CERTIFICATE" in env then env["DB_TRUST_SERVER_CERTIFICATE"] else "")
  {
    ConfigDB(
      Getenv(env, "DB_USER"),
      Getenv(env, "DB_PASSWORD"),
      Getenv(env, "DB_SERVER"),
      Getenv(env, "DB_DATABASE_PRINCIPAL"),
      Getenv(env, "DB_PORT"),
      Getenv(env, "DB_ENCRYPT"),
      Getenv(env, "DB_TRUST_SERVER_CERTIFICATE"))
  }

  /** The external configuration: the same variables, except that the database is DB_DATABASE_SECUNDARIA. */
  function ObtenerConfigExterna(env: map<string, string>): (c: ConfigDB)
    ensures c.Usuario == (if "DB_USER" in env then env["DB_USER"] else "")
    ensures c.Password == (if "DB_PASSWORD" in env then env["DB_PASSWORD"] else "")
    ensures c.Servidor == (if "DB_SERVER" in env then env["DB_SERVER"] else "")
    ensures c.BaseDatos == (if "DB_DATABASE_SECUNDARIA" in env then env["DB_DATABASE_SECUNDARIA"] else "")
    ensures c.Puerto == (if "DB_PORT" in env then env["DB_PORT"] else "")
    ensures c.Encrypt == (if "DB_ENCRYPT" in env then env["DB_ENCRYPT"] else "")
    ensures c.TrustServerCert == (if "DB_TRUST_SERVER_CERTIFICATE" in env then env["DB_TRUST_SERVER_CERTIFICATE"] else "")
  {
    ConfigDB(
      Getenv(env, "DB_USER"),
      Getenv(env, "DB_PASSWORD"),
      Getenv(env, "DB_SERVER"),
      Getenv(env, "DB_DATABASE_SECUNDARIA"),
      Getenv(env, "DB_PORT"),
      Getenv(env, "DB_ENCRYPT"),
      Getenv(env, "DB_TRUST_SERVER_CERTIFICATE"))
  }

  /** The two configurations read the same variables except for the database name. */
  lemma ConfigsDifierenSoloEnBaseDatos(env: map<string, string>)
    ensures ObtenerConfigExterna(env) == ObtenerConfigPrincipal(env).(BaseDatos := Getenv(env, "DB_DATABASE_SECUNDARIA"))
    ensures ObtenerConfigPrincipal(env).BaseDatos == Getenv(env, "DB_DATABASE_PRINCIPAL")
  {
  }

  /** The seven `key=value` fields of the legacy connection string, in the template's order. */
  function Campos(config: ConfigDB): seq<Pair> {
    [("server", config.Servidor),
     ("user id", config.Usuario),
     ("password", config.Password),
     ("port", config.Puerto),
     ("database", config.BaseDatos),
     ("encrypt", "disable"),
     ("TrustServerCertificate", "true")]
  }

  /** The fixed template: the TLS settings are always `encrypt=disable;TrustServerCertificate=true`. */
  function ConstruirConnectionString(config: ConfigDB): (s: string)
    ensures s == "server=" + config.Servidor
      + ";user id=" + config.Usuario
      + ";password=" + config.Password
      + ";port=" + config.Puerto
      + ";database=" + config.BaseDatos
      + ";encrypt=" + "disable"
      + ";TrustServerCertificate=" + "true"
  {
    var cs := Campos(config);
    RenderSeven(cs[0], cs[1], cs[2], cs[3], cs[4], cs[5], cs[6]);
    Claves();
    assert cs == [cs[0], cs[1], cs[2], cs[3], cs[4], cs[5], cs[6]];
    Render(cs)
  }

  /** The `Encrypt` and `TrustServerCert` fields never reach the connection string. */
  lemma ConnectionStringIgnoraTls(c: ConfigDB, encrypt: string, trust: string)
    ensures ConstruirConnectionString(c.(Encrypt := encrypt, TrustServerCert := trust)) == ConstruirConnectionString(c)
  {
  }

  predicate CamposPlanos(c: ConfigDB) {
    ';' !in c.Servidor && ';' !in c.Usuario && ';' !in c.Password && ';' !in c.Puerto && ';' !in c.BaseDatos
  }

  lemma CamposSonPlanos(c: ConfigDB)
    requires CamposPlanos(c)
    ensures forall i :: 0 <= i < |Campos(c)| ==> Plain(Campos(c)[i])
  {
    ClavesPlanas();
    PlainKey("disable");
    PlainKey("true");
  }

  /** The fields come back in this template's order, whatever the TLS fields say. */
  lemma ConnectionStringCampos(c: ConfigDB)
    requires CamposPlanos(c)
    ensures Parse(ConstruirConnectionString(c)) == Some(Campos(c))
  {
    CamposSonPlanos(c);
    ParseRender(Campos(c));
  }

  /** SetMaxOpenConns(25), SetMaxIdleConns(5); idle time and lifetime are left at the driver's defaults. */
  const LimitesFijos := Limits(Some(25), Some(5), None, None)

  function Recetas(env: map<string, string>): Targets {
    Targets(
      Factory(ConstruirConnectionString(ObtenerConfigPrincipal(env)), LimitesFijos, "principal"),
      Factory(ConstruirConnectionString(ObtenerConfigExterna(env)), LimitesFijos, "externa"))
  }

  function ComoError(r: Result<Handle, DbError>): Option<DbError> {
    if r.Err? then Some(r.error) else None
  }

  /** The package globals; PoolExterno takes the place of the second slot. */
  class Globales {
    var PoolPrincipal: Option<Handle>
    var PoolExterno: Option<Handle>

    constructor ()
      ensures PoolPrincipal == None && PoolExterno == None
    {
      PoolPrincipal := None;
      PoolExterno := None;
    }

    function Estado(): Slots
      reads this
    {
      Slots(PoolPrincipal, PoolExterno)
    }

    /**
      Does nothing when the pool is already set; otherwise opens it with the
      fixed bounds and pings it; on a failed ping the pool is closed and the
      global stays nil; on success the global holds the new pool.
    */
    method InicializarPoolPrincipal(env: map<string, string>, a: Attempt) returns (err: Option<DbError>, calls: seq<DriverCall>)
      modifies this`PoolPrincipal
      ensures old(PoolPrincipal).Some? ==> err == None && calls == [] && PoolPrincipal == old(PoolPrincipal)
      ensures old(PoolPrincipal).None? && a.Reachable? ==>
        err == None && PoolPrincipal.Some? && PoolPrincipal.value.limits == LimitesFijos && PoolPrincipal.value.id == a.id
      ensures err.Some? ==> PoolPrincipal == None
      ensures a.PingFails? && old(PoolPrincipal).None? ==> CloseCall(a.id) in calls
      ensures var g := Get(old(PoolPrincipal), Build(Recetas(env).principal, a));
        PoolPrincipal == g.slot && err == ComoError(g.reply) && calls == g.calls
    {
      if PoolPrincipal.Some? {
        return None, [];
      }
      var config := ObtenerConfigPrincipal(env);
      var b := OpenPool(ConstruirConnectionString(config), LimitesFijos, "principal", a);
      if b.reply.Err? {
        return Some(b.reply.error), b.calls;
      }
      PoolPrincipal := Some(b.reply.value);
      return None, b.calls;
    }

    method InicializarPoolExterno(env: map<string, string>, a: Attempt) returns (err: Option<DbError>, calls: seq<DriverCall>)
      modifies this`PoolExterno
      ensures old(PoolExterno).Some? ==> err == None && calls == [] && PoolExterno == old(PoolExterno)
      ensures old(PoolExterno).None? && a.Reachable? ==>
        err == None && PoolExterno.Some? && PoolExterno.value.limits == LimitesFijos && PoolExterno.value.id == a.id
      ensures err.Some? ==> PoolExterno == None
      ensures a.PingFails? && old(PoolExterno).None? ==> CloseCall(a.id) in calls
      ensures var g := Get(old(PoolExterno), Build(Recetas(env).secundaria, a));
        PoolExterno == g.slot && err == ComoError(g.reply) && calls == g.calls
    {
      if PoolExterno.Some? {
        return None, [];
      }
      var config := ObtenerConfigExterna(env);
      var b := OpenPool(ConstruirConnectionString(config), LimitesFijos, "externa", a);
      if b.reply.Err? {
        return Some(b.reply.error), b.calls;
      }
      PoolExterno := Some(b.reply.value);
      return None, b.calls;
    }

    /** Initialises only when the global is nil and passes an initialisation error on. */
    method ObtenerConexionPrincipal(env: map<string, string>, a: Attempt) returns (r: Result<Handle, DbError>, calls: seq<DriverCall>)
      modifies this`PoolPrincipal
      ensures old(PoolPrincipal).Some? ==> r == Ok(old(PoolPrincipal).value) && calls == []
      ensures var g := Get(old(PoolPrincipal), Build(Recetas(env).principal, a));
        PoolPrincipal == g.slot && r == g.reply && calls == g.calls
      ensures (Estado(), Obtained(r, calls)) == Step(old(Estado()), Recetas(env), ObtainPrincipal(a))
    {
      ghost var g := Get(PoolPrincipal, Build(Recetas(env).principal, a));
      StepPrincipal(Estado(), Recetas(env), a, g);
      calls := [];
      if PoolPrincipal.None? {
        var err;
        err, calls := InicializarPoolPrincipal(env, a);
        if err.Some? {
          return Err(err.value), calls;
        }
      }
      return Ok(PoolPrincipal.value), calls;
    }

    method ObtenerConexionExterna(env: map<string, string>, a: Attempt) returns (r: Result<Handle, DbError>, calls: seq<DriverCall>)
      modifies this`PoolExterno
      ensures old(PoolExterno).Some? ==> r == Ok(old(PoolExterno).value) && calls == []
      ensures var g := Get(old(PoolExterno), Build(Recetas(env).secundaria, a));
        PoolExterno == g.slot && r == g.reply && calls == g.calls
      ensures (Estado(), Obtained(r, calls)) == Step(old(Estado()), Recetas(env), ObtainSecundaria(a))
    {
      ghost var g := Get(PoolExterno, Build(Recetas(env).secundaria, a));
      StepSecundaria(Estado(), Recetas(env), a, g);
      calls := [];
      if PoolExterno.None? {
        var err;
        err, calls := InicializarPoolExterno(env, a);
        if err.Some? {
          return Err(err.value), calls;
        }
      }
      return Ok(PoolExterno.value), calls;
    }

    /**
      Closes what is present and sets both globals to nil; returns nothing. A
      failed Close is only logged, so the Close outcomes play no part: the calls
      are those of `CloseAll` whatever the outcomes.
    */
    method CerrarConexiones() returns (calls: seq<DriverCall>)
      modifies this`PoolPrincipal, this`PoolExterno
      ensures PoolPrincipal == None && PoolExterno == None
      ensures calls == (if old(PoolPrincipal).Some? then [CloseCall(old(PoolPrincipal).value.id)] else [])
                     + (if old(PoolExterno).Some? then [CloseCall(old(PoolExterno).value.id)] else [])
      ensures forall okP: bool, okE: bool :: calls == CloseAll(old(Estado()), okP, okE).calls
    {
      calls := [];
      if PoolPrincipal.Some? {
        calls := calls + [CloseCall(PoolPrincipal.value.id)];
        PoolPrincipal := None;
      }
      if PoolExterno.Some? {
        calls := calls + [CloseCall(PoolExterno.value.id)];
        PoolExterno := None;
      }
    }
  }
}
