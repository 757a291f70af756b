/**
  The query facade (internal/shared/database/servicio.go) over the revision-B
  manager: each operation picks a getter by `usarSecundaria`, stops with a
  wrapped error when the getter fails, and otherwise sends one statement.
  Statement outcomes are inputs (`ok`); result sets are opaque values.
*/
module Servicio {
  import opened Wrappers
  import opened DatabaseModel
  import opened Driver
  import opened Lifecycle
  import GestorB

  datatype ServiceError =
    | ConnectionError(cause: DbError)   // "error al obtener conexión"
    | QueryFailed                       // "error al ejecutar query"
    | ExecFailed                        // "error al ejecutar comando"
    | ProcedureFailed                   // "error al ejecutar SP"

  datatype Rows = Rows(pool: nat, sql: string)
  datatype Row = Row(pool: nat, sql: string)
  datatype ExecResult = ExecResult(pool: nat, sql: string)

  /** What the selected getter does: secundaria when `usarSecundaria`, principal otherwise. */
  function Conexion(p: Option<Handle>, s: Option<Handle>, cfg: Configuracion, usarSecundaria: bool, a: Attempt): Got {
    if usarSecundaria then Get(s, GestorB.InicializarPool(cfg.secundaria, "secundaria", a))
    else Get(p, GestorB.InicializarPool(cfg.principal, "principal", a))
  }

  /** A failed connection never carries a statement: only the factory's open, ping and close. */
  lemma ConexionSinSentencias(p: Option<Handle>, s: Option<Handle>, cfg: Configuracion, usarSecundaria: bool, a: Attempt)
    ensures NoStatements(Conexion(p, s, cfg, usarSecundaria, a).calls)
  {
  }

  class ServicioDB {
    const gestor: GestorB.GestorDB

    constructor NuevoServicio(gestor: GestorB.GestorDB)
      ensures this.gestor == gestor
    {
      this.gestor := gestor;
    }

    /** The slot of the selected getter is updated as that getter does; the other one is untouched. */
    twostate predicate Selecciono(usarSecundaria: bool, g: Got)
      reads gestor
    {
      if usarSecundaria then gestor.secundaria == g.slot && gestor.principal == old(gestor.principal)
      else gestor.principal == g.slot && gestor.secundaria == old(gestor.secundaria)
    }

    method ObtenerConexion(usarSecundaria: bool, a: Attempt) returns (r: Result<Handle, DbError>, calls: seq<DriverCall>)
      modifies gestor
      ensures var g := Conexion(old(gestor.principal), old(gestor.secundaria), gestor.configuracion, usarSecundaria, a);
        r == g.reply && calls == g.calls && Selecciono(usarSecundaria, g)
    {
      if usarSecundaria {
        r, calls := gestor.ObtenerSecundaria(a);
      } else {
        r, calls := gestor.ObtenerPrincipal(a);
      }
    }

    method EjecutarQuery(query: string, usarSecundaria: bool, args: seq<string>, a: Attempt, ok: bool)
      returns (r: Result<Rows, ServiceError>, calls: seq<DriverCall>)
      modifies gestor
      ensures var g := Conexion(old(gestor.principal), old(gestor.secundaria), gestor.configuracion, usarSecundaria, a);
        Selecciono(usarSecundaria, g) &&
        (g.reply.Err? ==> r == Err(ConnectionError(g.reply.error)) && calls == g.calls && NoStatements(calls)) &&
        (g.reply.Ok? ==>
          calls == g.calls + [QueryCall(g.reply.value.id, query, args)] &&
          r == (if ok then Ok(Rows(g.reply.value.id, query)) else Err(QueryFailed)))
    {
      var db;
      db, calls := ObtenerConexion(usarSecundaria, a);
      ConexionSinSentencias(old(gestor.principal), old(gestor.secundaria), gestor.configuracion, usarSecundaria, a);
      if db.Err? {
        return Err(ConnectionError(db.error)), calls;
      }
      calls := calls + [QueryCall(db.value.id, query, args)];
      if !ok {
        return Err(QueryFailed), calls;
      }
      return Ok(Rows(db.value.id, query)), calls;
    }

    /** A connection failure gives a nil row and sends nothing; otherwise the row is read lazily by the driver. */
    method EjecutarQueryRow(query: string, usarSecundaria: bool, args: seq<string>, a: Attempt)
      returns (r: Option<Row>, calls: seq<DriverCall>)
      modifies gestor
      ensures var g := Conexion(old(gestor.principal), old(gestor.secundaria), gestor.configuracion, usarSecundaria, a);
        Selecciono(usarSecundaria, g) &&
        (g.reply.Err? ==> r == None && calls == g.calls && NoStatements(calls)) &&
        (g.reply.Ok? ==>
          calls == g.calls + [QueryRowCall(g.reply.value.id, query, args)] && r == Some(Row(g.reply.value.id, query)))
    {
      var db;
      db, calls := ObtenerConexion(usarSecundaria, a);
      ConexionSinSentencias(old(gestor.principal), old(gestor.secundaria), gestor.configuracion, usarSecundaria, a);
      if db.Err? {
        return None, calls;
      }
      calls := calls + [QueryRowCall(db.value.id, query, args)];
      return Some(Row(db.value.id, query)), calls;
    }

    method EjecutarExec(query: string, usarSecundaria: bool, args: seq<string>, a: Attempt, ok: bool)
      returns (r: Result<ExecResult, ServiceError>, calls: seq<DriverCall>)
      modifies gestor
      ensures var g := Conexion(old(gestor.principal), old(gestor.secundaria), gestor.configuracion, usarSecundaria, a);
        Selecciono(usarSecundaria, g) &&
        (g.reply.Err? ==> r == Err(ConnectionError(g.reply.error)) && calls == g.calls && NoStatements(calls)) &&
        (g.reply.Ok? ==>
          calls == g.calls + [ExecCall(g.reply.value.id, query, args)] &&
          r == (if ok then Ok(ExecResult(g.reply.value.id, query)) else Err(ExecFailed)))
    {
      var db;
      db, calls := ObtenerConexion(usarSecundaria, a);
      ConexionSinSentencias(old(gestor.principal), old(gestor.secundaria), gestor.configuracion, usarSecundaria, a);
      if db.Err? {
        return Err(ConnectionError(db.error)), calls;
      }
      calls := calls + [ExecCall(db.value.id, query, args)];
      if !ok {
        return Err(ExecFailed), calls;
      }
      return Ok(ExecResult(db.value.id, query)), calls;
    }

    /** Executes exactly "EXEC " followed by the procedure name. */
    method EjecutarSP(nombreSP: string, usarSecundaria: bool, args: seq<string>, a: Attempt, ok: bool)
      returns (err: Option<ServiceError>, calls: seq<DriverCall>)
      modifies gestor
      ensures var g := Conexion(old(gestor.principal), old(gestor.secundaria), gestor.configuracion, usarSecundaria, a);
        Selecciono(usarSecundaria, g) &&
        (g.reply.Err? ==> err == Some(ConnectionError(g.reply.error)) && calls == g.calls && NoStatements(calls)) &&
        (g.reply.Ok? ==>
          calls == g.calls + [ExecCall(g.reply.value.id, "EXEC " + nombreSP, args)] &&
          err == (if ok then None else Some(ProcedureFailed)))
    {
      var db;
      db, calls := ObtenerConexion(usarSecundaria, a);
      ConexionSinSentencias(old(gestor.principal), old(gestor.secundaria), gestor.configuracion, usarSecundaria, a);
      if db.Err? {
        return Some(ConnectionError(db.error)), calls;
      }
      var query := "EXEC " + nombreSP;
      calls := calls + [ExecCall(db.value.id, query, args)];
      if !ok {
        return Some(ProcedureFailed), calls;
      }
      return None, calls;
    }

    /** ObtenerDB is ObtenerConexion under another name. */
    method ObtenerDB(usarSecundaria: bool, a: Attempt) returns (r: Result<Handle, DbError>, calls: seq<DriverCall>)
      modifies gestor
      ensures var g := Conexion(old(gestor.principal), old(gestor.secundaria), gestor.configuracion, usarSecundaria, a);
        r == g.reply && calls == g.calls && Selecciono(usarSecundaria, g)
    {
      r, calls := ObtenerConexion(usarSecundaria, a);
    }
  }
}
