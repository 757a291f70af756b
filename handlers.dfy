/**
  The decision logic of the HTTP handlers (internal/app/handlers.go): the
  global error-to-response mapping and the API status response. A response
  is the status sent plus the JSON body as a map. The request's method and
  URL, the clock and the loaded application configuration are inputs.
*/
module Handlers {
  import opened Wrappers
  import GestorB
  import opened Driver

  datatype Json = JBool(b: bool) | JInt(i: int) | JStr(s: string) | JObject(fields: map<string, Json>)

  datatype Response = Response(status: int, body: map<string, Json>)

  /** A Fiber error carries a code and a message; any other error only its text. */
  datatype AppError = FiberError(code: int, message: string) | OtherError(text: string)

  /** err.Error(): for a Fiber error, its message. */
  function Texto(e: AppError): string {
    match e
    case FiberError(_, m) => m
    case OtherError(t) => t
  }

  /** The part of the application configuration the handler reads. */
  datatype AppConfig = AppConfig(appEnv: string)

  const StatusOK: int := 200
  const StatusNotFound: int := 404
  const StatusInternalServerError: int := 500
  const MensajePorDefecto: string := "Ha ocurrido un error interno en el servidor."

  /** The value at a path of keys through nested objects. */
  function Lookup(m: map<string, Json>, path: seq<string>): Option<Json>
    requires |path| >= 1
    decreases |path|
  {
    if path[0] !in m then None
    else if |path| == 1 then Some(m[path[0]])
    else match m[path[0]]
      case JObject(f) => Lookup(f, path[1..])
      case _ => None
  }

  /**
    ErroresGlobales. `cfg` is what config.Obtener() returns (None when no
    configuration was loaded).
  */
  method ErroresGlobales(err: AppError, cfg: Option<AppConfig>, metodo: string, path: string, timestamp: string)
    returns (resp: Response)
    ensures {"error", "tipo", "mensaje", "path", "metodo", "status", "timestamp"} <= resp.body.Keys
    ensures resp.body["status"] == JInt(resp.status)
    ensures resp.body["error"] == JBool(true) && resp.body["path"] == JStr(path) && resp.body["metodo"] == JStr(metodo)
    ensures err.OtherError? ==>
      resp.status == StatusInternalServerError && resp.body["tipo"] == JStr("INTERNAL_SERVER_ERROR") &&
      resp.body["mensaje"] == JStr(MensajePorDefecto)
    ensures err.FiberError? ==> resp.status == err.code
    ensures err.FiberError? && err.code == StatusNotFound ==>
      resp.body["tipo"] == JStr("NOT_FOUND") && resp.body["mensaje"] == JStr("Recurso no encontrado.")
    ensures err.FiberError? && err.code != StatusNotFound ==>
      resp.body["tipo"] == JStr("INTERNAL_SERVER_ERROR") &&
      resp.body["mensaje"] == JStr(if err.message != "" then err.message else MensajePorDefecto)
    ensures ("detalles" in resp.body) <==> cfg.Some? && cfg.value.appEnv == "dev" && resp.status == StatusInternalServerError
    ensures "detalles" in resp.body ==> resp.body["detalles"] == JStr(Texto(err))
    ensures resp.body.Keys <= {"error", "tipo", "mensaje", "path", "metodo", "status", "timestamp", "detalles"}
  {
    var code := StatusInternalServerError;
    var mensaje := MensajePorDefecto;
    var tipo := "INTERNAL_SERVER_ERROR";
    if err.FiberError? {
      code := err.code;
      if code == StatusNotFound {
        mensaje := "Recurso no encontrado.";
        tipo := "NOT_FOUND";
      } else if err.message != "" {
        mensaje := err.message;
      }
    }
    var respuesta := map[
      "error" := JBool(true),
      "tipo" := JStr(tipo),
      "mensaje" := JStr(mensaje),
      "path" := JStr(path),
      "metodo" := JStr(metodo),
      "status" := JInt(code),
      "timestamp" := JStr(timestamp)];
    if cfg.Some? && cfg.value.appEnv == "dev" && code == StatusInternalServerError {
      respuesta := respuesta["detalles" := JStr(Texto(err))];
    }
    return Response(code, respuesta);
  }

  /**
    VerificarApi: always 200 with `status: true`; DB_SIGH says whether the
    health check of the manager passed, DB_SIGH_EXTERNA is always "lazy".
    `pingP`/`pingS` are the answers the pools would give; `probes` are the
    pings the health check sends.
  */
  method VerificarApi(db: GestorB.GestorDB, pingP: bool, pingS: bool, timestamp: string)
    returns (resp: Response, probes: seq<DriverCall>)
    ensures resp.status == StatusOK
    ensures "status" in resp.body && resp.body["status"] == JBool(true)
    ensures Lookup(resp.body, ["data", "servicios", "database", "DB_SIGH"]) ==
      Some(JBool(GestorB.Saludable(db.Estado(), pingP, pingS)))
    ensures Lookup(resp.body, ["data", "servicios", "database", "DB_SIGH_EXTERNA"]) == Some(JStr("lazy"))
    ensures Lookup(resp.body, ["data", "version"]) == Some(JStr("v3.0"))
    ensures db.principal.None? ==> probes == []
    ensures db.principal.Some? && (!pingP || db.secundaria.None?) ==> probes == [PingCall(db.principal.value.id)]
    ensures db.principal.Some? && pingP && db.secundaria.Some? ==>
      probes == [PingCall(db.principal.value.id), PingCall(db.secundaria.value.id)]
  {
    var estadoDbPrincipal := true;
    var err;
    err, probes := db.VerificarSalud(pingP, pingS);
    if err.Some? {
      estadoDbPrincipal := false;
    }
    var database := map["DB_SIGH" := JBool(estadoDbPrincipal), "DB_SIGH_EXTERNA" := JStr("lazy")];
    var data := map[
      "mensaje" := JStr("API funcionando correctamente"),
      "version" := JStr("v3.0"),
      "timestamp" := JStr(timestamp),
      "servicios" := JObject(map["database" := JObject(database)])];
    resp := Response(StatusOK, map["status" := JBool(true), "data" := JObject(data)]);
    assert Lookup(resp.body, ["data", "servicios", "database", "DB_SIGH"]) == Lookup(data, ["servicios", "database", "DB_SIGH"]);
    assert Lookup(data, ["servicios", "database", "DB_SIGH"]) == Lookup(database, ["DB_SIGH"]);
    assert Lookup(resp.body, ["data", "servicios", "database", "DB_SIGH_EXTERNA"]) == Lookup(database, ["DB_SIGH_EXTERNA"]);
  }
}
