# Database-pool manager of the hospital-administration backend, in Dafny

This project models `GestorDB`, the manager of the backend's two SQL Server
connection pools, `principal` and `secundaria`. The manager is a small state
machine with two optional slots:

- the getters build a pool lazily and cache it;
- a failed build leaves the slot empty, so the next call tries again;
- the health check only reads the slots;
- the close path tries every present pool, goes on past failures, collects
  them and empties both slots.

Three revisions of this code exist, and each is its own module:

- **revision A**, `internal/config/database/database.go` (module `GestorA`): a
  lenient health check and the `NuevoGestor` singleton;
- **revision B**, `internal/config/database/conexion.go` with
  `internal/config/database/health.go` (module `GestorB`): a strict health
  check, `InicializarPrincipal`, and a `%t` connection string;
- **legacy**, `config/database.go` (module `ConfigDatabase`): package globals
  `PoolPrincipal`/`PoolExterno`, configuration from environment variables,
  fixed pool bounds.

Around them:

- `Servicio` models the query facade (`internal/shared/database/servicio.go`);
- `Handlers` models the error-to-response mapping and the API status handler
  (`internal/app/handlers.go`).

Shared pieces:

- `Lifecycle` holds the behaviour the revisions share, written as functions on
  values: the pool factory, the lazy getter of one slot, the close path, and
  runs of operations (`Run`) with lemmas about every run.
- `Driver` stands for `database/sql`:
  - A pool handle is a value `Handle(id, dsn, limits)`. It records the
    connection string and the limits the factory set on it. The `SetMax*`
    calls become these handle fields: they are not events in the trace, and
    the model does not order them against the ping.
  - The outcome of every foreign call is an input: an `Attempt` for
    `sql.Open` plus the first ping, and booleans for `PingContext` and `Close`.
  - Every `Open`, `PingContext`, `Close`, `QueryContext`, `QueryRowContext`
    and `ExecContext` call comes back as a `DriverCall` trace. This is how
    "no factory call", "secundaria is not probed" and "the unverified pool is
    closed" are stated.
- `ConnString` renders `key=value;...` strings and parses them back.
  `GoFormat` models the `%d` and `%t` verbs and Go's truncating `/`.
- `DatabaseModel` holds the loaded configuration records
  (`internal/config/database/database_model.go`).

Every class method that changes a slot states the new slots and the reply
directly. The getters and `Cerrar` of both revisions, and the legacy
`ObtenerConexionPrincipal` and `ObtenerConexionExterna`, also tie the call to
`Lifecycle.Step`, so the run lemmas (`PrincipalCachedUntilClose`,
`PrincipalProvenance`, …) apply to them. The other state-changing methods are
tied to `Lifecycle.Get`, `Lifecycle.Build` or `Lifecycle.CloseAll` instead:

- `GestorB.GestorDB.InicializarPrincipal`;
- the legacy `InicializarPoolPrincipal`, `InicializarPoolExterno` and
  `CerrarConexiones`;
- the `Servicio` methods.

Facts about the code that a reader might expect otherwise:

- The code has no closed flag and no `ClosedError`. After `Cerrar` the getters
  build the pool again (`Lifecycle.CloseThenGetReopens`).
- Each health check returns one error or nil, not one result per pool.
- After a failed first `NuevoGestor`, later calls return a nil manager and a
  nil error.
- Neither health check initialises a pool. Both only read the slots.

`handlers.go` and `servicio.go` compile against one `GestorDB`. This model
connects them to revision B, the revision with `InicializarPrincipal` and the
strict health check. Revision B's files declare neither the struct nor
`NuevoGestor`, so `GestorB.GestorDB` has a constructor that stands for
revision A's struct literal.

## Model

| member | source | states |
|---|---|---|
| `GestorA.Paquete.NuevoGestor` | internal/config/database/database.go:31-54 | The configuration load runs only on the first call (`cargas` <= 1). A successful first call returns a fresh manager with both slots empty. A failed first call returns the load error and no instance. Every later call reloads nothing and returns the stored instance (nil after a failed first load) with a nil error. |
| `GestorA.Paquete.ObtenerGestor` | internal/config/database/database.go:58-63 | Returns an error exactly when no instance exists, and the instance otherwise. |
| `GestorA.GestorDB.constructor` | internal/config/database/database.go:42-44 | A new manager holds the configuration and empty slots. |
| `GestorA.GestorDB.ObtenerPrincipal` | internal/config/database/database.go:138-158 | A present slot is returned unchanged with no driver call. An empty slot goes to `inicializarPool`. A failure returns the error and leaves the slot nil. A success stores the new handle and returns it. Secundaria cannot change (frame). |
| `GestorA.GestorDB.ObtenerSecundaria` | internal/config/database/database.go:161-181 | Symmetric to `ObtenerPrincipal` on the secundaria slot. Principal cannot change. |
| `GestorA.GestorDB.VerificarSalud` | internal/config/database/database.go:184-201 | Pings only the present pools, principal first. The result is nil iff every present pool answers, so it is nil with no pool at all. A principal failure is returned before secundaria is probed. The method assigns nothing. |
| `GestorA.GestorDB.Cerrar` | internal/config/database/database.go:204-233 | Tries Close on every present pool even after a failure. Both slots end up nil. The result is nil iff no Close failed; otherwise it is one error listing the failed pools in order. |
| `GestorA.ConstruirCadenaConexion` | internal/config/database/database.go:85-107 | For every configuration the string is the template `server=…;port=…;database=…;user id=…;password=…;encrypt=…;TrustServerCertificate=…;connection timeout=…`, filled in order. Port is written with `%d`, encrypt as "true"/"disable", TrustServerCertificate as "true"/"false", and the timeout is ConnectionTimeoutMs/1000 truncated toward zero. |
| `GestorA.CadenaCampos` | internal/config/database/database.go:85-107 | `ConstruirCadenaConexion` parses back into exactly its eight fields (`Campos`), in the template's order. This needs free-text fields without `;`. |
| `GestorA.InicializarPool` | internal/config/database/database.go:110-135 | Success happens iff open and ping succeed. The handle then carries revision A's connection string and the limits max open = Pool.Max, max idle = Pool.Min, idle time = IdleTimeoutMs and lifetime = 30 minutes, and was pinged. A failed ping closes the just-opened pool and returns an error. A failed open makes no other call. |
| `GestorB.GestorDB.constructor` | internal/config/database/database.go:42-44 | Revision B's manager as built from a loaded configuration, with both slots empty. |
| `GestorB.GestorDB.ObtenerPrincipal` | internal/config/database/conexion.go:12-32 | A present slot is returned with no driver call. A failed build leaves principal nil and passes the error on. A successful build is cached. Secundaria is untouched. |
| `GestorB.GestorDB.ObtenerSecundaria` | internal/config/database/conexion.go:35-55 | Symmetric on the secundaria slot. |
| `GestorB.GestorDB.InicializarPrincipal` | internal/config/database/conexion.go:58-61 | Fails iff the principal getter fails, with the same error. It changes only the principal slot, exactly as the getter does. |
| `GestorB.GestorDB.Cerrar` | internal/config/database/conexion.go:64-93 | Goes on past Close failures and empties both slots. The result is nil iff no failure occurred. It is equal to the `Lifecycle.Step` of a close. |
| `GestorB.ConstruirCadenaConexion` | internal/config/database/conexion.go:96-108 | For every configuration the string is the same eight-field template, filled in order. Both flags are written "true"/"false" (`%t`), and the timeout is truncated toward zero. |
| `GestorB.CadenaCampos` | internal/config/database/conexion.go:96-108 | The connection string parses back into exactly its eight fields (`Campos`), in the same order. This needs free-text fields without `;`. |
| `GestorB.CadenaComoRevisionA` | internal/config/database/conexion.go:98 | Revision B's and revision A's connection strings are equal iff Encrypt is true. With Encrypt false, one writes "false" and the other "disable". |
| `GestorB.InicializarPool` | internal/config/database/conexion.go:111-134 | Sets max open to Pool.Max, max idle to Pool.Min, idle time to IdleTimeoutMs and lifetime to 30 minutes. A failed ping closes the pool and returns an error. An unverified handle is never a success. |
| `GestorB.GestorDB.VerificarSalud` | internal/config/database/health.go:9-36 | No principal gives an error and no ping. A principal ping failure gives an error and secundaria is not probed. An absent secundaria never fails. A failing present secundaria gives an error. The result is nil iff `Saludable`: principal present and answering, and secundaria absent or answering. The method assigns nothing. |
| `GestorB.EstrictaContraLaxa` | internal/config/database/health.go:16-22 | The strict verdict is exactly the lenient verdict of revision A plus "principal is present". |
| `ConfigDatabase.ObtenerConfigPrincipal` | config/database.go:33-43 | Each field is the value of its environment variable (DB_USER, DB_PASSWORD, DB_SERVER, DB_DATABASE_PRINCIPAL, DB_PORT, DB_ENCRYPT, DB_TRUST_SERVER_CERTIFICATE), or "" when the variable is unset. |
| `ConfigDatabase.ObtenerConfigExterna` | config/database.go:46-56 | The same, except that the database name comes from DB_DATABASE_SECUNDARIA. |
| `ConfigDatabase.ConfigsDifierenSoloEnBaseDatos` | config/database.go:33-56 | The external configuration equals the principal one except for `BaseDatos`, which is read from DB_DATABASE_SECUNDARIA instead of DB_DATABASE_PRINCIPAL. |
| `ConfigDatabase.ConnectionStringIgnoraTls` | config/database.go:59-68 | The connection string does not depend on the `Encrypt` or `TrustServerCert` fields. |
| `ConfigDatabase.ConstruirConnectionString` | config/database.go:59-68 | For every configuration the string is `server=…;user id=…;password=…;port=…;database=…;encrypt=disable;TrustServerCertificate=true`, filled in that order from Servidor, Usuario, Password, Puerto and BaseDatos. |
| `ConfigDatabase.ConnectionStringCampos` | config/database.go:59-68 | The legacy string parses back into exactly its seven fields (`Campos`): server, user id, password, port, database, `encrypt=disable`, `TrustServerCertificate=true`, in that order. This needs fields without `;`, the DB_PORT string included. |
| `ConfigDatabase.Globales.InicializarPoolPrincipal` | config/database.go:71-100 | With a pool already set, it returns nil and makes no call. Otherwise it opens a pool with bounds 25/5. A failed ping closes the pool, keeps the global nil and returns the error. A success sets the global to the new pool. |
| `ConfigDatabase.Globales.InicializarPoolExterno` | config/database.go:103-132 | The same for `PoolExterno`, built from the external configuration. |
| `ConfigDatabase.Globales.ObtenerConexionPrincipal` | config/database.go:135-142 | Initialises only when the global is nil, passes an initialisation error on, and otherwise returns the global. |
| `ConfigDatabase.Globales.ObtenerConexionExterna` | config/database.go:145-152 | The same for the external pool. |
| `ConfigDatabase.Globales.CerrarConexiones` | config/database.go:155-173 | Tries Close on each present pool, principal first, and sets both globals to nil. It returns nothing. A failed Close is only logged, so the calls are those of `CloseAll` whatever the outcomes. |
| `Lifecycle.OpenPool` | internal/config/database/conexion.go:113-133 | The first call is the open. The handle is returned iff the ping succeeded, and it carries the connection string and the limits it was built with. A failed ping is followed by a Close of that pool. No statement is sent. |
| `Lifecycle.Get` | internal/config/database/conexion.go:12-32 | A present slot is returned with no call. An empty slot takes the factory's reply and calls. An error leaves the slot empty. A success fills the slot with exactly the returned handle. |
| `Lifecycle.CloseAll` | internal/config/database/conexion.go:64-92 | Closes principal first, then secundaria whenever present, regardless of principal's outcome. Both slots end up empty. Exactly the failed pools are collected, in order. |
| `Lifecycle.CloseIdempotent` | internal/config/database/database.go:204-233 | A second close finds both slots empty, makes no call and returns nil. |
| `Lifecycle.CloseThenGetReopens` | internal/config/database/database.go:138-157 | After a close, a getter goes to the factory again, because there is no closed flag. |
| `Lifecycle.Run` | internal/config/database/database.go:137-233 | Replays a sequence of getter and close calls and yields one reply per call. |
| `Lifecycle.PrincipalCachedUntilClose` | internal/config/database/database.go:138-157 | Once principal holds a handle, in any close-free run of getters (principal and secundaria mixed), every principal getter returns that handle with no driver call and the slot keeps it. |
| `Lifecycle.SecundariaCachedUntilClose` | internal/config/database/database.go:161-181 | The same for secundaria, in any close-free run of getters. |
| `Lifecycle.PrincipalProvenance` | internal/config/database/database.go:151-157 | No poisoned slot. A principal handle held at the end of any run was held from the start with no close in between, or was the successful reply of one of the run's principal getters. |
| `Lifecycle.PrincipalGettersLeaveSecundaria` | internal/config/database/database.go:151-157 | Any number of principal getter calls leave secundaria as it was. |
| `ConnString.ParseRender` | internal/config/database/database.go:96-106 | Parsing a rendered `key=value;...` list gives back the same pairs in order, provided keys have no `=` or `;` and values have no `;`. |
| `ConnString.RenderDiffersAt` | internal/config/database/conexion.go:97-107 | Two lists that differ in the first character of one value render to different strings. |
| `GoFormat.Itoa` | internal/config/database/database.go:99 | `%d` writes digits, with a leading `-` exactly for negative numbers. |
| `GoFormat.AtoiItoa` | internal/config/database/database.go:99 | `%d` output parses back to the same integer. |
| `GoFormat.TruncDiv1000` | internal/config/database/database.go:105 | Go's `/ 1000`: the remainder is below 1000 in magnitude and has the sign of the dividend, so the quotient truncates toward zero. It is not Euclidean. |
| `GoFormat.TruncDivContraEuclidea` | internal/config/database/conexion.go:106 | For every dividend, Go's `/ 1000` equals the Euclidean quotient on non-negative values and on multiples of 1000, and is one larger on the other negative values. |
| `Servicio.ServicioDB.ObtenerConexion` | internal/shared/database/servicio.go:20-25 | `true` delegates to the secundaria getter and `false` to the principal getter. Only the chosen slot can change. |
| `Servicio.ServicioDB.EjecutarQuery` | internal/shared/database/servicio.go:29-41 | A connection failure returns a wrapped connection error and sends no statement. Otherwise exactly one query is sent, with the given text and arguments, to the obtained pool. |
| `Servicio.ServicioDB.EjecutarQueryRow` | internal/shared/database/servicio.go:44-53 | A connection failure returns nil and sends nothing. Otherwise one row query is sent. |
| `Servicio.ServicioDB.EjecutarExec` | internal/shared/database/servicio.go:56-68 | A connection failure returns a wrapped error and executes nothing. Otherwise one command is executed. |
| `Servicio.ServicioDB.EjecutarSP` | internal/shared/database/servicio.go:73-86 | Stops on a connection failure. Otherwise it executes exactly `"EXEC " + nombreSP`. |
| `Servicio.ServicioDB.ObtenerDB` | internal/shared/database/servicio.go:90-92 | Has the same contract as `ObtenerConexion`. |
| `Servicio.ConexionSinSentencias` | internal/shared/database/servicio.go:30-33 | Whatever getter is chosen, obtaining a connection sends no statement. |
| `Servicio.ServicioDB.NuevoServicio` | internal/shared/database/servicio.go:15-17 | The service wraps the given manager. |
| `Handlers.ErroresGlobales` | internal/app/handlers.go:14-59 | A non-Fiber error gives 500, INTERNAL_SERVER_ERROR and the default message. A Fiber 404 gives NOT_FOUND and "Recurso no encontrado." whatever its message. Any other Fiber code is sent as is; its message is used when non-empty, the default otherwise, and tipo stays INTERNAL_SERVER_ERROR. The body's `status` equals the status sent. `detalles` (the error text) is present iff a configuration is loaded, AppEnv is "dev" and the code is 500. |
| `Handlers.VerificarApi` | internal/app/handlers.go:62-89 | Always 200 with `status: true`. `DB_SIGH` is true iff revision B's health check passes on the manager's slots, `DB_SIGH_EXTERNA` is always "lazy", and the version is "v3.0". The pings of the health check are returned: none without principal, principal only when its ping fails or secundaria is absent, otherwise principal then secundaria. |

## Left out

- Concurrency: `sync.RWMutex`, `sync.Mutex` and `sync.Once` are not modelled. Calls are sequential, so the double-checked locking becomes one "if present, return" test and the once-guard becomes the `once` field.
- The driver (`sql.Open`, `PingContext`, `Ping`, `Close`, `SetMax*`, `QueryContext`, `QueryRowContext`, `ExecContext`) is foreign. Its outcomes are inputs, and its settings are recorded on the handle. `database/sql`'s own clamping of max idle against max open is not modelled.
- Context deadlines (5 s, 2 s, ConnectionTimeoutMs) are not modelled. A ping that times out is one whose outcome input says it failed.
- Configuration loading (`cargarConfiguracion`, `CargarConfiguracion`, `config.Cargar`) is file I/O, environment expansion and YAML parsing. The loaded `Configuracion` or a load error is an input of `NuevoGestor`. `config.Obtener()` is an input of `ErroresGlobales`.
- Environment variables of the legacy revision are a map. A missing variable reads as "".
- Logging, `time.Now` timestamps (an input of the handlers) and the wording of error messages are left out. Errors are kinds that keep the pool name given in the source.
- `time.Duration` arithmetic is not modelled. Times are kept in milliseconds, and int64 overflow of `IdleTimeoutMs * time.Millisecond` is not modelled. The integer fields of the configuration are unbounded.
- The handlers' request context (`c.Method()`, `c.OriginalURL()`) consists of inputs. Fiber's JSON encoding is not modelled: the body is a map of JSON values.
- The `/health` handler and the other error handler in cmd/api/main.go, the server wiring, middlewares and routes, the SQL text constants, and the `Row.Scan`-based services are not part of this model.
- The variadic query arguments are modelled as a list of strings that is passed to the driver unchanged.
- `GestorA.CadenaCampos`, `GestorB.CadenaCampos`, `ConfigDatabase.ConnectionStringCampos`: the read-back holds only when host, database, user and password contain no `;`, and, in the legacy revision, when the DB_PORT string (`Puerto`, written with `%s`) contains none either. The source does no escaping, and the driver's own connection-string parser is not modelled, so nothing is stated for other values.
