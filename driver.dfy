/**
  The database driver as the pool manager sees it. A pool handle (`*sql.DB`)
  is an opaque value that records the connection string it was opened with
  and the limits the manager applied to it. Every outcome of a foreign call
  (`sql.Open`, `PingContext`, `Close`, queries) is an input, and every call
  the manager makes is reported as a `DriverCall`.
*/
module Driver {
  import opened Wrappers

  /** The settings applied with SetMaxOpenConns, SetMaxIdleConns, SetConnMaxIdleTime, SetConnMaxLifetime; None = never set. */
  datatype Limits = Limits(
    maxOpen: Option<int>,
    maxIdle: Option<int>,
    maxIdleTimeMs: Option<int>,
    maxLifetimeMs: Option<int>)

  datatype Handle = Handle(id: nat, dsn: string, limits: Limits)

  /** What opening a pool yields: `sql.Open` fails, or it hands out pool `id` whose first ping fails or succeeds. */
  datatype Attempt = OpenFails | PingFails(id: nat) | Reachable(id: nat)

  datatype DriverCall =
    | OpenCall(dsn: string)
    | PingCall(id: nat)
    | CloseCall(id: nat)
    | QueryCall(id: nat, sql: string, args: seq<string>)
    | QueryRowCall(id: nat, sql: string, args: seq<string>)
    | ExecCall(id: nat, sql: string, args: seq<string>)

  /** True of the calls a pool factory or a close path makes: no statement is sent. */
  predicate NoStatements(calls: seq<DriverCall>) {
    forall i :: 0 <= i < |calls| ==> calls[i].OpenCall? || calls[i].PingCall? || calls[i].CloseCall?
  }

  datatype Slot = Principal | Secundaria

  datatype DbError =
    | OpenFailed(pool: string)           // sql.Open returned an error
    | PingFailed(pool: string)           // the liveness ping after opening failed
    | ConfigLoadFailed                   // the configuration could not be loaded
    | NotInitialised                     // ObtenerGestor before a successful NuevoGestor
    | PrincipalNotInitialised            // strict health check with no principal pool
    | HealthCheckFailed(pool: string)    // a health-check ping failed
    | CloseFailed(pools: seq<Slot>)      // the pools whose Close failed, in order
}
