/**
  The already-loaded configuration document of the pool manager: one record
  per logical database ("principal", "secundaria") with its pool parameters.
  Go's `int` fields are unbounded integers here.
*/
module DatabaseModel {
  datatype ConfiguracionPool = ConfiguracionPool(
    min: int,
    max: int,
    idleTimeoutMs: int,
    connectionTimeoutMs: int)

  datatype ConfiguracionDB = ConfiguracionDB(
    host: string,
    port: int,
    name: string,
    user: string,
    password: string,
    encrypt: bool,
    trustServerCert: bool,
    pool: ConfiguracionPool)

  datatype Configuracion = Configuracion(principal: ConfiguracionDB, secundaria: ConfiguracionDB)
}
