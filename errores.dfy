/** The clinic's error taxonomy. Every domain exception of the program is a
    constructor of ErrorClinica; the invalid-data error carries the reason its
    message names, so that the order in which a constructor runs its checks is
    visible in the model. */
module Errores {

  /** Why an input was rejected with DatosInvalidos: one reason per message. */
  datatype Motivo =
    | NombreRequerido          // patient or doctor name empty
    | DniRequerido
    | FechaNacimientoRequerida
    | MatriculaRequerida
    | FechaRequerida           // appointment or prescription date empty
    | HoraRequerida
    | EspecialidadRequerida
    | FormatoFecha             // not a dd/mm/yyyy calendar date
    | FormatoHora              // not an HH:MM time of day
    | TipoRequerido            // specialty name empty
    | SinDias                  // specialty without days
    | DiaInvalido              // day name that is no weekday
    | SinMedicamentos
    | MedicamentoInvalido
    | IndicacionesRequeridas
    | TurnoAjeno               // appointment of another patient
    | RecetaAjena              // prescription of another patient
    | DniDuplicado
    | MatriculaDuplicada

  datatype ErrorClinica =
    | DatosInvalidos(motivo: Motivo)
    | PacienteNoEncontrado
    | MedicoNoEncontrado
    | MedicoNoDisponible
    | EspecialidadInvalida
    | TurnoOcupado

  datatype Option<+T> = None | Some(value: T)

  /** The value an operation returns, or the exception it raises. */
  datatype Result<+T> = Ok(value: T) | Err(error: ErrorClinica)

  /** The outcome of a check or of an operation that returns nothing. */
  datatype Outcome = Pass | Fail(error: ErrorClinica)
}
