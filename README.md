# Clinic record keeper — a verified model

The program keeps a clinic's records in memory.

- **Patients** are registered by DNI, with a name and a birth date.
- **Doctors** are registered by licence number (matrícula). Each weekday of a doctor's agenda carries the name of the one specialty they practise that day.
- **Specialties** are a name and a list of weekdays. Day names are taken in any case and with or without accents ("miercoles" and "sábado" are both accepted) and are stored in one canonical spelling.
- **Appointments** (turnos) join a patient, a doctor, a dd/mm/yyyy date, an HH:MM time and a specialty. An appointment is accepted only when the doctor practises exactly that specialty on the weekday of the date. Its status starts as Programado and can be set to Completado or Cancelado.
- **Prescriptions** (recetas) join a patient, a doctor, a date, a non-empty list of medications and the instructions.
- **Clinical histories**: each patient has one. It collects that patient's appointments and prescriptions, and refuses items of anyone else.
- **The clinic** is the only way to create records. It rejects repeated keys. It reports unknown patients and doctors. It refuses to book a doctor's date-and-time slot while an appointment that is not cancelled holds it.

The model is one Dafny module per source file, plus a few shared modules:

- `Errores`: the exception taxonomy as a datatype. The invalid-data error carries the reason its message names, so the order of the checks can be seen.
- `Fechas`: the dd/mm/yyyy and HH:MM parsing, and the weekday of a date.
- `Escenarios`: how the clinic's operations combine.

Records the program never changes after they are built are datatypes: `Paciente`, `Receta` and `Especialidad`. Objects whose fields are updated in place are classes: `Medico`, `Turno`, `HistoriaClinica` and `Clinica`. The clinic's list and the histories share the same `Turno` objects, so cancelling an appointment through one is seen through the other. The clinic's invariant covers its registries, its records and the invariant of every history and every doctor it holds, so a history or a doctor the clinic hands out can be used with its own operations.

In these behaviours the model follows the code:

- The code lets an appointment that was cancelled be marked completed, or the reverse. `Turno.MarcarCompletado` and `Turno.MarcarCancelado` work in any state.
- The code stores a specialty's days as a list, repetitions included, not as a set.
- Each appointment keeps its date and time as the text it was given. The clinic's slot check compares that text, not the calendar date.

## Model

| member | source | states |
|---|---|---|
| Fechas.DiasDelMes | src/modelo/turno.py:35 | every month of the calendar strptime checks against has 28 to 31 days |
| Fechas.ParseFechaDeFormato | src/modelo/turno.py:35 | rendering a calendar date as dd/mm/yyyy and parsing it back gives the same date |
| Fechas.ParseFechaCanonica | src/modelo/turno.py:35 | whatever the parser accepts is a calendar date, and the text is exactly that date's dd/mm/yyyy rendering |
| Fechas.ParseFechaExacto | src/modelo/turno.py:34-35 | a text parses to date f if and only if f is a calendar date and the text is its dd/mm/yyyy rendering |
| Fechas.ParseFechaAcepta | src/modelo/paciente.py:18-23 | a date text is accepted exactly when it renders some calendar date, and then it parses to that date |
| Fechas.ParseHoraExacto | src/modelo/turno.py:60-65 | a text parses to time h if and only if h has hour 0-23 and minute 0-59 and the text is its HH:MM rendering |
| Fechas.ParseHoraAcepta | src/modelo/turno.py:60-65 | a time text is accepted exactly when it renders some valid time of day |
| Fechas.ParseFecha | src/modelo/turno.py:34-35 | a date text that is accepted is ten characters with '/' at positions 2 and 5, and denotes a calendar date |
| Fechas.ParseHora | src/modelo/turno.py:60-65 | a time text that is accepted is five characters with ':' at position 2, and denotes a valid time of day |
| Fechas.Ordinal | src/modelo/turno.py:44 | the day number of a calendar date counts from 1 on 01/01/0001 |
| Fechas.DiaDeLaSemana | src/modelo/turno.py:44 | the weekday index of a date lies in 0..6 (Monday is 0) |
| Fechas.NombreDia | src/modelo/turno.py:36-44 | the weekday name of a date is one of the seven canonical names |
| Fechas.DiasAntesDelAnioPaso | src/modelo/turno.py:44 | a year adds 365 days to the day count, and 366 when it is a leap year |
| Fechas.OrdinalSiguiente | src/modelo/turno.py:44 | the calendar day after a date is a date again, and its day number is one more |
| Fechas.OrdinalInyectivo | src/modelo/turno.py:44 | two calendar dates with the same day number are the same date |
| Fechas.DiaDeLaSemanaSiguiente | src/modelo/turno.py:36-44 | the next day's weekday is the following one, with Sunday followed by Monday |
| Fechas.PrimeraFecha | src/modelo/turno.py:35 | 01/01/0001, the first day of the calendar, is accepted |
| Fechas.PrimerDiaEsLunes | src/modelo/turno.py:36-44 | 01/01/0001 is a Monday, which anchors the weekday computation |
| Fechas.Ejemplos | tests/test_turno.py:45-53 | 16/07/2025 and 17/07/2025 parse; 32/07/2025, 2025-07-16 and 29/02/2025 are refused; 29/02/2024 is accepted |
| Fechas.EjemplosDia | tests/test_turno.py:65-67 | 16/07/2025 is a Wednesday and 17/07/2025 a Thursday |
| Fechas.EjemplosHora | tests/test_turno.py:55-63 | 10:30 parses; 25:30 and 10:70 are refused |
| Especialidades.EspecialidadDe | src/modelo/especialidad.py:5-39 | a specialty is built if and only if the name is not empty, there is at least one day, and every day, lower-cased, is one of the nine accepted spellings; the result keeps the name and one normalised day per input day; otherwise it is the first failing reason (name, then days, then a bad day) |
| Especialidades.NuevaEspecialidad | src/modelo/especialidad.py:26-39 | the normalising loop returns exactly the specialty, or the error, that EspecialidadDe defines |
| Especialidades.Minusculas | src/modelo/especialidad.py:28 | lower-casing keeps the length, leaves no ASCII capital, and changes no character that is not a capital letter |
| Especialidades.Normalizar | src/modelo/especialidad.py:28-36 | a day name normalises to one of the seven canonical weekday names if and only if its lower-cased form is one of the nine accepted spellings; any other name is only lower-cased |
| Especialidades.VerificarDia | src/modelo/especialidad.py:44-51 | a day found in a valid specialty is, lower-cased, one of the accepted spellings |
| Especialidades.MinusculasIdempotente | src/modelo/especialidad.py:28 | lower-casing twice is lower-casing once |
| Especialidades.NormalizarIdempotente | src/modelo/especialidad.py:28-36 | normalising a day name twice is normalising it once |
| Especialidades.NormalizarCanonico | src/modelo/especialidad.py:29-36 | every accepted spelling normalises to one of the seven canonical weekday names |
| Especialidades.NormalizarFijaCanonicos | src/modelo/especialidad.py:32-36 | the canonical names are left unchanged by normalisation |
| Especialidades.VerificarDiaExacto | src/modelo/especialidad.py:44-51 | for a built specialty, a day is attended if and only if its normalised form is the normalised form of one of the given days |
| Especialidades.VerificarDiaIgnoraMayusculas | src/modelo/especialidad.py:46 | the day check gives the same answer for a name and its lower-cased form |
| Especialidades.VerificarDiaIgnoraAcentos | src/modelo/especialidad.py:47-50 | "miercoles" and "miércoles", and "sabado" and "sábado", get the same answer |
| Especialidades.VerificarDiaAlmacenado | src/modelo/especialidad.py:44-51 | every stored day of a valid specialty is reported as attended |
| Especialidades.EjemploPediatria | tests/test_especialidad.py:8-13 | Pediatría on lunes, miércoles and viernes is built with those days |
| Especialidades.EjemplosEspecialidadInvalida | tests/test_especialidad.py:44-60 | an empty name, no days, or an unknown day name each give their own invalid-data reason |
| Pacientes.NuevoPaciente | src/modelo/paciente.py:7-27 | a patient is built if and only if the name and the DNI are not empty and the birth date is a dd/mm/yyyy calendar date; the fields are kept as given; otherwise the error is the first failing check in the source's order |
| Pacientes.NuevoPacienteReconstruye | src/modelo/paciente.py:25-36 | the getters give back exactly the name, DNI and birth date the patient was built from |
| Pacientes.EjemplosPaciente | tests/test_paciente.py:8-12 | the patient of the tests is built with its own fields |
| Pacientes.EjemplosPacienteInvalido | tests/test_paciente.py:38-40 | 1980-02-03 is refused as a wrongly formatted date; an empty name is reported before the empty date |
| Medicos.Medico.constructor | src/modelo/clinica.py:44 | a new doctor has the given name and licence and an empty agenda |
| Medicos.Medico.ObtenerEspecialidadParaDia | src/modelo/turno.py:46-47 | there is a specialty for a day if and only if the agenda has that day, and it is the agenda's entry |
| Medicos.Medico.AgregarEspecialidad | src/modelo/clinica.py:60 | every day of the specialty ends up in the agenda; days it does not name keep their entry; a day it names that had none gets its name; the agenda keeps only canonical days |
| Medicos.ValidarMedico | src/modelo/clinica.py:44 | a doctor's data pass if and only if the name and the licence are not empty; an empty name is reported first |
| Medicos.NuevoMedico | src/modelo/clinica.py:44 | a doctor is built exactly when the data pass, with the given name and licence; otherwise the validation error |
| Turnos.ValidarTurno | src/modelo/turno.py:21-65 | an appointment is accepted if and only if the date, time and specialty are given, the date is a calendar date, the doctor practises on its weekday exactly the named specialty, and the time is a valid HH:MM; each failure gives the error of the first failing check, the date before the time |
| Turnos.ValidarTurnoPorDia | src/modelo/turno.py:36-65 | for a well-formed date, the result is decided by the agenda entry of that date's weekday: no entry means the doctor is unavailable, another name means the wrong specialty, then only the time is left |
| Turnos.Turno.constructor | src/modelo/turno.py:67-72 | an accepted appointment keeps the patient, doctor, date text, time text and specialty, and starts as Programado |
| Turnos.Turno.MarcarCompletado | src/modelo/turno.py:92-93 | the status becomes Completado and nothing else changes |
| Turnos.Turno.MarcarCancelado | src/modelo/turno.py:95-96 | the status becomes Cancelado and nothing else changes |
| Turnos.NuevoTurno | src/modelo/turno.py:12-72 | a fresh appointment with the given data and status Programado is returned if and only if the checks pass; otherwise the checks' error |
| Turnos.EjemploTurnoValido | tests/test_turno.py:21-29 | Pediatría on Wednesday 16/07/2025 at 10:30 is accepted for the doctor of the tests |
| Turnos.EjemploOtraEspecialidad | tests/test_turno.py:69-71 | Cardiología that day is refused as the wrong specialty |
| Turnos.EjemploDiaSinAtencion | tests/test_turno.py:65-67 | Thursday 17/07/2025 is refused because the doctor does not work that day |
| Turnos.EjemploDiaAntesQueHora | src/modelo/turno.py:46-65 | an unavailable day is reported even when the time is malformed, because the weekday is checked first |
| Turnos.EjemploHoraFueraDeRango | tests/test_turno.py:59-60 | hour 25 is refused as a wrongly formatted time |
| Turnos.EjemploMinutoFueraDeRango | tests/test_turno.py:62-63 | minute 70 is refused as a wrongly formatted time |
| Turnos.EjemplosTurnoInvalido | tests/test_turno.py:45-78 | a bad date text, an empty time and an empty specialty each give their own reason |
| Recetas.NuevaReceta | src/modelo/receta.py:8-47 | a prescription is built if and only if the date is a dd/mm/yyyy calendar date, there is at least one medication and none is empty, and the instructions are not empty; the result keeps the given data; otherwise the error of the first failing check in the source's order |
| Recetas.EjemploRecetaValida | tests/test_receta.py:16-29 | the prescription of the tests is built as given |
| Recetas.EjemplosRecetaInvalida | tests/test_receta.py:61-123 | an empty medication, a bad date, no medications and empty instructions each give their own reason |
| Historias.HistoriaClinica.constructor | src/modelo/historia_clinica.py:8-15 | a new history belongs to the given patient and holds no appointments and no prescriptions |
| Historias.HistoriaClinica.AgregarTurno | src/modelo/historia_clinica.py:17-25 | an appointment of another patient is refused and nothing changes; otherwise it is appended; the prescriptions are untouched, and the "every item is the owner's" invariant holds afterwards exactly when it held before |
| Historias.HistoriaClinica.AgregarReceta | src/modelo/historia_clinica.py:27-35 | the same for prescriptions, leaving the appointments untouched |
| Historias.HistoriaClinica.ObtenerTurnos | src/modelo/historia_clinica.py:40-41 | the appointments in order, every one of them the owner's |
| Historias.HistoriaClinica.ObtenerRecetas | src/modelo/historia_clinica.py:43-44 | the prescriptions in order, every one of them the owner's |
| Clinicas.CardinalSinRepetidos | src/modelo/clinica.py:146-150 | a key order without repetitions has as many entries as there are distinct keys, so the listings have one entry per record |
| Clinicas.RegistroTrasAlta | src/modelo/clinica.py:31 | adding a new key at the end keeps the order a faithful record of the dictionary's insertion order |
| Clinicas.DuenosTrasAlta | src/modelo/clinica.py:30-33 | registering a patient together with a history of their own keeps every history with its owner |
| Clinicas.TurnosTrasAltaPaciente | src/modelo/clinica.py:31 | registering a new patient keeps every stored appointment with a registered patient and doctor |
| Clinicas.TurnosTrasAltaMedico | src/modelo/clinica.py:45 | the same when a new doctor is registered |
| Clinicas.TurnosTrasAgenda | src/modelo/clinica.py:93-101 | appending an appointment of a registered patient and doctor keeps that invariant |
| Clinicas.Bloquea | src/modelo/clinica.py:82-91 | a cancelled appointment holds no slot, and an appointment holds a slot only of its own doctor's licence |
| Clinicas.SlotOcupado | src/modelo/clinica.py:82-91 | a list whose appointments are all cancelled leaves every slot free |
| Clinicas.SlotTrasAgregar | src/modelo/clinica.py:82-91 | after appending an appointment, a slot is taken if and only if it was taken before or the new appointment holds it; a cancelled appointment holds no slot |
| Clinicas.BuscarConflicto | src/modelo/clinica.py:82-91 | the scan finds a conflict if and only if some stored appointment with that licence, date text and time text is not cancelled |
| Clinicas.Clinica.constructor | src/modelo/clinica.py:17-21 | a new clinic has no patients, doctors, histories or appointments, and satisfies the invariant |
| Clinicas.Clinica.RegistrarPaciente | src/modelo/clinica.py:23-35 | a repeated DNI is refused before the data are checked; otherwise the result is the patient's own validation; a new patient is added with a fresh empty history of their own, at the end of the listing order; nothing else changes; the invariant is kept |
| Clinicas.Clinica.Alta | src/modelo/clinica.py:30-33 | a new patient is stored under their DNI together with the given empty history of their own, and added at the end of the order; doctors and appointments are unchanged; the invariant is kept |
| Clinicas.Clinica.RegistrarMedico | src/modelo/clinica.py:37-47 | a repeated licence is refused before the data are checked; otherwise the doctor's own validation decides; a new doctor with an empty agenda is added at the end of the order; patients, histories and appointments are unchanged |
| Clinicas.Clinica.AgregarEspecialidadAMedico | src/modelo/clinica.py:49-62 | an unknown licence is reported before the specialty is checked; otherwise the specialty's own validation decides, and a built specialty enters that doctor's agenda; no other doctor's agenda changes |
| Clinicas.Clinica.AgendarTurno | src/modelo/clinica.py:64-105 | unknown patient, then unknown doctor, then a taken slot are reported in that order; otherwise the appointment's own checks decide; a new appointment is appended to the clinic's list and to that patient's history, and no other history and no prescription changes; the invariant is kept |
| Clinicas.Clinica.Reservar | src/modelo/clinica.py:93-105 | the appointment is built when its checks pass and is then appended to the clinic's list and to the patient's history; otherwise neither changes |
| Clinicas.Clinica.Admitir | src/modelo/clinica.py:73-91 | the checks before building: unknown patient, unknown doctor, then the slot is taken exactly when an appointment that is not cancelled holds it |
| Clinicas.Clinica.Anotar | src/modelo/clinica.py:101-103 | the appointment is appended to the clinic's list and to its patient's history; nothing else changes |
| Clinicas.Clinica.EmitirReceta | src/modelo/clinica.py:107-135 | the same not-found checks and no slot check; otherwise the prescription's own validation decides; a new prescription is appended to that patient's history only; appointments are unchanged |
| Clinicas.Clinica.ObtenerHistoriaClinica | src/modelo/clinica.py:137-144 | the stored history of that DNI, belonging to that patient and keeping its own invariant, or the not-found error |
| Clinicas.Clinica.ListarPacientes | src/modelo/clinica.py:146-147 | one entry per registered patient, in registration order, and every registered patient appears |
| Clinicas.Clinica.ListarMedicos | src/modelo/clinica.py:149-150 | one entry per registered doctor, in registration order, and every registered doctor appears |
| Clinicas.Clinica.BuscarPaciente | src/modelo/clinica.py:152-155 | the patient stored under that DNI, or the not-found error |
| Clinicas.Clinica.BuscarMedico | src/modelo/clinica.py:157-162 | the doctor stored under that licence, keeping its own invariant, or the not-found error |
| Escenarios.TurnosDelPaciente | tests/test_clinica.py:78-79 | a client of a valid clinic can take a registered patient's history and list its appointments: the list is the history's, every entry is that patient's, and an unknown DNI gives the not-found error |
| Escenarios.ReservaLibre | src/modelo/clinica.py:64-105 | a free slot for a registered patient and doctor is booked when the date and time are canonical and the doctor practises that specialty on the date's weekday; the fresh appointment holds the slot and is in both lists |
| Escenarios.ReservaOcupada | src/modelo/clinica.py:82-91 | a taken slot is refused as occupied, whoever the patient, and neither list changes |
| Escenarios.OcuparDosVeces | tests/test_clinica.py:97-112 | in a clinic without appointments, booking a slot twice leaves the first booking and refuses the second |
| Escenarios.CancelarUnico | src/modelo/clinica.py:82-91 | cancelling the only appointment of a clinic keeps the invariant and frees its slot |
| Escenarios.CancelarLiberaElTurno | src/modelo/clinica.py:82-91 | a cancelled appointment, seen through the patient's history, no longer holds its slot, so the slot is free again |

## Left out

- Date and time parsing: the model accepts exactly the zero-padded dd/mm/yyyy and HH:MM texts with years 0001-9999. Python's strptime also accepts unpadded fields such as "1/7/2025" or "9:05", and the model refuses those.
- Type checks: the isinstance tests of every constructor are not modelled. Dafny's types rule out a value of the wrong kind, and `None` is modelled as the empty text or the empty list.
- Lower-casing: it covers ASCII and the accented capitals of the weekday names only, not all of Unicode.
- The `__str__` renderings of every class are not modelled. They only produce display text.
- Getters: the getters that return a plain field, and the `.copy()`s of the lists, are not modelled as separate operations. In Dafny a `seq` is a value, so a copy cannot be told apart from the original.
- Exceptions are modelled as `Result` and `Outcome` values of the `ErrorClinica` datatype. The class hierarchy in src/excepciones.py is not modelled.
- src/modelo/medico.py is not part of this model. The doctor is modelled through what the other files use of it: the licence, the name, `obtener_especialidad_para_dia` and `agregar_especialidad`. Its constructor is taken to require a name and a licence that are not empty.
- Medicos.Medico.AgregarEspecialidad: for a day that already had a specialty, the result is left as either the old name or the new one, because no file shown here defines what `agregar_especialidad` does with a day that already has an entry. The agenda keeps its invariant only when it held before the call.
- Clinicas.Clinica.Valid: does not include, for each appointment in the clinic, its membership of the patient's history.
- Escenarios.CancelarLiberaElTurno: starts from a clinic without appointments and does not perform the final rebooking call. It proves that the slot is free again, and that the doctor's agenda, and so the appointment's checks, are untouched.
- The command-line interface in src/cli/cli.py is not modelled. It is input and output around the clinic.
- Dictionary iteration order is modelled by explicit key-order sequences of the clinic.
