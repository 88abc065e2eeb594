/** An appointment (turno) of a patient with a doctor at a date and time for a
    specialty. Building one checks the inputs, derives the weekday of the
    date and requires the doctor to practise exactly that specialty that
    weekday; afterwards only its status changes. */
module Turnos {
  import opened Errores
  import opened Fechas
  import opened Pacientes
  import opened Medicos

  datatype Estado = Programado | Completado | Cancelado

  /** The doctor whose agenda this is can be booked at that date and time for
      that specialty: the date and the time are canonical renderings, and the
      doctor practises that very specialty on the date's weekday. */
  ghost predicate Agendable(agenda: map<string, string>, fecha: string, hora: string, especialidad: string) {
    && especialidad != []
    && EsHoraCanonica(hora)
    && exists f :: FechaValida(f) && fecha == TextoFecha(f)
                   && NombreDia(f) in agenda && agenda[NombreDia(f)] == especialidad
  }

  /** The constructor's checks, in the order it makes them. The empty-field
      checks come first; the date is parsed next; availability and the
      specialty are checked on the date's weekday; the time's format is
      checked last. */
  function ValidarTurno(agenda: map<string, string>, fecha: string, hora: string, especialidad: string): (r: Outcome)
    ensures r == Pass <==> Agendable(agenda, fecha, hora, especialidad)
    ensures fecha == [] ==> r == Fail(DatosInvalidos(FechaRequerida))
    ensures fecha != [] && hora == [] ==> r == Fail(DatosInvalidos(HoraRequerida))
    ensures fecha != [] && hora != [] && especialidad == [] ==> r == Fail(DatosInvalidos(EspecialidadRequerida))
    ensures fecha != [] && hora != [] && especialidad != [] && !EsFechaCanonica(fecha) ==>
              r == Fail(DatosInvalidos(FormatoFecha))
  {
    ParseFechaAcepta(fecha);
    ParseHoraAcepta(hora);
    if fecha == [] then Fail(DatosInvalidos(FechaRequerida))
    else if hora == [] then Fail(DatosInvalidos(HoraRequerida))
    else if especialidad == [] then Fail(DatosInvalidos(EspecialidadRequerida))
    else match ParseFecha(fecha)
      case None => Fail(DatosInvalidos(FormatoFecha))
      case Some(f) =>
        var dia := NombreDia(f);
        if dia !in agenda || agenda[dia] == [] then Fail(MedicoNoDisponible)
        else if agenda[dia] != especialidad then Fail(EspecialidadInvalida)
        else if ParseHora(hora).None? then Fail(DatosInvalidos(FormatoHora))
        else Pass
  }

  /** Once the date is a calendar date, the checks on its weekday come in
      this order: the doctor works that day, with that specialty, and then
      the time's format. */
  lemma ValidarTurnoPorDia(agenda: map<string, string>, fecha: string, hora: string, especialidad: string, f: Fecha)
    requires FechaValida(f) && fecha == TextoFecha(f) && hora != [] && especialidad != []
    ensures ValidarTurno(agenda, fecha, hora, especialidad)
            == if NombreDia(f) !in agenda || agenda[NombreDia(f)] == [] then Fail(MedicoNoDisponible)
               else if agenda[NombreDia(f)] != especialidad then Fail(EspecialidadInvalida)
               else if !EsHoraCanonica(hora) then Fail(DatosInvalidos(FormatoHora))
               else Pass
  {
    ParseFechaExacto(fecha, f);
    ParseHoraAcepta(hora);
  }

  class Turno {
    const paciente: Paciente
    const medico: Medico
    const fecha: string
    const hora: string
    const especialidad: string
    var estado: Estado

    constructor (paciente: Paciente, medico: Medico, fecha: string, hora: string, especialidad: string)
      requires ValidarTurno(medico.agenda, fecha, hora, especialidad) == Pass
      ensures this.paciente == paciente && this.medico == medico
      ensures this.fecha == fecha && this.hora == hora && this.especialidad == especialidad
      ensures estado == Programado
    {
      this.paciente := paciente;
      this.medico := medico;
      this.fecha := fecha;
      this.hora := hora;
      this.especialidad := especialidad;
      estado := Programado;
    }

    /** The status is overwritten whatever it was; every other field is a constant. */
    method MarcarCompletado()
      modifies this`estado
      ensures estado == Completado
    {
      estado := Completado;
    }

    method MarcarCancelado()
      modifies this`estado
      ensures estado == Cancelado
    {
      estado := Cancelado;
    }
  }

  /** An appointment just built from these inputs: it records them as
      given and is scheduled. */
  predicate Nuevo(t: Turno, paciente: Paciente, medico: Medico, fecha: string, hora: string, especialidad: string)
    reads t
  {
    && t.paciente == paciente && t.medico == medico
    && t.fecha == fecha && t.hora == hora && t.especialidad == especialidad
    && t.estado == Programado
  }

  /** Building an appointment: the checks of ValidarTurno against the doctor's
      agenda as it is now, then a new appointment in status Programado. */
  method NuevoTurno(paciente: Paciente, medico: Medico, fecha: string, hora: string, especialidad: string)
    returns (r: Result<Turno>)
    ensures r.Ok? <==> ValidarTurno(medico.agenda, fecha, hora, especialidad) == Pass
    ensures r.Err? ==> r.error == ValidarTurno(medico.agenda, fecha, hora, especialidad).error
    ensures r.Ok? ==> fresh(r.value) && Nuevo(r.value, paciente, medico, fecha, hora, especialidad)
  {
    var v := ValidarTurno(medico.agenda, fecha, hora, especialidad);
    if v.Fail? {
      return Err(v.error);
    }
    var t := new Turno(paciente, medico, fecha, hora, especialidad);
    return Ok(t);
  }

  /** The program's examples: a doctor with Pediatría on Monday, Wednesday and
      Friday, booked on Wednesday 16/07/2025 and Thursday 17/07/2025. */
  const AgendaEjemplo: map<string, string> :=
    map["lunes" := "Pediatría", "miércoles" := "Pediatría", "viernes" := "Pediatría"]

  lemma EjemploTurnoValido()
    ensures ValidarTurno(AgendaEjemplo, "16/07/2025", "10:30", "Pediatría") == Pass
  {
    var f := Fecha(16, 7, 2025);
    Ejemplos();
    ParseFechaExacto("16/07/2025", f);
    EjemplosDia();
    EjemplosHora();
    ParseHoraAcepta("10:30");
    ValidarTurnoPorDia(AgendaEjemplo, "16/07/2025", "10:30", "Pediatría", f);
  }

  lemma EjemploOtraEspecialidad()
    ensures ValidarTurno(AgendaEjemplo, "16/07/2025", "10:30", "Cardiología") == Fail(EspecialidadInvalida)
  {
    var f := Fecha(16, 7, 2025);
    Ejemplos();
    ParseFechaExacto("16/07/2025", f);
    EjemplosDia();
    EjemplosHora();
    ParseHoraAcepta("10:30");
    ValidarTurnoPorDia(AgendaEjemplo, "16/07/2025", "10:30", "Cardiología", f);
  }

  lemma EjemploDiaSinAtencion()
    ensures ValidarTurno(AgendaEjemplo, "17/07/2025", "10:30", "Pediatría") == Fail(MedicoNoDisponible)
  {
    var f := Fecha(17, 7, 2025);
    Ejemplos();
    ParseFechaExacto("17/07/2025", f);
    EjemplosDia();
    EjemplosHora();
    ParseHoraAcepta("10:30");
    ValidarTurnoPorDia(AgendaEjemplo, "17/07/2025", "10:30", "Pediatría", f);
  }

  /** The weekday is checked before the time's format. */
  lemma EjemploDiaAntesQueHora()
    ensures ValidarTurno(AgendaEjemplo, "17/07/2025", "99:99", "Pediatría") == Fail(MedicoNoDisponible)
  {
    var f := Fecha(17, 7, 2025);
    Ejemplos();
    ParseFechaExacto("17/07/2025", f);
    EjemplosDia();
    EjemplosHora();
    ParseHoraAcepta("99:99");
    ValidarTurnoPorDia(AgendaEjemplo, "17/07/2025", "99:99", "Pediatría", f);
  }

  lemma EjemploHoraFueraDeRango()
    ensures ValidarTurno(AgendaEjemplo, "16/07/2025", "25:30", "Pediatría") == Fail(DatosInvalidos(FormatoHora))
  {
    var f := Fecha(16, 7, 2025);
    Ejemplos();
    ParseFechaExacto("16/07/2025", f);
    EjemplosDia();
    EjemplosHora();
    ParseHoraAcepta("25:30");
    ValidarTurnoPorDia(AgendaEjemplo, "16/07/2025", "25:30", "Pediatría", f);
  }

  lemma EjemploMinutoFueraDeRango()
    ensures ValidarTurno(AgendaEjemplo, "16/07/2025", "10:70", "Pediatría") == Fail(DatosInvalidos(FormatoHora))
  {
    var f := Fecha(16, 7, 2025);
    Ejemplos();
    ParseFechaExacto("16/07/2025", f);
    EjemplosDia();
    EjemplosHora();
    ParseHoraAcepta("10:70");
    ValidarTurnoPorDia(AgendaEjemplo, "16/07/2025", "10:70", "Pediatría", f);
  }

  lemma EjemplosTurnoInvalido()
    ensures ValidarTurno(AgendaEjemplo, "32/07/2025", "10:30", "Pediatría") == Fail(DatosInvalidos(FormatoFecha))
    ensures ValidarTurno(AgendaEjemplo, "2025-07-16", "10:30", "Pediatría") == Fail(DatosInvalidos(FormatoFecha))
    ensures ValidarTurno(AgendaEjemplo, "16/07/2025", "", "Pediatría") == Fail(DatosInvalidos(HoraRequerida))
    ensures ValidarTurno(AgendaEjemplo, "16/07/2025", "10:30", "") == Fail(DatosInvalidos(EspecialidadRequerida))
  {
    Ejemplos();
  }
}
