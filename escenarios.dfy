/** How the clinic's operations combine. The appointment the clinic stores
    is the very object the patient's history holds, so cancelling it is seen
    by both and frees its slot. */
module Escenarios {
  import opened Errores
  import opened Pacientes
  import opened Historias
  import opened Turnos
  import opened Clinicas

  /** A patient's appointments as a client of the clinic reads them: the
      history the clinic hands out, then its list. Each one is that
      patient's, and an unknown DNI is reported as such. */
  method TurnosDelPaciente(c: Clinica, dni: string) returns (r: Result<seq<Turno>>)
    requires c.Valid()
    ensures dni in c.pacientes ==> r == Ok(c.historias[dni].turnos)
    ensures dni !in c.pacientes ==> r == Err(PacienteNoEncontrado)
    ensures r.Ok? ==> forall i :: 0 <= i < |r.value| ==> r.value[i].paciente.dni == dni
  {
    var h := c.ObtenerHistoriaClinica(dni);
    if h.Err? {
      return Err(h.error);
    }
    var ts := h.value.ObtenerTurnos();
    return Ok(ts);
  }

  /** Booking a free slot that passes the appointment's checks succeeds. */
  method ReservaLibre(c: Clinica, h: HistoriaClinica, dni: string, matricula: string,
                      fecha: string, hora: string, especialidad: string)
    returns (t: Turno)
    requires c.Valid() && dni in c.pacientes && matricula in c.medicos && dni in c.historias && c.historias[dni] == h
    requires !SlotOcupado(c.turnos, matricula, fecha, hora)
    requires Agendable(c.medicos[matricula].agenda, fecha, hora, especialidad)
    modifies c`turnos, h`turnos
    ensures c.Valid() && fresh(t)
    ensures t.paciente == c.pacientes[dni] && t.estado == Programado && Bloquea(t, matricula, fecha, hora)
    ensures c.turnos == old(c.turnos) + [t]
    ensures h.turnos == old(h.turnos) + [t]
  {
    var r := c.AgendarTurno(dni, matricula, fecha, hora, especialidad);
    t := r.value;
  }

  /** Booking a taken slot is refused and changes no list. */
  method ReservaOcupada(c: Clinica, h: HistoriaClinica, dni: string, matricula: string,
                        fecha: string, hora: string, especialidad: string)
    returns (r: Result<Turno>)
    requires c.Valid() && dni in c.pacientes && matricula in c.medicos && dni in c.historias && c.historias[dni] == h
    requires SlotOcupado(c.turnos, matricula, fecha, hora)
    modifies c`turnos, h`turnos
    ensures c.Valid() && r == Err(TurnoOcupado)
    ensures c.turnos == old(c.turnos) && h.turnos == old(h.turnos)
  {
    r := c.AgendarTurno(dni, matricula, fecha, hora, especialidad);
  }

  /** Books a slot of a clinic without appointments and sees a second
      booking of it refused. */
  method OcuparDosVeces(c: Clinica, h: HistoriaClinica, otra: HistoriaClinica, dni: string, otroDni: string,
                        matricula: string, fecha: string, hora: string, especialidad: string)
    returns (primero: Turno, ocupado: Result<Turno>)
    requires c.Valid() && dni in c.pacientes && otroDni in c.pacientes && matricula in c.medicos
    requires dni in c.historias && c.historias[dni] == h && otroDni in c.historias && c.historias[otroDni] == otra
    requires c.turnos == []
    requires Agendable(c.medicos[matricula].agenda, fecha, hora, especialidad)
    modifies c`turnos, h`turnos, otra`turnos
    ensures c.Valid() && fresh(primero) && primero.estado == Programado
    ensures ocupado == Err(TurnoOcupado)
    ensures c.turnos == [primero] && h.turnos == old(h.turnos) + [primero]
  {
    primero := ReservaLibre(c, h, dni, matricula, fecha, hora, especialidad);
    SlotTrasAgregar([], primero, matricula, fecha, hora);
    ocupado := ReservaOcupada(c, otra, otroDni, matricula, fecha, hora, especialidad);
  }

  /** Cancelling the only appointment of a clinic frees its slot and keeps
      the clinic's invariant. */
  method CancelarUnico(c: Clinica, t: Turno, matricula: string, fecha: string, hora: string)
    requires c.Valid() && c.turnos == [t]
    modifies t`estado
    ensures c.Valid() && t.estado == Cancelado
    ensures !SlotOcupado(c.turnos, matricula, fecha, hora)
  {
    t.MarcarCancelado();
    SlotTrasAgregar([], t, matricula, fecha, hora);
  }

  /** In a clinic with no appointments yet: a slot that passes the
      appointment's checks can be booked; then nobody can book it, whoever the
      patient; once that appointment is cancelled the slot is free again, and
      as no doctor's agenda is touched the checks still pass, which is when
      AgendarTurno books it. The patient's history holds the very appointment
      that was cancelled. */
  method CancelarLiberaElTurno(c: Clinica, h: HistoriaClinica, otra: HistoriaClinica, dni: string, otroDni: string,
                               matricula: string, fecha: string, hora: string, especialidad: string)
    returns (primero: Turno, ocupado: Result<Turno>)
    requires c.Valid() && dni in c.pacientes && otroDni in c.pacientes && matricula in c.medicos
    requires dni in c.historias && c.historias[dni] == h && otroDni in c.historias && c.historias[otroDni] == otra
    requires c.turnos == []
    requires Agendable(c.medicos[matricula].agenda, fecha, hora, especialidad)
    modifies c`turnos, h`turnos, otra`turnos
    ensures c.Valid()
    ensures ocupado == Err(TurnoOcupado)
    ensures c.turnos == [primero] && h.turnos == old(h.turnos) + [primero]
    ensures primero.estado == Cancelado
    ensures !SlotOcupado(c.turnos, matricula, fecha, hora)
  {
    primero, ocupado := OcuparDosVeces(c, h, otra, dni, otroDni, matricula, fecha, hora, especialidad);
    CancelarUnico(c, primero, matricula, fecha, hora);
  }
}
